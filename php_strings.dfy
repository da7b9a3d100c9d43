/**
 * The PHP string primitives App.php relies on, over `string` (one `char` per
 * character; PHP counts bytes, which agrees for ASCII text):
 * truthiness, `trim`, `rtrim($s, "\n")`, `ucfirst`, `str_pad`, `strpos`, `strtr` with an
 * array of pairs, and the decimal rendering of `%d`.
 */
module PhpString {
  import opened Wrappers

  /** PHP's truthiness of a string: exactly "" and "0" are falsy. */
  predicate Falsy(s: string) {
    s == "" || s == "0"
  }

  /** The characters `trim` removes by default: space, tab, LF, CR, NUL and vertical tab. */
  predicate IsTrimChar(c: char) {
    c == ' ' || c == '\t' || c == '\n' || c == '\r' || c == '\0' || c == '\U{000B}'
  }

  /** Strips trim characters from the front: the result is the longest suffix of `s` that does not start with one. */
  function TrimStart(s: string): (r: string)
    ensures |r| <= |s| && r == s[|s| - |r|..]
    ensures forall i :: 0 <= i < |s| - |r| ==> IsTrimChar(s[i])
    ensures r == [] || !IsTrimChar(r[0])
  {
    if s != [] && IsTrimChar(s[0]) then TrimStart(s[1..]) else s
  }

  /** Strips trim characters from the back: the result is the longest prefix of `s` that does not end with one. */
  function TrimEndChars(s: string): (r: string)
    ensures |r| <= |s| && r == s[..|r|]
    ensures forall i :: |r| <= i < |s| ==> IsTrimChar(s[i])
    ensures r == [] || !IsTrimChar(r[|r| - 1])
  {
    if s != [] && IsTrimChar(s[|s| - 1]) then TrimEndChars(s[..|s| - 1]) else s
  }

  /** `r` is `s` with `k` trim characters cut from the front and only trim characters cut from the back. */
  predicate CutAt(s: string, r: string, k: nat) {
    k + |r| <= |s| && r == s[k..k + |r|]
    && (forall i :: 0 <= i < k ==> IsTrimChar(s[i]))
    && (forall i :: k + |r| <= i < |s| ==> IsTrimChar(s[i]))
  }

  /**
   * PHP `trim($s)`: `s` with its leading and trailing trim characters cut off, and
   * nothing else; what is left neither starts nor ends with one.
   */
  function Trim(s: string): (r: string)
    ensures r == [] || (!IsTrimChar(r[0]) && !IsTrimChar(r[|r| - 1]))
    ensures |r| <= |s|
    ensures exists k :: CutAt(s, r, k)
  {
    TrimCuts(s);
    TrimEndChars(TrimStart(s))
  }

  /** Cutting trim characters from the front and then from the back cuts only trim characters, at both ends. */
  lemma CutBoth(s: string, t: string, r: string)
    requires |t| <= |s| && t == s[|s| - |t|..] && forall i :: 0 <= i < |s| - |t| ==> IsTrimChar(s[i])
    requires |r| <= |t| && r == t[..|r|] && forall i :: |r| <= i < |t| ==> IsTrimChar(t[i])
    ensures CutAt(s, r, |s| - |t|)
  {
    var k := |s| - |t|;
    assert r == s[k..k + |r|];
    forall i | k + |r| <= i < |s| ensures IsTrimChar(s[i]) {
      assert s[i] == t[i - k];
    }
  }

  lemma TrimCuts(s: string)
    ensures CutAt(s, TrimEndChars(TrimStart(s)), |s| - |TrimStart(s)|)
  {
    CutBoth(s, TrimStart(s), TrimEndChars(TrimStart(s)));
  }

  /** A string that neither starts nor ends with a trim character is its own trim. */
  lemma TrimKeepsClean(s: string)
    requires s == [] || (!IsTrimChar(s[0]) && !IsTrimChar(s[|s| - 1]))
    ensures Trim(s) == s
  {
  }

  /** Trimming twice is trimming once. */
  lemma TrimIdempotent(s: string)
    ensures Trim(Trim(s)) == Trim(s)
  {
    TrimKeepsClean(Trim(s));
  }

  /** PHP `rtrim($s, "\n")`: the longest prefix of `s` not ending in a line feed, with only line feeds cut off. */
  function TrimEnd(s: string): (r: string)
    ensures |r| <= |s| && r == s[..|r|]
    ensures forall i :: |r| <= i < |s| ==> s[i] == '\n'
    ensures r == [] || r[|r| - 1] != '\n'
  {
    if s != [] && s[|s| - 1] == '\n' then TrimEnd(s[..|s| - 1]) else s
  }

  /** Line feeds at the end of `y` are cut from `x + y` as from `y` alone, when `x` does not end in one. */
  lemma {:induction false} TrimEndAfter(x: string, y: string)
    requires x != [] && x[|x| - 1] != '\n'
    ensures TrimEnd(x + y) == x + TrimEnd(y)
    decreases |y|
  {
    if y == [] {
      assert x + y == x;
    } else if y[|y| - 1] == '\n' {
      var y' := y[..|y| - 1];
      assert (x + y)[..|x + y| - 1] == x + y';
      TrimEndAfter(x, y');
    } else {
      assert (x + y)[|x + y| - 1] == y[|y| - 1];
    }
  }

  predicate IsLower(c: char) {
    'a' <= c <= 'z'
  }

  /** PHP `ucfirst`: an ASCII lower-case first letter becomes upper case, nothing else changes. */
  function UpperFirst(s: string): (r: string)
    ensures |r| == |s|
    ensures s != [] ==> r[1..] == s[1..]
    ensures s != [] && !IsLower(s[0]) ==> r == s
    ensures r == [] || !IsLower(r[0])
    ensures s != [] && IsLower(s[0]) ==> r[0] as int == s[0] as int - 32 && 'A' <= r[0] <= 'Z'
  {
    if s != [] && IsLower(s[0]) then [(s[0] as int - 32) as char] + s[1..] else s
  }

  /** `n` spaces. */
  function Spaces(n: nat): (r: string)
    ensures |r| == n
    ensures forall i :: 0 <= i < n ==> r[i] == ' '
  {
    if n == 0 then "" else Spaces(n - 1) + " "
  }

  /** PHP `str_pad($s, $width)`: pads with spaces on the right up to `width`; a longer string is unchanged. */
  function PadRight(s: string, width: int): (r: string)
    ensures |r| == if width > |s| then width else |s|
    ensures r[..|s|] == s
    ensures forall i :: |s| <= i < |r| ==> r[i] == ' '
  {
    if width > |s| then s + Spaces(width - |s|) else s
  }

  /** `pat` occurs in `s` starting at index `k`. */
  predicate OccursAt(s: string, pat: string, k: nat) {
    k + |pat| <= |s| && s[k..k + |pat|] == pat
  }

  /** Concatenation is associative. */
  lemma AppendAssoc(a: string, b: string, c: string)
    ensures (a + b) + c == a + (b + c)
  {
  }

  /** Concatenation of line sequences is associative. */
  lemma LinesAppendAssoc(a: seq<string>, b: seq<string>, c: seq<string>)
    ensures (a + b) + c == a + (b + c)
  {
  }

  /** A text occurs at the start of any text it begins. */
  lemma PrefixOccurs(a: string, b: string)
    ensures OccursAt(a + b, a, 0)
  {
    assert (a + b)[..|a|] == a;
  }

  /** An occurrence inside `b` is an occurrence inside `a + b + c`, shifted by `|a|`. */
  lemma OccursInConcat(a: string, b: string, c: string, pat: string, k: nat)
    requires OccursAt(b, pat, k)
    ensures OccursAt(a + b + c, pat, |a| + k)
  {
    assert (a + b + c)[|a| + k..|a| + k + |pat|] == b[k..k + |pat|];
  }

  /** An occurrence of `pat` inside an occurrence of `mid` is an occurrence in the whole text. */
  lemma OccursWithin(s: string, mid: string, pat: string, p: nat, q: nat)
    requires OccursAt(s, mid, p) && OccursAt(mid, pat, q)
    ensures OccursAt(s, pat, p + q)
  {
    forall k | 0 <= k < |pat| ensures s[p + q + k] == pat[k] {
      assert pat[k] == mid[q..q + |pat|][k] == mid[q + k];
      assert mid[q + k] == s[p..p + |mid|][q + k];
    }
    assert s[p + q..p + q + |pat|] == pat;
  }

  /** The first occurrence of `pat` in `s` at index `from` or later. */
  function IndexFrom(s: string, pat: string, from: nat): (r: Option<nat>)
    requires from <= |s|
    decreases |s| - from
    ensures r.Some? ==> from <= r.value && OccursAt(s, pat, r.value)
    ensures r.Some? ==> forall j :: from <= j < r.value ==> !OccursAt(s, pat, j)
    ensures r.None? ==> forall j :: from <= j <= |s| ==> !OccursAt(s, pat, j)
  {
    if OccursAt(s, pat, from) then Some(from)
    else if from == |s| then None
    else IndexFrom(s, pat, from + 1)
  }

  /** PHP `strpos($s, $pat)`: the index of the first occurrence, or none (PHP's `false`). */
  function IndexOf(s: string, pat: string): (r: Option<nat>)
    ensures r.Some? ==> OccursAt(s, pat, r.value) && forall j :: 0 <= j < r.value ==> !OccursAt(s, pat, j)
    ensures r.None? <==> forall j :: 0 <= j <= |s| ==> !OccursAt(s, pat, j)
  {
    IndexFrom(s, pat, 0)
  }

  /**
   * The truth value PHP gives to `strpos($s, $pat)` used as a condition: the
   * index 0 is as falsy as `false`, so it holds exactly when `pat` occurs in `s`
   * and `s` does not start with it.
   */
  predicate StrposTruthy(s: string, pat: string) {
    match IndexOf(s, pat)
    case Some(p) => p != 0
    case None => false
  }

  lemma {:induction false} StrposTruthyIff(s: string, pat: string)
    ensures StrposTruthy(s, pat) <==> (exists k: nat :: OccursAt(s, pat, k)) && !OccursAt(s, pat, 0)
  {
    var r := IndexOf(s, pat);
    if r.None? {
      forall k: nat ensures !OccursAt(s, pat, k) {
        if k <= |s| {
          assert !OccursAt(s, pat, k);
        }
      }
    } else {
      assert OccursAt(s, pat, r.value);
    }
  }

  /** The first entry of `table`, at `from` or later, whose key is non-empty and a prefix of `s`. */
  function FirstMatch(s: string, table: seq<(string, string)>, from: nat): (r: Option<nat>)
    decreases |table| - from
    ensures r.Some? ==> from <= r.value < |table| && table[r.value].0 != [] && table[r.value].0 <= s
    ensures r.None? ==> forall j :: from <= j < |table| && table[j].0 != [] ==> !(table[j].0 <= s)
  {
    if from >= |table| then None
    else if table[from].0 != [] && table[from].0 <= s then Some(from)
    else FirstMatch(s, table, from + 1)
  }

  /** No key of the table is a prefix of another key. */
  predicate PrefixFree(table: seq<(string, string)>) {
    forall i, j :: 0 <= i < |table| && 0 <= j < |table| && i != j ==> !(table[i].0 <= table[j].0)
  }

  /** In a prefix-free table, the text starting with a key matches that key and no other. */
  lemma KeyMatchesItself(table: seq<(string, string)>, i: nat, rest: string)
    requires PrefixFree(table) && i < |table| && table[i].0 != []
    ensures FirstMatch(table[i].0 + rest, table, 0) == Some(i)
  {
    var s := table[i].0 + rest;
    assert table[i].0 <= s;
  }

  /**
   * PHP `strtr($s, $pairs)`: one left-to-right pass that, at each position, replaces
   * a matching key by its value and continues AFTER the key, so replacement text is
   * never scanned again; where no key matches, the character is kept. The first
   * matching key is taken; for a table in which no key is a prefix of another (the
   * only tables used here) that is also the longest match, which is what PHP takes.
   */
  function Translate(s: string, table: seq<(string, string)>): string
    decreases |s|
  {
    if s == [] then []
    else match FirstMatch(s, table, 0)
      case Some(i) => table[i].1 + Translate(s[|table[i].0|..], table)
      case None => [s[0]] + Translate(s[1..], table)
  }

  /** A stretch of text at which no key starts passes through `Translate` unchanged. */
  lemma {:induction false} TranslateSkipsPlain(a: string, b: string, table: seq<(string, string)>)
    requires forall i :: 0 <= i < |a| ==> FirstMatch((a + b)[i..], table, 0).None?
    ensures Translate(a + b, table) == a + Translate(b, table)
  {
    if a != [] {
      assert (a + b)[0..] == a + b;
      assert FirstMatch(a + b, table, 0).None?;
      assert (a + b)[1..] == a[1..] + b;
      assert Translate(a + b, table) == [a[0]] + Translate(a[1..] + b, table);
      forall i | 0 <= i < |a[1..]| ensures FirstMatch((a[1..] + b)[i..], table, 0).None? {
        assert (a[1..] + b)[i..] == (a + b)[i + 1..];
      }
      TranslateSkipsPlain(a[1..], b, table);
      AppendAssoc([a[0]], a[1..], Translate(b, table));
      assert [a[0]] + a[1..] == a;
    } else {
      assert a + b == b;
    }
  }

  /** A text at which no key starts anywhere is left as it is. */
  lemma TranslateIdentity(s: string, table: seq<(string, string)>)
    requires forall i :: 0 <= i < |s| ==> FirstMatch(s[i..], table, 0).None?
    ensures Translate(s, table) == s
  {
    assert s + [] == s;
    TranslateSkipsPlain(s, [], table);
  }

  /** A matched key is replaced by its value, and scanning resumes after the key. */
  lemma TranslateKey(key: string, rest: string, table: seq<(string, string)>, i: nat)
    requires FirstMatch(key + rest, table, 0) == Some(i) && table[i].0 == key
    ensures Translate(key + rest, table) == table[i].1 + Translate(rest, table)
  {
    assert (key + rest)[|key|..] == rest;
  }

  /** The digit written for `d`. */
  function DigitChar(d: nat): (c: char)
    requires d < 10
    ensures '0' <= c <= '9' && c as int - '0' as int == d
  {
    ('0' as int + d) as char
  }

  predicate IsDigits(s: string) {
    forall i :: 0 <= i < |s| ==> '0' <= s[i] <= '9'
  }

  /** The number a string of decimal digits denotes. */
  function DecValue(s: string): nat
    requires IsDigits(s)
    decreases |s|
  {
    if s == [] then 0 else DecValue(s[..|s| - 1]) * 10 + (s[|s| - 1] as int - '0' as int)
  }

  /**
   * The decimal digits of `n`: they denote `n`, and there is no leading zero
   * (only 0 itself is written "0").
   */
  function NatToString(n: nat): (r: string)
    decreases n
    ensures r != [] && IsDigits(r)
    ensures DecValue(r) == n
    ensures r[0] == '0' <==> n == 0
    ensures n == 0 ==> r == "0"
  {
    if n < 10 then [DigitChar(n)]
    else
      var p := NatToString(n / 10);
      var r := p + [DigitChar(n % 10)];
      assert r[..|r| - 1] == p;
      r
  }

  /**
   * `sprintf('%d', $i)`: a `-` exactly for negative numbers, followed by the
   * decimal digits of the magnitude without leading zeros.
   */
  function IntToString(i: int): (r: string)
    ensures r != []
    ensures (r[0] == '-') <==> i < 0
    ensures i >= 0 ==> IsDigits(r) && DecValue(r) == i && (r[0] == '0' <==> i == 0)
    ensures i < 0 ==> |r| >= 2 && IsDigits(r[1..]) && DecValue(r[1..]) == -i && r[1] != '0'
  {
    if i < 0 then
      var d := NatToString(-i);
      assert ("-" + d)[1..] == d;
      "-" + d
    else NatToString(i)
  }
}

/** The few pieces of Go's `strings` and `fmt` packages that the deployer and
    the advisor rely on, over `string` (= `seq<char>`).  Case folding and
    white-space trimming cover ASCII only. */
module Text {

  import opened Wrappers

  /* ---------------------------------------------------------------------- */
  /* Prefixes and substrings (strings.HasPrefix, strings.Contains)           */
  /* ---------------------------------------------------------------------- */

  predicate StartsWith(s: string, p: string) {
    |p| <= |s| && s[..|p|] == p
  }

  /** strings.Contains(s, p): p occurs somewhere in s. */
  predicate Contains(s: string, p: string) {
    exists i :: 0 <= i <= |s| - |p| && StartsWith(s[i..], p)
  }

  /** Every character of an occurring substring is a character of s. */
  lemma ContainsChar(s: string, p: string, c: char)
    requires Contains(s, p) && c in p
    ensures c in s
  {
    var i :| 0 <= i <= |s| - |p| && StartsWith(s[i..], p);
    var j :| 0 <= j < |p| && p[j] == c;
    assert s[i..][..|p|][j] == s[i + j];
  }

  /** A substring that uses a character s lacks cannot occur in s. */
  lemma NotContainsByChar(s: string, p: string, c: char)
    requires c in p && c !in s
    ensures !Contains(s, p)
  {
    if Contains(s, p) { ContainsChar(s, p, c); }
  }

  /** Occurrences survive appending text on either side. */
  lemma ContainsInfix(a: string, p: string, b: string)
    ensures Contains(a + p + b, p)
  {
    assert (a + p + b)[|a|..][..|p|] == p;
  }

  lemma ContainsAppend(s: string, p: string, t: string)
    requires Contains(s, p)
    ensures Contains(s + t, p)
  {
    var i :| 0 <= i <= |s| - |p| && StartsWith(s[i..], p);
    assert (s + t)[i..][..|p|] == s[i..][..|p|];
  }

  /** A text shorter than p cannot hold p. */
  lemma ShortNotContains(s: string, p: string)
    requires |s| < |p|
    ensures !Contains(s, p)
  {
  }

  /** Skipping a prefix that does not hold the first character of p. */
  lemma ContainsSkip(s: string, p: string, k: nat)
    requires |p| > 0 && k <= |s| && p[0] !in s[..k]
    ensures Contains(s, p) <==> Contains(s[k..], p)
  {
    if Contains(s, p) {
      var i :| 0 <= i <= |s| - |p| && StartsWith(s[i..], p);
      assert s[i] == p[0] by { assert s[i..][..|p|][0] == s[i]; }
      assert s[k..][i - k..] == s[i..];
    }
    if Contains(s[k..], p) {
      var j :| 0 <= j <= |s[k..]| - |p| && StartsWith(s[k..][j..], p);
      assert s[k..][j..] == s[k + j..];
    }
  }

  /** A phrase cannot start at c when the character after c differs from
      the phrase's second one. */
  lemma ContainsSkipMismatch(c: char, b: string, p: string)
    requires |p| > 1 && |b| > 0 && b[0] != p[1]
    ensures Contains([c] + b, p) <==> Contains(b, p)
  {
    var s := [c] + b;
    if Contains(s, p) {
      var i :| 0 <= i <= |s| - |p| && StartsWith(s[i..], p);
      assert s[i..] == b[i - 1..];
    }
    if Contains(b, p) {
      var j :| 0 <= j <= |b| - |p| && StartsWith(b[j..], p);
      assert s[j + 1..] == b[j..];
    }
  }

  /* ---------------------------------------------------------------------- */
  /* ASCII case folding (strings.ToLower)                                   */
  /* ---------------------------------------------------------------------- */

  function LowerChar(c: char): (r: char)
    ensures !('A' <= r <= 'Z')
    ensures 'a' <= c <= 'z' || !('A' <= c <= 'Z') ==> r == c
  {
    if 'A' <= c <= 'Z' then (c as int - 'A' as int + 'a' as int) as char else c
  }

  function ToLower(s: string): (r: string)
    ensures |r| == |s|
    ensures forall i :: 0 <= i < |s| ==> r[i] == LowerChar(s[i])
  {
    seq(|s|, i requires 0 <= i < |s| => LowerChar(s[i]))
  }

  /** Lower-casing works piece by piece. */
  lemma ToLowerAppend(a: string, b: string)
    ensures ToLower(a + b) == ToLower(a) + ToLower(b)
  {
  }

  /** Lower-casing twice is lower-casing once. */
  lemma ToLowerIdempotent(s: string)
    ensures ToLower(ToLower(s)) == ToLower(s)
  {
  }

  /* ---------------------------------------------------------------------- */
  /* Finding and cutting at a separator (strings.Index, strings.SplitN(_, 2)) */
  /* ---------------------------------------------------------------------- */

  /** Position of the first occurrence of c. */
  function IndexOf(s: string, c: char): (r: Option<nat>)
    ensures r.None? <==> c !in s
    ensures r.Some? ==> r.value < |s| && s[r.value] == c && c !in s[..r.value]
  {
    if |s| == 0 then None
    else if s[0] == c then Some(0)
    else match IndexOf(s[1..], c)
      case None => None
      case Some(i) =>
        assert s[..i + 1] == [s[0]] + s[1..][..i];
        Some(i + 1)
  }

  /** strings.SplitN(s, sep, 2) when it has two parts: the text before the
      first separator and everything after it. */
  function Cut(s: string, sep: char): (r: Option<(string, string)>)
    ensures r.None? <==> sep !in s
    ensures r.Some? ==> s == r.value.0 + [sep] + r.value.1 && sep !in r.value.0
  {
    match IndexOf(s, sep)
    case None => None
    case Some(i) =>
      assert s == s[..i] + [sep] + s[i + 1..];
      Some((s[..i], s[i + 1..]))
  }

  /** Cutting k + sep + v gives back k and v whenever k is free of sep; v may
      hold any number of further separators. */
  lemma CutJoin(k: string, sep: char, v: string)
    requires sep !in k
    ensures Cut(k + [sep] + v, sep) == Some((k, v))
  {
    var s := k + [sep] + v;
    assert s[|k|] == sep;
    assert s[..|k|] == k;
    assert s[|k| + 1..] == v;
  }

  /* ---------------------------------------------------------------------- */
  /* Splitting and joining (strings.Split, strings.Join)                     */
  /* ---------------------------------------------------------------------- */

  /** strings.Split(s, sep) for a one-character separator: never empty, no
      piece holds the separator. */
  function Split(s: string, sep: char): (r: seq<string>)
    ensures |r| >= 1
    ensures forall i :: 0 <= i < |r| ==> sep !in r[i]
    decreases |s|
  {
    match Cut(s, sep)
    case None => [s]
    case Some((a, b)) => [a] + Split(b, sep)
  }

  function Join(parts: seq<string>, sep: string): string
  {
    if |parts| == 0 then ""
    else if |parts| == 1 then parts[0]
    else parts[0] + sep + Join(parts[1..], sep)
  }

  /** Splitting loses nothing: joining the pieces with the separator gives
      the text back. */
  lemma {:induction false} SplitJoin(s: string, sep: char)
    ensures Join(Split(s, sep), [sep]) == s
    decreases |s|
  {
    match Cut(s, sep)
    case None =>
    case Some((a, b)) =>
      SplitJoin(b, sep);
      assert Split(s, sep) == [a] + Split(b, sep);
      assert |Split(b, sep)| >= 1;
  }

  /** The first piece of strings.Split is the text before the first
      separator, or all of s. */
  lemma SplitHead(s: string, sep: char)
    ensures Split(s, sep)[0] == (match Cut(s, sep) case None => s case Some(kv) => kv.0)
  {
  }

  /** Splitting a + sep + b where a holds no separator. */
  lemma SplitCons(a: string, sep: char, b: string)
    requires sep !in a
    ensures Split(a + [sep] + b, sep) == [a] + Split(b, sep)
  {
    CutJoin(a, sep, b);
  }

  predicate EndsWith(s: string, t: string) {
    |t| <= |s| && s[|s| - |t|..] == t
  }

  /** A text ends with its own suffixes, and with theirs. */
  lemma EndsWithTrans(s: string, b: string, t: string)
    requires EndsWith(s, b) && EndsWith(b, t)
    ensures EndsWith(s, t)
  {
    assert s[|s| - |t|..] == s[|s| - |b|..][|b| - |t|..];
  }

  /** Cutting at the first separator leaves a suffix of the text, and the
      split continues on that suffix. */
  lemma SplitStep(s: string, sep: char, a: string, b: string)
    requires Cut(s, sep) == Some((a, b))
    ensures Split(s, sep) == [a] + Split(b, sep)
    ensures EndsWith(s, b) && |b| < |s|
  {
    assert s == (a + [sep]) + b;
    assert s[|s| - |b|..] == b;
  }

  /** A text without the separator splits into itself alone. */
  lemma SplitWhole(s: string, sep: char)
    requires sep !in s
    ensures Split(s, sep) == [s]
  {
    assert Cut(s, sep).None?;
  }

  /** The last piece of strings.Split is the whole text or follows the
      text's last separator. */
  lemma {:induction false} SplitLastAfterSep(s: string, sep: char)
    ensures var r := Split(s, sep); r[|r| - 1] == s || EndsWith(s, [sep] + r[|r| - 1])
    decreases |s|
  {
    var r := Split(s, sep);
    var c := Cut(s, sep);
    if c.None? {
      SplitWhole(s, sep);
    } else {
      var a, b := c.value.0, c.value.1;
      SplitStep(s, sep, a, b);
      SplitLastAfterSep(b, sep);
      var rb := Split(b, sep);
      var last := rb[|rb| - 1];
      assert r[|r| - 1] == last by { assert r == [a] + rb; }
      if last == b {
        SepSuffix(s, a, sep, b);
      } else {
        EndsWithTrans(s, b, [sep] + last);
      }
    }
  }

  /** In particular the last piece ends the text. */
  lemma SplitLast(s: string, sep: char)
    ensures var r := Split(s, sep); EndsWith(s, r[|r| - 1])
  {
    SplitLastAfterSep(s, sep);
    var r := Split(s, sep);
    var last := r[|r| - 1];
    if last == s {
      assert s[|s| - |s|..] == s;
    } else {
      assert ([sep] + last)[1..] == last;
      EndsWithTrans(s, [sep] + last, last);
    }
  }

  lemma SepSuffix(s: string, a: string, sep: char, b: string)
    requires s == a + [sep] + b
    ensures EndsWith(s, [sep] + b)
  {
    assert s[|s| - |[sep] + b|..] == [sep] + b;
  }

  /* ---------------------------------------------------------------------- */
  /* White space (strings.TrimSpace)                                        */
  /* ---------------------------------------------------------------------- */

  predicate IsSpace(c: char) {
    c == ' ' || c == '\t' || c == '\n' || c == '\r' || c == '\U{B}' || c == '\U{C}'
  }

  predicate AllSpace(s: string) {
    forall i :: 0 <= i < |s| ==> IsSpace(s[i])
  }

  function TrimLeft(s: string): (r: string)
    ensures |r| <= |s| && r == s[|s| - |r|..]
    ensures AllSpace(s[..|s| - |r|])
    ensures |r| > 0 ==> !IsSpace(r[0])
  {
    if |s| > 0 && IsSpace(s[0]) then TrimLeft(s[1..]) else s
  }

  function TrimRight(s: string): (r: string)
    ensures |r| <= |s| && r == s[..|r|]
    ensures AllSpace(s[|r|..])
    ensures |r| > 0 ==> !IsSpace(r[|r| - 1])
  {
    if |s| > 0 && IsSpace(s[|s| - 1]) then TrimRight(s[..|s| - 1]) else s
  }

  /** strings.TrimSpace: what is left after cutting white space off both
      ends; s is that text wrapped in white space. */
  function TrimSpace(s: string): (r: string)
    ensures exists i, j :: 0 <= i <= j <= |s| && r == s[i..j] && AllSpace(s[..i]) && AllSpace(s[j..])
    ensures |r| > 0 ==> !IsSpace(r[0]) && !IsSpace(r[|r| - 1])
  {
    var l := TrimLeft(s);
    var r := TrimRight(l);
    var i := |s| - |l|;
    assert r == s[i..i + |r|];
    assert AllSpace(s[i + |r|..]) by { assert s[i + |r|..] == l[|r|..]; }
    r
  }

  /** A blank text trims to "", and only a blank text does. */
  lemma TrimSpaceEmpty(s: string)
    ensures TrimSpace(s) == "" <==> AllSpace(s)
  {
    var l := TrimLeft(s);
    if TrimSpace(s) == "" {
      assert s[..|s|] == s;
    }
  }

  /* ---------------------------------------------------------------------- */
  /* Decimal integers (fmt's %d)                                            */
  /* ---------------------------------------------------------------------- */

  function Digit(d: nat): (c: char)
    requires d < 10
    ensures '0' <= c <= '9'
  {
    ('0' as int + d) as char
  }

  function NatToString(n: nat): (s: string)
    ensures |s| > 0 && AllDigits(s)
    decreases n
  {
    if n < 10 then [Digit(n)] else NatToString(n / 10) + [Digit(n % 10)]
  }

  /** %d of a Go int: a minus sign and the digits of the magnitude. */
  function IntToString(n: int): string {
    if n < 0 then "-" + NatToString(-n) else NatToString(n)
  }

  predicate AllDigits(s: string) {
    forall i :: 0 <= i < |s| ==> '0' <= s[i] <= '9'
  }

  function ParseDigits(s: string): nat
    requires AllDigits(s)
  {
    if |s| == 0 then 0 else 10 * ParseDigits(s[..|s| - 1]) + (s[|s| - 1] as int - '0' as int)
  }

  /** Reads what %d prints: an optional minus sign and decimal digits. */
  function ParseInt(s: string): int
  {
    if |s| > 0 && s[0] == '-' && AllDigits(s[1..]) then -(ParseDigits(s[1..]) as int)
    else if AllDigits(s) then ParseDigits(s)
    else 0
  }

  /** The digits %d prints read back as the same number. */
  lemma {:induction false} NatToStringParses(n: nat)
    ensures ParseDigits(NatToString(n)) == n
    decreases n
  {
    if n >= 10 {
      NatToStringParses(n / 10);
      var s := NatToString(n);
      assert s[..|s| - 1] == NatToString(n / 10);
    }
  }

  lemma IntToStringParses(n: int)
    ensures ParseInt(IntToString(n)) == n
  {
    var s := IntToString(n);
    if n < 0 {
      NatToStringParses(-n);
      assert s[1..] == NatToString(-n);
      assert AllDigits(s[1..]);
    } else {
      NatToStringParses(n);
      assert s[0] != '-';
      assert AllDigits(s);
    }
  }

  /** So %d is injective: two ports print alike only when they are equal. */
  lemma IntToStringInjective(m: int, n: int)
    requires IntToString(m) == IntToString(n)
    ensures m == n
  {
    IntToStringParses(m);
    IntToStringParses(n);
  }
}

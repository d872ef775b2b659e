/** The parts of Go's `strings` and `fmt` packages the provider relies on,
    over strings of code points. */
module Text {
  import opened Common

  // ---------------------------------------------------------------------------
  // Whitespace and trimming (strings.TrimSpace)
  // ---------------------------------------------------------------------------

  /** unicode.IsSpace: the Latin-1 spaces plus the other White_Space code points. */
  predicate IsSpace(c: char) {
    var n := c as int;
    || (9 <= n <= 13) || n == 32 || n == 0x85 || n == 0xA0 || n == 0x1680
    || (0x2000 <= n <= 0x200A) || n == 0x2028 || n == 0x2029 || n == 0x202F
    || n == 0x205F || n == 0x3000
  }

  predicate AllSpace(s: string) {
    forall i :: 0 <= i < |s| ==> IsSpace(s[i])
  }

  /** Neither end of `s` is a space. */
  predicate Trimmed(s: string) {
    |s| == 0 || (!IsSpace(s[0]) && !IsSpace(s[|s| - 1]))
  }

  function TrimLeft(s: string): string
    decreases |s|
  {
    if |s| > 0 && IsSpace(s[0]) then TrimLeft(s[1..]) else s
  }

  function TrimRight(s: string): string
    decreases |s|
  {
    if |s| > 0 && IsSpace(s[|s| - 1]) then TrimRight(s[..|s| - 1]) else s
  }

  /** TrimLeft drops exactly the leading spaces. */
  lemma {:induction false} TrimLeftSpec(s: string)
    ensures var r := TrimLeft(s);
      && |r| <= |s| && r == s[|s| - |r|..]
      && AllSpace(s[..|s| - |r|])
      && (|r| > 0 ==> !IsSpace(r[0]))
    decreases |s|
  {
    if |s| > 0 && IsSpace(s[0]) {
      TrimLeftSpec(s[1..]);
      var r := TrimLeft(s[1..]);
      assert s[..|s| - |r|] == [s[0]] + s[1..][..|s| - 1 - |r|];
    }
  }

  /** TrimRight drops exactly the trailing spaces. */
  lemma {:induction false} TrimRightSpec(s: string)
    ensures var r := TrimRight(s);
      && |r| <= |s| && r == s[..|r|]
      && AllSpace(s[|r|..])
      && (|r| > 0 ==> !IsSpace(r[|r| - 1]))
    decreases |s|
  {
    if |s| > 0 && IsSpace(s[|s| - 1]) {
      TrimRightSpec(s[..|s| - 1]);
      var r := TrimRight(s[..|s| - 1]);
      assert s[|r|..] == s[..|s| - 1][|r|..] + [s[|s| - 1]];
    }
  }

  /** `r` sits at offset `i` of `s` with only spaces around it. */
  predicate PaddedAt(s: string, r: string, i: int) {
    0 <= i && i + |r| <= |s| && AllSpace(s[..i]) && s[i..i + |r|] == r && AllSpace(s[i + |r|..])
  }

  /** strings.TrimSpace */
  function TrimSpace(s: string): (r: string)
    ensures Trimmed(r)
  {
    TrimLeftSpec(s);
    TrimRightSpec(TrimLeft(s));
    TrimRight(TrimLeft(s))
  }

  /** TrimSpace only removes spaces, and only from the two ends. */
  lemma TrimSpaceShape(s: string)
    ensures PaddedAt(s, TrimSpace(s), |s| - |TrimLeft(s)|)
  {
    var l := TrimLeft(s);
    var r := TrimRight(l);
    TrimLeftSpec(s);
    TrimRightSpec(l);
    var i := |s| - |l|;
    assert s[i..i + |r|] == l[..|r|];
    assert l[|r|..] == s[i + |r|..];
  }

  lemma {:induction false} TrimLeftSkips(pre: string, x: string)
    requires AllSpace(pre)
    requires |x| == 0 || !IsSpace(x[0])
    ensures TrimLeft(pre + x) == x
    decreases |pre|
  {
    if |pre| > 0 {
      assert (pre + x)[1..] == pre[1..] + x;
      TrimLeftSkips(pre[1..], x);
    } else {
      assert pre + x == x;
    }
  }

  lemma {:induction false} TrimRightSkips(x: string, post: string)
    requires AllSpace(post)
    requires |x| == 0 || !IsSpace(x[|x| - 1])
    ensures TrimRight(x + post) == x
    decreases |post|
  {
    if |post| > 0 {
      assert (x + post)[..|x + post| - 1] == x + post[..|post| - 1];
      TrimRightSkips(x, post[..|post| - 1]);
    } else {
      assert x + post == x;
    }
  }

  /** TrimSpace removes exactly the surrounding spaces: padding a trimmed
      string with spaces on both sides and trimming gives it back. */
  lemma TrimSpacePadded(pre: string, core: string, post: string)
    requires AllSpace(pre) && AllSpace(post) && Trimmed(core)
    ensures TrimSpace(pre + core + post) == core
  {
    if core == [] {
      assert pre + core + post == (pre + post) + [];
      TrimLeftSkips(pre + post, []);
    } else {
      assert pre + core + post == pre + (core + post);
      TrimLeftSkips(pre, core + post);
      TrimRightSkips(core, post);
    }
  }

  lemma TrimSpaceIdempotent(s: string)
    ensures TrimSpace(TrimSpace(s)) == TrimSpace(s)
  {
    var t := TrimSpace(s);
    TrimSpacePadded([], t, []);
    assert [] + t + [] == t;
  }

  // ---------------------------------------------------------------------------
  // Prefixes, suffixes and substring search
  // ---------------------------------------------------------------------------

  predicate HasPrefix(s: string, p: string) {
    |p| <= |s| && s[..|p|] == p
  }

  predicate HasSuffix(s: string, p: string) {
    |p| <= |s| && s[|s| - |p|..] == p
  }

  /** `sub` occurs in `s` starting at offset `i`. */
  predicate OccursAt(s: string, sub: string, i: int) {
    0 <= i && i + |sub| <= |s| && s[i..i + |sub|] == sub
  }

  /** strings.Contains */
  predicate Contains(s: string, sub: string) {
    exists i | 0 <= i <= |s| :: OccursAt(s, sub, i)
  }

  /** The first occurrence of `sub` in `s` at or after `from`. */
  function IndexFrom(s: string, sub: string, from: nat): (r: Option<nat>)
    ensures r.Some? ==> from <= r.value && OccursAt(s, sub, r.value)
    ensures r.Some? ==> forall j :: from <= j < r.value ==> !OccursAt(s, sub, j)
    ensures r.None? ==> forall j :: from <= j ==> !OccursAt(s, sub, j)
    decreases |s| - from
  {
    if from + |sub| > |s| then None
    else if OccursAt(s, sub, from) then Some(from)
    else IndexFrom(s, sub, from + 1)
  }

  /** strings.Index, with None for Go's -1. */
  function Index(s: string, sub: string): (r: Option<nat>)
    ensures r.Some? <==> Contains(s, sub)
    ensures r.Some? ==> OccursAt(s, sub, r.value)
    ensures r.Some? ==> forall j :: 0 <= j < r.value ==> !OccursAt(s, sub, j)
  {
    IndexFrom(s, sub, 0)
  }

  lemma OccursInPrefix(s: string, sub: string, n: int, j: int)
    requires 0 <= n <= |s|
    requires OccursAt(s[..n], sub, j)
    ensures OccursAt(s, sub, j)
  {
    assert s[..n][j..j + |sub|] == s[j..j + |sub|];
  }

  lemma OccursInSuffix(s: string, sub: string, n: int, j: int)
    requires 0 <= n <= |s|
    requires OccursAt(s[n..], sub, j)
    ensures OccursAt(s, sub, n + j)
  {
    assert s[n..][j..j + |sub|] == s[n + j..n + j + |sub|];
  }

  // ---------------------------------------------------------------------------
  // strings.Split
  // ---------------------------------------------------------------------------

  /** Joins the parts back with `sep` between them (strings.Join). */
  function Join(parts: seq<string>, sep: string): string
    requires |parts| >= 1
  {
    if |parts| == 1 then parts[0] else parts[0] + sep + Join(parts[1..], sep)
  }

  /** strings.Split for a non-empty separator: cut at each occurrence, left to right. */
  function Split(s: string, sep: string): (parts: seq<string>)
    requires |sep| > 0
    ensures |parts| >= 1
    ensures Join(parts, sep) == s
    ensures forall i :: 0 <= i < |parts| ==> !Contains(parts[i], sep)
    ensures |parts| == 1 <==> !Contains(s, sep)
    // the first cut is at the leftmost occurrence
    ensures |parts| > 1 ==> Index(s, sep) == Some(|parts[0]|)
    decreases |s|
  {
    match Index(s, sep)
    case None => [s]
    case Some(i) =>
      CutAtIndex(s, sep, i);
      var rest := Split(s[i + |sep|..], sep);
      assert ([s[..i]] + rest)[0] == s[..i] && ([s[..i]] + rest)[1..] == rest;
      [s[..i]] + rest
  }

  /** Cutting at the first occurrence leaves a head free of `sep`, and the
      head, `sep` and the tail join back to the input. */
  lemma CutAtIndex(s: string, sep: string, i: nat)
    requires |sep| > 0 && Index(s, sep) == Some(i)
    ensures i + |sep| <= |s| && |s[..i]| == i
    ensures !Contains(s[..i], sep)
    ensures s[..i] + sep + s[i + |sep|..] == s
  {
    assert forall j :: 0 <= j < i ==> !OccursAt(s, sep, j);
    forall j | 0 <= j <= i
      ensures !OccursAt(s[..i], sep, j)
    {
      if j + |sep| <= i {
        assert s[..i][j..j + |sep|] == s[j..j + |sep|];
        assert !OccursAt(s, sep, j);
      }
    }
    assert s[i..i + |sep|] == sep;
    assert s == s[..i] + s[i..i + |sep|] + s[i + |sep|..];
  }

  /** The first character of `sep` does not reappear inside it, so two
      occurrences of `sep` can never overlap. */
  predicate HeadUnique(sep: string) {
    |sep| > 0 && forall t :: 0 < t < |sep| ==> sep[t] != sep[0]
  }

  /** A string in which the first character of `sub` never appears does not contain `sub`. */
  lemma AbsentHead(s: string, sub: string)
    requires |sub| > 0 && forall i :: 0 <= i < |s| ==> s[i] != sub[0]
    ensures !Contains(s, sub)
  {
    forall i | 0 <= i <= |s|
      ensures !OccursAt(s, sub, i)
    {
      if i + |sub| <= |s| {
        assert s[i..i + |sub|][0] == s[i];
      }
    }
  }

  /** The first occurrence of `sep` in `a + sep + b` is the one after `a`
      when `a` does not contain `sep`. */
  lemma IndexAfterFreePrefix(a: string, sep: string, b: string)
    requires HeadUnique(sep) && !Contains(a, sep)
    ensures Index(a + sep + b, sep) == Some(|a|)
  {
    var s := a + sep + b;
    assert OccursAt(s, sep, |a|) by { assert s[|a|..|a| + |sep|] == sep; }
    forall j | 0 <= j < |a|
      ensures !OccursAt(s, sep, j)
    {
      if j + |sep| <= |a| {
        assert s[j..j + |sep|] == a[j..j + |sep|];
        assert !OccursAt(a, sep, j);
      } else if j + |sep| <= |s| {
        // a window at j would cover the first character of the occurrence at |a|
        assert s[j..j + |sep|][|a| - j] == s[|a|] == sep[0];
        assert sep[|a| - j] != sep[0];
      }
    }
  }

  /** Splitting `a + sep + b`, neither side containing `sep`, gives `[a, b]`. */
  lemma SplitOnce(a: string, sep: string, b: string)
    requires HeadUnique(sep) && !Contains(a, sep) && !Contains(b, sep)
    ensures Split(a + sep + b, sep) == [a, b]
  {
    var s := a + sep + b;
    IndexAfterFreePrefix(a, sep, b);
    assert s[..|a|] == a;
    assert s[|a| + |sep|..] == b;
  }

  /** A string with two occurrences of `sep` splits into at least three parts. */
  lemma SplitTwice(a: string, sep: string, b: string, c: string)
    requires |sep| > 0
    ensures |Split(a + sep + b + sep + c, sep)| >= 3
  {
    var s := a + sep + b + sep + c;
    var second := |a| + |sep| + |b|;
    assert OccursAt(s, sep, |a|) by { assert s[|a|..|a| + |sep|] == sep; }
    assert OccursAt(s, sep, second) by { assert s[second..second + |sep|] == sep; }
    assert Contains(s, sep);
    var i := Index(s, sep).value;
    assert i <= |a|;
    var rest := s[i + |sep|..];
    assert OccursAt(rest, sep, second - i - |sep|) by {
      assert rest[second - i - |sep|..second - i] == s[second..second + |sep|];
    }
    assert Contains(rest, sep);
  }

  // ---------------------------------------------------------------------------
  // Case-insensitive comparison (strings.EqualFold)
  // ---------------------------------------------------------------------------

  function ToLowerAscii(c: char): char {
    if 'A' <= c <= 'Z' then (c as int + 32) as char else c
  }

  /** Equality up to ASCII letter case. */
  predicate EqualFoldAscii(a: string, b: string) {
    |a| == |b| && forall i :: 0 <= i < |a| ==> ToLowerAscii(a[i]) == ToLowerAscii(b[i])
  }

  // ---------------------------------------------------------------------------
  // Decimal formatting (fmt's %d)
  // ---------------------------------------------------------------------------

  predicate IsDigit(c: char) {
    '0' <= c <= '9'
  }

  predicate AllDigits(s: string) {
    forall i :: 0 <= i < |s| ==> IsDigit(s[i])
  }

  function DigitChar(d: nat): (c: char)
    requires d < 10
  {
    ('0' as int + d) as char
  }

  /** The decimal digits of `n`, most significant first, without leading zeros. */
  function NatToDecimal(n: nat): (r: string)
    ensures |r| >= 1 && AllDigits(r)
    ensures r[0] == '0' ==> n == 0
    decreases n
  {
    if n < 10 then [DigitChar(n)] else NatToDecimal(n / 10) + [DigitChar(n % 10)]
  }

  /** The number a string of decimal digits denotes. */
  function DecimalValue(s: string): nat
    requires AllDigits(s)
  {
    if |s| == 0 then 0
    else DecimalValue(s[..|s| - 1]) * 10 + (s[|s| - 1] as int - '0' as int)
  }

  lemma {:induction false} DecimalRoundTrip(n: nat)
    ensures DecimalValue(NatToDecimal(n)) == n
    decreases n
  {
    if n >= 10 {
      var s := NatToDecimal(n);
      assert s[..|s| - 1] == NatToDecimal(n / 10);
      DecimalRoundTrip(n / 10);
    }
  }

  /** fmt.Sprintf("%d", n) */
  function FormatInt(n: int): (r: string)
  {
    if n < 0 then "-" + NatToDecimal(-n) else NatToDecimal(n)
  }

  /** The sign is visible in the first character. */
  lemma FormatIntSign(n: int)
    ensures |FormatInt(n)| >= 1
    ensures FormatInt(n)[0] == '-' <==> n < 0
    ensures n < 0 ==> FormatInt(n)[1..] == NatToDecimal(-n)
  {
    var d := NatToDecimal(if n < 0 then -n else n);
    assert IsDigit(d[0]);
  }

  lemma NatToDecimalInjective(a: nat, b: nat)
    requires NatToDecimal(a) == NatToDecimal(b)
    ensures a == b
  {
    DecimalRoundTrip(a);
    DecimalRoundTrip(b);
  }

  /** Different integers print differently. */
  lemma FormatIntInjective(m: int, n: int)
    ensures FormatInt(m) == FormatInt(n) <==> m == n
  {
    FormatIntSign(m);
    FormatIntSign(n);
    var fm, fn := FormatInt(m), FormatInt(n);
    if fm == fn {
      if m < 0 {
        assert fm[1..] == fn[1..];
        NatToDecimalInjective(-m, -n);
      } else {
        NatToDecimalInjective(m, n);
      }
    }
  }
}

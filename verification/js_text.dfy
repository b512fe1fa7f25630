/**
  The small part of JavaScript's string semantics the notifier relies on:
  truthiness of optional strings, `Number.prototype.toString` on
  non-negative integers, `String.prototype.padStart` and
  `String.prototype.trim`.
 */
module JsText {
  import opened Wrappers

  /** JavaScript truthiness of a possibly-undefined string: `undefined` and `""` are falsy. */
  function Truthy(s: Option<string>): (b: bool)
    ensures b ==> s.Some? && |s.value| > 0
    ensures s == None || s == Some("") ==> !b
  {
    s.Some? && s.value != ""
  }

  // ---------------------------------------------------------------------
  // Decimal digits
  // ---------------------------------------------------------------------

  predicate IsDigit(c: char) {
    '0' <= c <= '9'
  }

  predicate AllDigits(s: string) {
    forall i :: 0 <= i < |s| ==> IsDigit(s[i])
  }

  function DigitChar(d: nat): (c: char)
    requires d < 10
    ensures IsDigit(c) && DigitValue(c) == d
  {
    ('0' as int + d) as char
  }

  function DigitValue(c: char): (d: nat)
    requires IsDigit(c)
    ensures d < 10
  {
    c as int - '0' as int
  }

  /** The decimal text `n.toString()` produces for a non-negative integer `n`. */
  function NatToString(n: nat): (s: string)
    ensures |s| >= 1 && AllDigits(s)
    ensures s[0] == '0' ==> n == 0 && |s| == 1
    decreases n
  {
    if n < 10 then [DigitChar(n)] else NatToString(n / 10) + [DigitChar(n % 10)]
  }

  /** The value of a string of decimal digits, most significant first. */
  function ParseDigits(s: string): nat
    requires AllDigits(s)
  {
    if |s| == 0 then 0 else ParseDigits(s[..|s| - 1]) * 10 + DigitValue(s[|s| - 1])
  }

  /** Reading the decimal text of `n` back gives `n`. */
  lemma {:induction false} ParseNatToString(n: nat)
    ensures ParseDigits(NatToString(n)) == n
    decreases n
  {
    if n >= 10 {
      var prefix := NatToString(n / 10);
      var s := prefix + [DigitChar(n % 10)];
      assert s[..|s| - 1] == prefix;
      ParseNatToString(n / 10);
    }
  }

  // ---------------------------------------------------------------------
  // Concatenation
  // ---------------------------------------------------------------------

  /** The three parts of `a + b + c` sit at their offsets. */
  lemma ConcatParts(a: string, b: string, c: string)
    ensures var t := a + b + c;
      && |t| == |a| + |b| + |c|
      && t[..|a|] == a
      && t[|a|..|a| + |b|] == b
      && t[|a| + |b|..] == c
  {
    var t := a + b + c;
    assert t == a + (b + c);
    assert t[|a|..] == b + c;
  }

  // ---------------------------------------------------------------------
  // padStart
  // ---------------------------------------------------------------------

  /** `k` copies of `c`. */
  function Repeat(c: char, k: nat): (r: string)
    ensures |r| == k
    ensures forall i :: 0 <= i < k ==> r[i] == c
  {
    if k == 0 then [] else [c] + Repeat(c, k - 1)
  }

  /** `s.padStart(targetLength, fill)` for a one-character fill string. */
  function PadStart(s: string, targetLength: nat, fill: char): (r: string)
    ensures |r| == if |s| >= targetLength then |s| else targetLength
    ensures r[|r| - |s|..] == s
    ensures forall i :: 0 <= i < |r| - |s| ==> r[i] == fill
  {
    if |s| >= targetLength then s else Repeat(fill, targetLength - |s|) + s
  }

  // ---------------------------------------------------------------------
  // trim
  // ---------------------------------------------------------------------

  /**
    The characters `String.prototype.trim` removes: ECMAScript's WhiteSpace
    (tab, vertical tab, form feed, no-break space, byte order mark and the
    Unicode space separators) and LineTerminator (LF, CR, LS, PS).
   */
  function IsJsWhitespace(c: char): (b: bool)
    ensures c == ' ' || c == '\t' || c == '\n' || c == '\r' ==> b
    ensures b ==> !IsDigit(c) && c != ':'
  {
    var k := c as int;
    || k == 0x09 || k == 0x0A || k == 0x0B || k == 0x0C || k == 0x0D
    || k == 0x20 || k == 0xA0 || k == 0x1680
    || (0x2000 <= k <= 0x200A)
    || k == 0x2028 || k == 0x2029 || k == 0x202F || k == 0x205F
    || k == 0x3000 || k == 0xFEFF
  }

  predicate AllWhitespace(s: string) {
    forall i :: 0 <= i < |s| ==> IsJsWhitespace(s[i])
  }

  /** Length of the longest whitespace prefix of `s`. */
  function LeadingWhitespace(s: string): (k: nat)
    ensures k <= |s|
    ensures AllWhitespace(s[..k])
    ensures k < |s| ==> !IsJsWhitespace(s[k])
  {
    if |s| > 0 && IsJsWhitespace(s[0]) then
      var k' := LeadingWhitespace(s[1..]);
      assert s[..k' + 1] == [s[0]] + s[1..][..k'];
      k' + 1
    else 0
  }

  /** Length of the longest whitespace suffix of `s`. */
  function TrailingWhitespace(s: string): (k: nat)
    ensures k <= |s|
    ensures AllWhitespace(s[|s| - k..])
    ensures k < |s| ==> !IsJsWhitespace(s[|s| - k - 1])
  {
    if |s| > 0 && IsJsWhitespace(s[|s| - 1]) then
      var k' := TrailingWhitespace(s[..|s| - 1]);
      WhitespaceSuffixGrows(s, k');
      k' + 1
    else 0
  }

  /** A whitespace suffix of `s` minus its last character, extended by a whitespace last character. */
  lemma WhitespaceSuffixGrows(s: string, k: nat)
    requires |s| > 0 && IsJsWhitespace(s[|s| - 1])
    requires k <= |s| - 1 && AllWhitespace(s[..|s| - 1][|s| - 1 - k..])
    ensures AllWhitespace(s[|s| - (k + 1)..])
  {
    var front := s[..|s| - 1];
    assert s[|s| - (k + 1)..] == front[|front| - k..] + [s[|s| - 1]];
  }

  /** `s.trim()`: `s` without its leading and trailing whitespace. */
  function Trim(s: string): (r: string)
    ensures |r| == 0 || (!IsJsWhitespace(r[0]) && !IsJsWhitespace(r[|r| - 1]))
    ensures LeadingWhitespace(s) + |r| <= |s|
    ensures s == s[..LeadingWhitespace(s)] + r + s[LeadingWhitespace(s) + |r|..]
    ensures AllWhitespace(s[LeadingWhitespace(s) + |r|..])
  {
    var i := LeadingWhitespace(s);
    var rest := s[i..];
    var j := TrailingWhitespace(rest);
    TrimPieces(s, i, rest, j);
    rest[..|rest| - j]
  }

  /** The three pieces `Trim` cuts `s` into, given the whitespace counts at both ends. */
  lemma TrimPieces(s: string, i: nat, rest: string, j: nat)
    requires i <= |s| && rest == s[i..] && j <= |rest|
    requires i < |s| ==> !IsJsWhitespace(s[i])
    requires AllWhitespace(rest[|rest| - j..])
    requires j < |rest| ==> !IsJsWhitespace(rest[|rest| - j - 1])
    ensures var r := rest[..|rest| - j];
      && s == s[..i] + r + s[i + |r|..]
      && AllWhitespace(s[i + |r|..])
      && (|r| == 0 || (!IsJsWhitespace(r[0]) && !IsJsWhitespace(r[|r| - 1])))
  {
    var r := rest[..|rest| - j];
    assert s[i + |r|..] == rest[|rest| - j..];
    assert rest == r + rest[|rest| - j..];
    if |r| > 0 {
      assert r[0] == s[i];
      assert r[|r| - 1] == rest[|rest| - j - 1];
    }
  }

  /** The whitespace prefix of `w + t` is `w` when `t` does not start with whitespace. */
  lemma {:induction false} LeadingWhitespaceOfPrefix(w: string, t: string)
    requires AllWhitespace(w)
    requires |t| == 0 || !IsJsWhitespace(t[0])
    ensures LeadingWhitespace(w + t) == |w|
    decreases |w|
  {
    if |w| > 0 {
      assert (w + t)[1..] == w[1..] + t;
      LeadingWhitespaceOfPrefix(w[1..], t);
    }
  }

  /** The whitespace suffix of `t + w` is `w` when `t` does not end with whitespace. */
  lemma {:induction false} TrailingWhitespaceOfSuffix(t: string, w: string)
    requires AllWhitespace(w)
    requires |t| == 0 || !IsJsWhitespace(t[|t| - 1])
    ensures TrailingWhitespace(t + w) == |w|
    decreases |w|
  {
    if |w| > 0 {
      var s := t + w;
      assert s[..|s| - 1] == t + w[..|w| - 1];
      TrailingWhitespaceOfSuffix(t, w[..|w| - 1]);
    }
  }

  /**
    Characterisation of `trim`: surrounding a text that neither starts nor
    ends with whitespace by whitespace on both sides, `trim` recovers it.
   */
  lemma TrimSurrounded(lead: string, core: string, trail: string)
    requires AllWhitespace(lead) && AllWhitespace(trail)
    requires |core| > 0 && !IsJsWhitespace(core[0]) && !IsJsWhitespace(core[|core| - 1])
    ensures Trim(lead + core + trail) == core
  {
    var s := lead + core + trail;
    LeadingWhitespaceOfPrefix(lead, core + trail);
    assert s == lead + (core + trail);
    assert s[|lead|..] == core + trail;
    TrailingWhitespaceOfSuffix(core, trail);
  }

  /** Trimming twice is trimming once. */
  lemma TrimIdempotent(s: string)
    ensures Trim(Trim(s)) == Trim(s)
  {
    var r := Trim(s);
    if |r| > 0 {
      assert r == [] + r + [];
      TrimSurrounded([], r, []);
    }
  }
}

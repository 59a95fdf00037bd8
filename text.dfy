/** String helpers standing for the JavaScript string built-ins the source uses. */
module Text {

  /** The characters `String.prototype.trim` removes that the model knows about. */
  predicate IsWhitespace(c: char) {
    c == ' ' || c == '\t' || c == '\n' || c == '\r' || c == '\U{0B}' || c == '\U{0C}'
    || c == '\U{A0}' || c == '\U{FEFF}'
  }

  function TrimStart(s: string): (r: string)
    ensures |r| <= |s|
    ensures r == [] || !IsWhitespace(r[0])
  {
    if s != [] && IsWhitespace(s[0]) then TrimStart(s[1..]) else s
  }

  function TrimEnd(s: string): (r: string)
    ensures |r| <= |s|
    ensures r == [] || !IsWhitespace(r[|r| - 1])
  {
    if s != [] && IsWhitespace(s[|s| - 1]) then TrimEnd(s[..|s| - 1]) else s
  }

  /** `TrimEnd` keeps a prefix of its argument. */
  lemma {:induction false} TrimEndIsPrefix(s: string)
    ensures TrimEnd(s) == s[..|TrimEnd(s)|]
  {
    if s != [] && IsWhitespace(s[|s| - 1]) {
      TrimEndIsPrefix(s[..|s| - 1]);
    }
  }

  /** `TrimStart` removes a prefix made only of whitespace. */
  lemma {:induction false} TrimStartRemovesWhitespace(s: string)
    ensures TrimStart(s) == s[|s| - |TrimStart(s)|..]
    ensures forall i :: 0 <= i < |s| - |TrimStart(s)| ==> IsWhitespace(s[i])
  {
    if s != [] && IsWhitespace(s[0]) {
      TrimStartRemovesWhitespace(s[1..]);
    }
  }

  /** `TrimEnd` removes a suffix made only of whitespace. */
  lemma {:induction false} TrimEndRemovesWhitespace(s: string)
    ensures forall i :: |TrimEnd(s)| <= i < |s| ==> IsWhitespace(s[i])
  {
    if s != [] && IsWhitespace(s[|s| - 1]) {
      TrimEndRemovesWhitespace(s[..|s| - 1]);
      assert forall i :: 0 <= i < |s| - 1 ==> s[..|s| - 1][i] == s[i];
    }
  }

  /** `s.trim()`: neither leading nor trailing whitespace is left. */
  function Trim(s: string): (r: string)
    ensures |r| <= |s|
    ensures r == [] || !IsWhitespace(r[0])
    ensures r == [] || !IsWhitespace(r[|r| - 1])
  {
    TrimEndIsPrefix(TrimStart(s));
    TrimEnd(TrimStart(s))
  }

  /**
   * `s.trim()` is a middle slice of `s`: everything cut away before and
   * after it is whitespace.
   */
  lemma TrimIsMiddleSlice(s: string)
    ensures exists a, b ::
      && 0 <= a <= b <= |s| && Trim(s) == s[a..b]
      && (forall i :: 0 <= i < a ==> IsWhitespace(s[i]))
      && (forall i :: b <= i < |s| ==> IsWhitespace(s[i]))
  {
    var t := TrimStart(s);
    var a := |s| - |t|;
    var b := a + |Trim(s)|;
    TrimStartRemovesWhitespace(s);
    TrimEndRemovesWhitespace(t);
    TrimEndIsPrefix(t);
    assert Trim(s) == t[..|Trim(s)|] == s[a..b];
    assert forall i :: b <= i < |s| ==> s[i] == t[i - a];
  }

  /** `!s.trim()`: the string is empty once trimmed. */
  predicate IsBlank(s: string) {
    Trim(s) == []
  }

  /** A string is blank exactly when every one of its characters is whitespace. */
  lemma BlankIffAllWhitespace(s: string)
    ensures IsBlank(s) <==> forall i :: 0 <= i < |s| ==> IsWhitespace(s[i])
  {
    var t := TrimStart(s);
    TrimStartRemovesWhitespace(s);
    assert t != [] ==> t[0] == s[|s| - |t|];
    if t != [] {
      assert TrimEnd(t) != [] by {
        if TrimEnd(t) == [] { TrimEndEmpty(t); }
      }
    }
  }

  /** `TrimEnd` only empties a string that is all whitespace, so never one that starts with a non-space. */
  lemma {:induction false} TrimEndEmpty(s: string)
    requires TrimEnd(s) == []
    ensures forall i :: 0 <= i < |s| ==> IsWhitespace(s[i])
  {
    if s != [] {
      TrimEndEmpty(s[..|s| - 1]);
      assert forall i :: 0 <= i < |s| - 1 ==> s[..|s| - 1][i] == s[i];
    }
  }

  /** `s.includes(sub)`. */
  predicate Contains(s: string, sub: string)
    decreases |s|
  {
    sub <= s || (s != [] && Contains(s[1..], sub))
  }

  /** `s.includes(sub)` holds exactly when `sub` occurs at some position of `s`. */
  lemma {:induction false} ContainsIff(s: string, sub: string)
    ensures Contains(s, sub) <==> exists i :: 0 <= i <= |s| - |sub| && sub <= s[i..]
    decreases |s|
  {
    if sub <= s {
      assert sub <= s[0..];
    } else if s != [] {
      ContainsIff(s[1..], sub);
      if Contains(s[1..], sub) {
        var i :| 0 <= i <= |s[1..]| - |sub| && sub <= s[1..][i..];
        assert s[1..][i..] == s[i + 1..];
      }
      if exists i :: 0 <= i <= |s| - |sub| && sub <= s[i..] {
        var i :| 0 <= i <= |s| - |sub| && sub <= s[i..];
        assert i != 0;
        assert s[1..][i - 1..] == s[i..];
      }
    }
  }

  /** `s.startsWith(prefix)`. */
  predicate StartsWith(s: string, prefix: string) {
    prefix <= s
  }

  function LowerChar(c: char): char {
    if 'A' <= c <= 'Z' then (c as int + 32) as char else c
  }

  /** `s.toLowerCase()` on the ASCII letters (addresses are hexadecimal). */
  function ToLower(s: string): (r: string)
    ensures |r| == |s|
    ensures forall i :: 0 <= i < |s| ==> r[i] == LowerChar(s[i])
  {
    seq(|s|, i requires 0 <= i < |s| => LowerChar(s[i]))
  }

  /** `s.slice(-k)`: the last `k` characters, except that `-0` is `0` and keeps all of `s`. */
  function SliceFromEnd(s: string, k: nat): (r: string)
    requires k <= |s|
    ensures k > 0 ==> |r| == k && r == s[|s| - k..]
    ensures k == 0 ==> r == s
  {
    if k == 0 then s else s[|s| - k..]
  }

  /** Lower-casing twice is lower-casing once. */
  lemma ToLowerIdempotent(s: string)
    ensures ToLower(ToLower(s)) == ToLower(s)
  {
    assert forall c :: LowerChar(LowerChar(c)) == LowerChar(c);
  }

  /**
   * The shared shape of every `truncate*` helper of the user interface:
   * a string of at most `keepStart + keepEnd` characters is returned as it is,
   * a longer one is shown as its first `keepStart` characters, "..." and its
   * last `keepEnd` characters (all of it again when `keepEnd` is zero).
   */
  function Elide(s: string, keepStart: nat, keepEnd: nat): (r: string)
    ensures |s| <= keepStart + keepEnd ==> r == s
    ensures |s| > keepStart + keepEnd && keepEnd > 0 ==>
      && |r| == keepStart + 3 + keepEnd
      && r[..keepStart] == s[..keepStart]
      && r[keepStart..keepStart + 3] == "..."
      && r[keepStart + 3..] == s[|s| - keepEnd..]
    ensures |s| > keepStart + keepEnd && keepEnd == 0 ==>
      r == s[..keepStart] + "..." + s
  {
    if |s| <= keepStart + keepEnd then s
    else s[..keepStart] + "..." + SliceFromEnd(s, keepEnd)
  }

  /** Truncating an already truncated string changes nothing, as long as some end is kept. */
  lemma ElideIdempotent(s: string, keepStart: nat, keepEnd: nat)
    requires keepEnd > 0
    ensures Elide(Elide(s, keepStart, keepEnd), keepStart, keepEnd) == Elide(s, keepStart, keepEnd)
  {
    var r := Elide(s, keepStart, keepEnd);
    if |s| > keepStart + keepEnd {
      var rr := Elide(r, keepStart, keepEnd);
      assert rr[..keepStart] == r[..keepStart];
      assert rr[keepStart + 3..] == r[|r| - keepEnd..] == r[keepStart + 3..];
      assert rr == rr[..keepStart] + rr[keepStart..keepStart + 3] + rr[keepStart + 3..];
      assert r == r[..keepStart] + r[keepStart..keepStart + 3] + r[keepStart + 3..];
    }
  }

  predicate IsDigitChar(c: char) {
    '0' <= c <= '9'
  }

  function DigitChar(d: nat): (c: char)
    requires d < 10
    ensures IsDigitChar(c) && c as int - '0' as int == d
  {
    ('0' as int + d) as char
  }

  /** The number a string of decimal digits denotes, most significant digit first. */
  function DigitsValue(s: string): int
    requires forall i :: 0 <= i < |s| ==> IsDigitChar(s[i])
  {
    if s == [] then 0
    else DigitsValue(s[..|s| - 1]) * 10 + (s[|s| - 1] as int - '0' as int)
  }

  /**
   * The decimal rendering of a number, as a template literal prints it:
   * digits only, denoting `n`, and without a leading zero unless `n` is zero.
   */
  function NatToString(n: nat): (r: string)
    ensures |r| >= 1
    ensures forall i :: 0 <= i < |r| ==> IsDigitChar(r[i])
    ensures DigitsValue(r) == n
    ensures r[0] == '0' ==> n == 0
  {
    if n < 10 then [DigitChar(n)]
    else
      var p := NatToString(n / 10);
      assert (p + [DigitChar(n % 10)])[..|p|] == p;
      p + [DigitChar(n % 10)]
  }
}

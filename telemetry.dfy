/**
 * The telemetry decoder: the count rate is the digit run of the first `Cnts:<digits>!` in a
 * frame of text, as the regular expression `/Cnts:(\d+)!/` finds it; a frame without one is
 * dropped.
 */
module Telemetry {
  import opened Wrappers
  import opened Digits

  const Tag: string := "Cnts:"

  /** The length of the longest run of digits in `s` that starts at `i`. */
  function DigitRun(s: string, i: nat): (n: nat)
    requires i <= |s|
    ensures i + n <= |s| && AllDigits(s[i..i + n])
    ensures i + n == |s| || !IsDigit(s[i + n])
    decreases |s| - i
  {
    if i < |s| && IsDigit(s[i]) then
      var n := DigitRun(s, i + 1);
      assert s[i..i + 1 + n] == [s[i]] + s[i + 1..i + 1 + n];
      1 + n
    else 0
  }

  /**
   * The count the pattern matches at position `p`, if it matches there. Since `!` is not a
   * digit, the greedy `\d+` followed by `!` matches exactly when the longest digit run after the
   * tag is non-empty and is followed by `!`.
   */
  function MatchAt(s: string, p: nat): Option<nat>
    requires p <= |s|
  {
    if p + |Tag| <= |s| && s[p..p + |Tag|] == Tag then
      var start := p + |Tag|;
      var n := DigitRun(s, start);
      if 0 < n && start + n < |s| && s[start + n] == '!' then Some(Value(s[start..start + n]))
      else None
    else None
  }

  /** The leftmost position at or after `p` where the pattern matches. */
  function FirstMatch(s: string, p: nat): (r: Option<nat>)
    requires p <= |s|
    ensures r.Some? ==> p <= r.value <= |s| && MatchAt(s, r.value).Some?
    ensures r.Some? ==> forall k :: p <= k < r.value ==> MatchAt(s, k).None?
    ensures r.None? ==> forall k :: p <= k <= |s| ==> MatchAt(s, k).None?
    decreases |s| - p
  {
    if MatchAt(s, p).Some? then Some(p)
    else if p == |s| then None
    else FirstMatch(s, p + 1)
  }

  /** Decodes one frame: the count of the leftmost match, or None when nothing matches. */
  function Decode(frame: string): (r: Option<nat>)
    ensures r.None? <==> forall p :: 0 <= p <= |frame| ==> MatchAt(frame, p).None?
    ensures r.Some? ==> exists p :: 0 <= p <= |frame| && MatchAt(frame, p) == r &&
                                    forall k :: 0 <= k < p ==> MatchAt(frame, k).None?
  {
    match FirstMatch(frame, 0)
    case Some(p) => MatchAt(frame, p)
    case None => None
  }

  /** The frame a device sends for count `n`. */
  function Frame(n: nat): string {
    Tag + Render(n) + "!"
  }

  lemma {:induction false} DigitRunOfRender(s: string, i: nat, digits: string)
    requires i + |digits| < |s| && s[i..i + |digits|] == digits
    requires AllDigits(digits) && !IsDigit(s[i + |digits|])
    ensures DigitRun(s, i) == |digits|
    decreases |digits|
  {
    if digits != [] {
      assert s[i] == digits[0];
      assert s[i + 1..i + 1 + |digits[1..]|] == digits[1..];
      DigitRunOfRender(s, i + 1, digits[1..]);
    }
  }

  /** A frame followed by anything decodes to the count it carries. */
  lemma DecodeFrame(n: nat, rest: string)
    ensures Decode(Frame(n) + rest) == Some(n)
  {
    var s := Frame(n) + rest;
    var digits := Render(n);
    assert s[..|Tag|] == Tag;
    assert s[|Tag|..|Tag| + |digits|] == digits;
    assert s[|Tag| + |digits|] == '!';
    DigitRunOfRender(s, |Tag|, digits);
    ValueOfRender(n);
    assert MatchAt(s, 0) == Some(n);
  }
}

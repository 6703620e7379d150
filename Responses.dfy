/**
 * Response matchers. A matcher looks at every byte received since its
 * request was dispatched and decides: not yet (Incomplete), a malformed
 * reply (Invalid), or a parsed value (Matched). The JavaScript handlers
 * return `undefined`, an Error or a value respectively.
 */
module Responses {
  import opened Frames

  /** What a matched reply resolves its request with. */
  datatype Value =
    | Acknowledged            // the empty object of the plain ACK handler
    | Number(n: int)          // 1 or 0 from the readiness probe handler
    | Pixel(color: uint16)    // `{color}` from the getPixel handler

  datatype MatchResult = Incomplete | Invalid(message: string) | Matched(value: Value)

  /** The response handlers the core installs. */
  datatype Matcher =
    | AckMatcher      // handleAckResponse
    | ProbeMatcher    // the handler of the readiness probe in checkReadiness
    | ResetMatcher    // `() => {}` in reset
    | PixelMatcher    // the handler of getPixel

  const ACK_EXPECTED: string := "Invalid response. Expected ACK (0x06)."
  const ACK_COLOR_EXPECTED: string := "Invalid response. Expected ACK (0x06) + color."

  /** handleAckResponse: decides every frame; only a lone ACK succeeds. */
  function AckMatch(frame: seq<byte>): (r: MatchResult)
    ensures r.Matched? <==> frame == [ACK]
    ensures r.Matched? ==> r.value == Acknowledged
    ensures r.Invalid? <==> frame != [ACK]
    ensures r.Invalid? ==> r.message == ACK_EXPECTED
  {
    if |frame| != 1 || frame[0] != ACK then Invalid(ACK_EXPECTED) else Matched(Acknowledged)
  }

  /** The readiness probe handler: lone ACK is 1, lone NAK is 0, anything else waits. */
  function ProbeMatch(frame: seq<byte>): (r: MatchResult)
    ensures r == Matched(Number(1)) <==> frame == [ACK]
    ensures r == Matched(Number(0)) <==> frame == [NAK]
    ensures r.Incomplete? <==> frame != [ACK] && frame != [NAK]
    ensures !r.Invalid?
  {
    if |frame| == 1 && frame[0] == ACK then Matched(Number(1))
    else if |frame| == 1 && frame[0] == NAK then Matched(Number(0))
    else Incomplete
  }

  /** The getPixel handler: waits for three bytes, then wants ACK and a big-endian colour. */
  function PixelMatch(frame: seq<byte>): (r: MatchResult)
    ensures r.Incomplete? <==> |frame| < 3
    ensures r.Matched? <==> |frame| == 3 && frame[0] == ACK
    ensures r.Matched? ==> r.value == Pixel(ReadUint16BE(frame, 1))
    ensures r.Invalid? ==> r.message == ACK_COLOR_EXPECTED
  {
    if |frame| < 3 then Incomplete
    else if |frame| != 3 || frame[0] != ACK then Invalid(ACK_COLOR_EXPECTED)
    else Matched(Pixel(ReadUint16BE(frame, 1)))
  }

  /** Runs the handler of kind `m` on the accumulated frame. */
  function Match(m: Matcher, frame: seq<byte>): (r: MatchResult)
    ensures m == ResetMatcher ==> r == Incomplete
    ensures m == ProbeMatcher ==> !r.Invalid?
    ensures m == AckMatcher ==> !r.Incomplete?
  {
    match m
    case AckMatcher => AckMatch(frame)
    case ProbeMatcher => ProbeMatch(frame)
    case ResetMatcher => Incomplete
    case PixelMatcher => PixelMatch(frame)
  }

  /** The reply the module sends for a pixel of colour `color` parses to that colour. */
  lemma PixelReplyRoundTrip(color: uint16)
    ensures PixelMatch([ACK] + Uint16BE(color)) == Matched(Pixel(color))
  {
    var reply := [ACK] + Uint16BE(color);
    Uint16BERoundTrip(color);
    assert reply[1..3] == Uint16BE(color);
  }

  /** Every proper prefix of a pixel reply leaves the getPixel handler waiting. */
  lemma PixelReplyPrefixWaits(color: uint16, k: nat)
    requires k < 3
    ensures PixelMatch(([ACK] + Uint16BE(color))[..k]) == Incomplete
  {
  }
}

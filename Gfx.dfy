/**
 * The graphics commands of lib/commands/gfx.js that are implemented. Each
 * builds one requestWithWords frame; all but getPixel expect a plain ACK.
 */
module Gfx {
  import opened Frames
  import opened Responses
  import opened Commands

  function BgColor(color: int): (r: Result<Command>)
    ensures Encodes(r, 0xFF6E, [color], AckMatcher)
  {
    WordsCommand(0xFF6E, [color], None)
  }

  function Circle(x: int, y: int, radius: int, color: int): (r: Result<Command>)
    ensures Encodes(r, 0xFFCD, [x, y, radius, color], AckMatcher)
  {
    WordsCommand(0xFFCD, [x, y, radius, color], None)
  }

  function CircleFilled(x: int, y: int, radius: int, color: int): (r: Result<Command>)
    ensures Encodes(r, 0xFFCC, [x, y, radius, color], AckMatcher)
  {
    WordsCommand(0xFFCC, [x, y, radius, color], None)
  }

  /** Clear screen: the bare command word, no parameters. */
  function Cls(): (r: Result<Command>)
    ensures r == Ok(Command([0xFF, 0xD7], AckMatcher))
  {
    var r := WordsCommand(0xFFD7, [], None);
    assert AllUint16([0xFFD7]);
    WordsBEDecode(r.value.frame);
    assert WordsBE([0xFFD7]) == [0xFF, 0xD7];
    r
  }

  /** Read one pixel; the reply is ACK followed by the colour. */
  function GetPixel(x: int, y: int): (r: Result<Command>)
    ensures Encodes(r, 0xFFCA, [x, y], PixelMatcher)
  {
    WordsCommand(0xFFCA, [x, y], Some(PixelMatcher))
  }

  function Line(x1: int, y1: int, x2: int, y2: int, color: int): (r: Result<Command>)
    ensures Encodes(r, 0xFFD2, [x1, y1, x2, y2, color], AckMatcher)
  {
    WordsCommand(0xFFD2, [x1, y1, x2, y2, color], None)
  }

  function MoveTo(x: int, y: int): (r: Result<Command>)
    ensures Encodes(r, 0xFFD6, [x, y], AckMatcher)
  {
    WordsCommand(0xFFD6, [x, y], None)
  }

  function Rectangle(x1: int, y1: int, x2: int, y2: int, color: int): (r: Result<Command>)
    ensures Encodes(r, 0xFFCF, [x1, y1, x2, y2, color], AckMatcher)
  {
    WordsCommand(0xFFCF, [x1, y1, x2, y2, color], None)
  }

  function RectangleFilled(x1: int, y1: int, x2: int, y2: int, color: int): (r: Result<Command>)
    ensures Encodes(r, 0xFFCE, [x1, y1, x2, y2, color], AckMatcher)
  {
    WordsCommand(0xFFCE, [x1, y1, x2, y2, color], None)
  }

  function Triangle(x1: int, y1: int, x2: int, y2: int, x3: int, y3: int, color: int): (r: Result<Command>)
    ensures Encodes(r, 0xFFC9, [x1, y1, x2, y2, x3, y3, color], AckMatcher)
  {
    WordsCommand(0xFFC9, [x1, y1, x2, y2, x3, y3, color], None)
  }

  /**
   * A pixel request for in-range coordinates, answered with the colour's
   * reply, resolves with that colour.
   */
  lemma GetPixelAnswered(x: uint16, y: uint16, color: uint16)
    ensures GetPixel(x, y).Ok?
    ensures Match(GetPixel(x, y).value.matcher, [ACK] + Uint16BE(color)) == Matched(Pixel(color))
  {
    assert AllUint16([x, y]);
    PixelReplyRoundTrip(color);
  }
}

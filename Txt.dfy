/**
 * The text commands of lib/commands/txt.js that are implemented.
 */
module Txt {
  import opened Frames
  import opened Responses
  import opened Commands

  const BOLD: bv8 := 16
  const ITALIC: bv8 := 32
  const INVERSE: bv8 := 64
  const UNDERLINED: bv8 := 128

  /**
   * The attribute word as a sum of the flags' weights: a reference
   * definition independent of the bitwise build-up in Attributes. Each flag
   * owns one bit of the high nibble of the low byte; the low nibble stays
   * clear.
   */
  function AttributeWord(bold: bool, italic: bool, inverse: bool, underlined: bool): (w: int)
    ensures 0 <= w <= 240 && w % 16 == 0
    ensures (w / 16) % 2 == 1 <==> bold
    ensures (w / 32) % 2 == 1 <==> italic
    ensures (w / 64) % 2 == 1 <==> inverse
    ensures (w / 128) % 2 == 1 <==> underlined
  {
    (if bold then 16 else 0) + (if italic then 32 else 0)
    + (if inverse then 64 else 0) + (if underlined then 128 else 0)
  }

  /** Different flag combinations give different words. */
  lemma AttributeWordInjective(b: bool, i: bool, v: bool, u: bool, b': bool, i': bool, v': bool, u': bool)
    requires AttributeWord(b, i, v, u) == AttributeWord(b', i', v', u')
    ensures b == b' && i == i' && v == v' && u == u'
  {
  }

  /**
   * attributes: ORs one bit per style flag into the word sent after
   * command 0xFF72.
   */
  method Attributes(bold: bool, italic: bool, inverse: bool, underlined: bool)
    returns (r: Result<Command>)
    ensures r.Ok? && r.value.matcher == AckMatcher && |r.value.frame| == 4
    ensures DecodeWords(r.value.frame) == [0xFF72, AttributeWord(bold, italic, inverse, underlined)]
  {
    var attrs: bv8 := 0;
    if bold {
      attrs := attrs | BOLD;
    }
    if italic {
      attrs := attrs | ITALIC;
    }
    if inverse {
      attrs := attrs | INVERSE;
    }
    if underlined {
      attrs := attrs | UNDERLINED;
    }
    assert attrs as int == AttributeWord(bold, italic, inverse, underlined);
    r := WordsCommand(0xFF72, [attrs as int], None);
  }

  function BgColor(color: int): (r: Result<Command>)
    ensures Encodes(r, 0xFF7E, [color], AckMatcher)
  {
    WordsCommand(0xFF7E, [color], None)
  }

  function FgColor(color: int): (r: Result<Command>)
    ensures Encodes(r, 0xFF7F, [color], AckMatcher)
  {
    WordsCommand(0xFF7F, [color], None)
  }

  function Height(multiplier: int): (r: Result<Command>)
    ensures Encodes(r, 0xFF7B, [multiplier], AckMatcher)
  {
    WordsCommand(0xFF7B, [multiplier], None)
  }

  function MoveCursor(line: int, column: int): (r: Result<Command>)
    ensures Encodes(r, 0xFFE4, [line, column], AckMatcher)
  {
    WordsCommand(0xFFE4, [line, column], None)
  }

  /** opacity: word 1 for opaque, 0 for transparent; never out of range. */
  function Opacity(isOpaque: bool): (r: Result<Command>)
    ensures r.Ok?
    ensures Encodes(r, 0xFF77, [if isOpaque then 1 else 0], AckMatcher)
  {
    WordsCommand(0xFF77, [if isOpaque then 1 else 0], None)
  }

  function Set(func: int, value: int): (r: Result<Command>)
    ensures Encodes(r, 0xFFE3, [func, value], AckMatcher)
  {
    WordsCommand(0xFFE3, [func, value], None)
  }

  function Width(multiplier: int): (r: Result<Command>)
    ensures Encodes(r, 0xFF7C, [multiplier], AckMatcher)
  {
    WordsCommand(0xFF7C, [multiplier], None)
  }
}

/**
 * The frame layout of requestWithWords: a 16-bit command followed by 16-bit
 * parameter words, all big-endian, paired with the matcher for the reply.
 */
module Commands {
  import opened Frames
  import opened Responses

  /** A request frame ready to be submitted and the handler for its reply. */
  datatype Command = Command(frame: seq<byte>, matcher: Matcher)

  /** Buffer.writeUInt16BE throws on a value outside 0..0xFFFF: `Err` names that value. */
  datatype Result<+T> = Ok(value: T) | Err(outOfRange: int)

  predicate AllUint16(values: seq<int>) {
    forall i :: 0 <= i < |values| ==> IsUint16(values[i])
  }

  function AsWords(values: seq<int>): (r: seq<uint16>)
    requires AllUint16(values)
    ensures |r| == |values| && forall i :: 0 <= i < |values| ==> r[i] == values[i]
  {
    seq(|values|, i requires 0 <= i < |values| => values[i] as uint16)
  }

  /** The first value that writeUInt16BE refuses, in writing order. */
  function FirstOutOfRange(values: seq<int>): (v: int)
    requires !AllUint16(values)
    ensures exists i :: 0 <= i < |values| && values[i] == v && AllUint16(values[..i])
    ensures !IsUint16(v)
  {
    if !IsUint16(values[0]) then
      assert AllUint16(values[..0]);
      values[0]
    else
      var v := FirstOutOfRange(values[1..]);
      var i :| 0 <= i < |values[1..]| && values[1..][i] == v && AllUint16(values[1..][..i]);
      assert values[..i + 1] == [values[0]] + values[1..][..i];
      v
  }

  /** The value refused is the one at the first index out of range, whatever follows it. */
  lemma {:induction false} FirstOutOfRangeAt(values: seq<int>, i: nat)
    requires i < |values| && AllUint16(values[..i]) && !IsUint16(values[i])
    ensures !AllUint16(values) && FirstOutOfRange(values) == values[i]
  {
    if i > 0 {
      assert IsUint16(values[..i][0]);
      assert values[1..][..i - 1] == values[..i][1..];
      FirstOutOfRangeAt(values[1..], i - 1);
    }
  }

  /** Writing one more in-range value appends its two bytes to the layout. */
  lemma LayoutSnoc(values: seq<int>, v: int)
    requires AllUint16(values) && IsUint16(v)
    ensures AllUint16(values + [v])
    ensures WordsBE(AsWords(values + [v])) == WordsBE(AsWords(values)) + Uint16BE(v as uint16)
  {
    assert AsWords(values + [v]) == AsWords(values) + [v as uint16];
    WordsBESnoc(AsWords(values), v as uint16);
  }

  /**
   * requestWithWords(cmd, words, matcher): the frame holds `cmd` at offset 0
   * and word i at offset 2 + 2 * i; without an explicit matcher the reply
   * must be a plain ACK.
   */
  function WordsCommand(cmd: int, words: seq<int>, matcher: Option<Matcher>): (r: Result<Command>)
    ensures r.Ok? <==> AllUint16([cmd] + words)
    ensures r.Err? ==> r.outOfRange == FirstOutOfRange([cmd] + words)
    ensures r.Ok? ==> r.value.matcher == (if matcher.Some? then matcher.value else AckMatcher)
    ensures r.Ok? ==> |r.value.frame| == 2 + 2 * |words|
    ensures r.Ok? ==> ReadUint16BE(r.value.frame, 0) == cmd
    ensures r.Ok? ==> forall i :: 0 <= i < |words| ==> ReadUint16BE(r.value.frame, 2 + 2 * i) == words[i]
    ensures r.Ok? ==> DecodeWords(r.value.frame) == [cmd] + words
  {
    var all := [cmd] + words;
    if !AllUint16(all) then Err(FirstOutOfRange(all))
    else
      var ws := AsWords(all);
      var frame := WordsBE(ws);
      WordsBEAt(ws, 0);
      forall i | 0 <= i < |words|
        ensures ReadUint16BE(frame, 2 + 2 * i) == words[i]
      {
        WordsBEAt(ws, i + 1);
      }
      DecodeWordsBE(ws);
      Ok(Command(frame, if matcher.Some? then matcher.value else AckMatcher))
  }

  /** What every command encoder promises: the frame decodes to its command and parameters. */
  predicate Encodes(r: Result<Command>, cmd: uint16, params: seq<int>, matcher: Matcher) {
    && (r.Ok? <==> AllUint16(params))
    && (r.Ok? ==> r.value.matcher == matcher && |r.value.frame| % 2 == 0
                  && DecodeWords(r.value.frame) == [cmd] + params)
  }
}

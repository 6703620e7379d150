/**
 * Frame reassembly in the Commander engine's readable handler: chunks
 * accumulate into the frame of the request in flight until its matcher
 * decides, so a reply split across readable events settles exactly as if it
 * had arrived whole.
 */
module Reassembly {
  import opened Frames
  import opened Responses
  import opened Protocol

  /** Bytes arriving with no request in flight change nothing. */
  lemma ReadableWithoutRequest(s: State, chunks: seq<seq<byte>>)
    requires s.currentRequest.None?
    ensures OnReadable(s, chunks) == s
  {
  }

  /** Nothing accumulated after the first chunks: the second event sees all the bytes. */
  lemma ReadableSplitEmpty(s: State, a: seq<seq<byte>>, b: seq<seq<byte>>)
    requires s.attached && s.currentRequest.Some?
    requires |Accumulated(s) + Concat(a)| == 0
    ensures OnReadable(OnReadable(s, a), b) == OnReadable(s, a + b)
  {
    ConcatAppend(a, b);
    var whole := Accumulated(s) + Concat(a + b);
    assert Accumulated(s) == [] && Concat(a) == [];
    assert Accumulated(s) + Concat(b) == whole;
    ReadableDelivers(s, a);
    ReadableDelivers(s, b);
    ReadableDelivers(s, a + b);
  }

  /** The first chunks leave an undecided frame: the second event extends it. */
  lemma ReadableSplitWaiting(s: State, a: seq<seq<byte>>, b: seq<seq<byte>>)
    requires s.attached && s.currentRequest.Some?
    requires var t := Accumulated(s) + Concat(a);
      |t| > 0 && Match(s.currentRequest.value.matcher, t).Incomplete?
    ensures OnReadable(OnReadable(s, a), b) == OnReadable(s, a + b)
  {
    ConcatAppend(a, b);
    var t := Accumulated(s) + Concat(a);
    var whole := Accumulated(s) + Concat(a + b);
    var s1 := s.(responseFrame := Some(t));
    assert Accumulated(s1) == t;
    AppendAssoc(Accumulated(s), Concat(a), Concat(b));
    assert Accumulated(s1) + Concat(b) == whole;
    ReadableAccumulates(s, a);
    ReadableDelivers(s1, b);
    ReadableDelivers(s, a + b);
    DeliverIgnoresOldFrame(s, whole);
  }

  /**
   * Fragmentation: as long as the matcher has not decided on the first part,
   * receiving chunks in two readable events or in one ends in the same state.
   */
  lemma ReadableSplit(s: State, a: seq<seq<byte>>, b: seq<seq<byte>>)
    requires s.attached && s.currentRequest.Some?
    requires var t := Accumulated(s) + Concat(a);
      |t| == 0 || Match(s.currentRequest.value.matcher, t).Incomplete?
    ensures OnReadable(OnReadable(s, a), b) == OnReadable(s, a + b)
  {
    if |Accumulated(s) + Concat(a)| == 0 {
      ReadableSplitEmpty(s, a, b);
    } else {
      ReadableSplitWaiting(s, a, b);
    }
  }

  /** A getPixel reply split anywhere into two chunks parses as if it came whole. */
  lemma PixelReplyInTwoChunks(s: State, color: uint16, k: nat)
    requires s.attached && s.currentRequest.Some? && s.responseFrame.None?
    requires s.currentRequest.value.matcher == PixelMatcher
    requires k < 3
    ensures var reply := [ACK] + Uint16BE(color);
      OnReadable(OnReadable(s, [reply[..k]]), [reply[k..]]) == OnReadable(s, [reply])
  {
    var reply := [ACK] + Uint16BE(color);
    assert Concat([reply[..k]]) == reply[..k] by {
      assert [reply[..k]][..0] == [];
    }
    PixelReplyPrefixWaits(color, k);
    assert Match(PixelMatcher, reply[..k]) == PixelMatch(reply[..k]);
    ReadableSplit(s, [reply[..k]], [reply[k..]]);
    assert [reply[..k]] + [reply[k..]] == [reply[..k], reply[k..]];
    assert Concat([reply[..k], reply[k..]]) == reply by {
      assert [reply[..k], reply[k..]][..1] == [reply[..k]];
      assert [reply[..k]][..0] == [];
    }
    assert Concat([reply]) == reply by {
      assert [reply][..0] == [];
    }
  }
}

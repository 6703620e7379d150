/**
 * Byte-level vocabulary of the display's wire protocol: bytes, 16-bit words,
 * the big-endian word layout used by every command frame, and the
 * concatenation of received chunks.
 */
module Frames {

  type byte = b: int | 0 <= b < 0x100
  type uint16 = w: int | 0 <= w < 0x1_0000

  /** Single-byte acknowledge and negative acknowledge. */
  const ACK: byte := 0x06
  const NAK: byte := 0x15

  datatype Option<+T> = None | Some(value: T)

  predicate IsUint16(v: int) {
    0 <= v < 0x1_0000
  }

  /** The two bytes Buffer.writeUInt16BE writes: high byte first. */
  function Uint16BE(w: uint16): (r: seq<byte>)
    ensures |r| == 2
  {
    [w / 0x100, w % 0x100]
  }

  /** Buffer.readUInt16BE: the word stored big-endian at offset `at`. */
  function ReadUint16BE(s: seq<byte>, at: nat): uint16
    requires at + 2 <= |s|
  {
    (s[at] as int) * 0x100 + s[at + 1]
  }

  /** Reading back a written word gives the word. */
  lemma Uint16BERoundTrip(w: uint16)
    ensures ReadUint16BE(Uint16BE(w), 0) == w
  {
  }

  /** Every pair of bytes is the encoding of the word read from it. */
  lemma ReadUint16BEInverse(s: seq<byte>, at: nat)
    requires at + 2 <= |s|
    ensures Uint16BE(ReadUint16BE(s, at)) == s[at..at + 2]
  {
    var hi: int, lo: int := s[at], s[at + 1];
    var w: int := hi * 0x100 + lo;
    assert w / 0x100 == hi && w % 0x100 == lo by {
      assert w == hi * 0x100 + lo && 0 <= lo < 0x100;
    }
  }

  /** The bytes of a sequence of words, each written big-endian in turn. */
  function WordsBE(words: seq<uint16>): (r: seq<byte>)
    ensures |r| == 2 * |words|
  {
    if words == [] then [] else Uint16BE(words[0]) + WordsBE(words[1..])
  }

  /** Writing one more word appends its two bytes to the layout. */
  lemma {:induction false} WordsBESnoc(words: seq<uint16>, w: uint16)
    ensures WordsBE(words + [w]) == WordsBE(words) + Uint16BE(w)
  {
    if words != [] {
      assert (words + [w])[1..] == words[1..] + [w];
      WordsBESnoc(words[1..], w);
    } else {
      assert words + [w] == [w];
    }
  }

  /** Reads a frame of even length back as big-endian words. */
  function DecodeWords(s: seq<byte>): (r: seq<uint16>)
    requires |s| % 2 == 0
    ensures |r| == |s| / 2
    decreases |s|
  {
    if s == [] then [] else [ReadUint16BE(s, 0)] + DecodeWords(s[2..])
  }

  /** Word i of the list sits at byte offset 2 * i. */
  lemma {:induction false} WordsBEAt(words: seq<uint16>, i: nat)
    requires i < |words|
    ensures ReadUint16BE(WordsBE(words), 2 * i) == words[i]
  {
    Uint16BERoundTrip(words[0]);
    if i > 0 {
      WordsBEAt(words[1..], i - 1);
      assert WordsBE(words)[2 * i..] == WordsBE(words[1..])[2 * (i - 1)..];
    }
  }

  /** Decoding the layout gives back the words, in order. */
  lemma {:induction false} DecodeWordsBE(words: seq<uint16>)
    ensures DecodeWords(WordsBE(words)) == words
  {
    if words != [] {
      var s := WordsBE(words);
      Uint16BERoundTrip(words[0]);
      assert s[2..] == WordsBE(words[1..]);
      DecodeWordsBE(words[1..]);
    }
  }

  /** Every even-length frame is the layout of the words decoded from it. */
  lemma {:induction false} WordsBEDecode(s: seq<byte>)
    requires |s| % 2 == 0
    ensures WordsBE(DecodeWords(s)) == s
    decreases |s|
  {
    if s != [] {
      ReadUint16BEInverse(s, 0);
      WordsBEDecode(s[2..]);
      assert DecodeWords(s)[1..] == DecodeWords(s[2..]);
      assert s == s[0..2] + s[2..];
    }
  }

  /** The bytes of several received chunks, in arrival order. */
  function Concat(chunks: seq<seq<byte>>): seq<byte>
  {
    if chunks == [] then [] else Concat(chunks[..|chunks| - 1]) + chunks[|chunks| - 1]
  }

  /** Concatenation regroups freely. */
  lemma AppendAssoc(x: seq<byte>, y: seq<byte>, z: seq<byte>)
    ensures (x + y) + z == x + (y + z)
  {
  }

  /** Receiving chunks in two batches accumulates the same bytes as one batch. */
  lemma {:induction false} ConcatAppend(a: seq<seq<byte>>, b: seq<seq<byte>>)
    ensures Concat(a + b) == Concat(a) + Concat(b)
    decreases |b|
  {
    if b == [] {
      assert a + b == a;
    } else {
      var b' := b[..|b| - 1];
      assert (a + b)[..|a + b| - 1] == a + b';
      ConcatAppend(a, b');
    }
  }
}

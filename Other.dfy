/**
 * putstr from lib/commands/other.js: prints a string at the cursor. Only
 * printable ASCII survives; the frame is 0x00 0x06, the characters, and a
 * terminating zero.
 */
module Other {
  import opened Frames
  import opened Responses
  import opened Commands

  /** The characters the pattern `[ -~]` keeps: 0x20 through 0x7E. */
  predicate IsPrintable(c: char) {
    ' ' <= c <= '~'
  }

  /** `ascii.replace(/[^ -~]+/g, '')`: drops every character outside ' '..'~', keeping order. */
  function Printable(s: string): (r: string)
    ensures |r| <= |s|
    ensures forall c :: c in r <==> c in s && IsPrintable(c)
  {
    if s == [] then []
    else (if IsPrintable(s[0]) then [s[0]] else []) + Printable(s[1..])
  }

  /** Filtering distributes over concatenation. */
  lemma {:induction false} PrintableConcat(a: string, b: string)
    ensures Printable(a + b) == Printable(a) + Printable(b)
  {
    if a != [] {
      assert (a + b)[1..] == a[1..] + b;
      PrintableConcat(a[1..], b);
    } else {
      assert a + b == b;
    }
  }

  /** A string of printable characters passes unchanged, so filtering twice is filtering once. */
  lemma {:induction false} PrintableKeepsPrintable(s: string)
    requires forall i :: 0 <= i < |s| ==> IsPrintable(s[i])
    ensures Printable(s) == s
  {
    if s != [] {
      PrintableKeepsPrintable(s[1..]);
    }
  }

  lemma PrintableIdempotent(s: string)
    ensures Printable(Printable(s)) == Printable(s)
  {
    var t := Printable(s);
    forall i | 0 <= i < |t| ensures IsPrintable(t[i]) {
      assert t[i] in t;
    }
    PrintableKeepsPrintable(t);
  }

  /** The text a putstr frame carries, read back from its payload bytes. */
  function PayloadText(frame: seq<byte>): (s: string)
    requires |frame| >= 3
    ensures |s| == |frame| - 3
  {
    seq(|frame| - 3, i requires 0 <= i < |frame| - 3 => frame[2 + i] as char)
  }

  /**
   * putstr: allocates 3 + |text| bytes, writes 0x00 0x06, the character
   * codes from offset 2 and a zero last byte; the reply must be a plain ACK.
   * No zero occurs in the payload bytes 2..len-2, and the payload reads back as the
   * filtered text.
   */
  method Putstr(ascii: string) returns (cmd: Command)
    ensures |cmd.frame| == 3 + |Printable(ascii)|
    ensures cmd.frame[0] == 0x00 && cmd.frame[1] == ACK
    ensures cmd.frame[|cmd.frame| - 1] == 0
    ensures forall i :: 2 <= i < |cmd.frame| - 1 ==> cmd.frame[i] != 0
    ensures PayloadText(cmd.frame) == Printable(ascii)
    ensures cmd.matcher == AckMatcher
  {
    var text := Printable(ascii);
    var frame := new byte[2 + |text| + 1];
    frame[0] := 0x00;
    frame[1] := ACK;
    var i := 0;
    while i < |text|
      invariant 0 <= i <= |text|
      invariant frame[0] == 0x00 && frame[1] == ACK
      invariant forall k :: 0 <= k < i ==> frame[2 + k] == text[k] as int
    {
      assert text[i] in text;
      frame[2 + i] := text[i] as int;
      i := i + 1;
    }
    frame[frame.Length - 1] := 0;
    cmd := Command(frame[..], AckMatcher);
    forall j | 2 <= j < |cmd.frame| - 1 ensures cmd.frame[j] != 0 {
      assert text[j - 2] in text;
    }
    assert PayloadText(cmd.frame) == text;
  }
}

// Where the exec client meets the muxer: the line a host socket gets when the guest accepts is the line the
// client's handshake waits for.
module Greeting {
  import opened Prelude
  import Cmdline
  import Utf8
  import opened VsockWorld
  import ExecChannel

  predicate Ascii(s: string)
  {
    forall i :: 0 <= i < |s| ==> s[i] as int < 0x80
  }

  lemma {:induction false} AsciiBytes(s: string)
    requires Ascii(s)
    ensures |Utf8.Encode(s)| == |s| && forall i :: 0 <= i < |s| ==> Utf8.Encode(s)[i] as int == s[i] as int
  {
    if s != [] { AsciiBytes(s[1..]); }
  }

  function Ten(k: nat): nat { if k == 0 then 1 else 10 * Ten(k - 1) }

  lemma {:induction false} ShortDigits(n: nat, k: nat)
    requires k > 0 && n < Ten(k)
    ensures |Cmdline.Digits(n)| <= k && forall i :: 0 <= i < |Cmdline.Digits(n)| ==> '0' <= Cmdline.Digits(n)[i] <= '9'
  {
    if n >= 10 {
      assert k > 1 by { assert Ten(1) == 10 * Ten(0); }
      ShortDigits(n / 10, k - 1);
    }
  }

  lemma TenDigits()
    ensures Ten(10) == 10_000_000_000
  {
    assert Ten(5) == 100_000 by { assert Ten(3) == 10 * Ten(2) && Ten(2) == 10 * Ten(1); }
    assert Ten(8) == 10 * Ten(7) && Ten(7) == 10 * Ten(6);
  }

  // The line is OK, a space and the port in decimal.
  lemma OkLineSaysThePort(port: u32) returns (digits: string)
    ensures Cmdline.Decimal(digits) == Some(port) && 1 <= |digits| <= 10
    ensures forall i :: 0 <= i < |digits| ==> '0' <= digits[i] <= '9'
    ensures var line := OkLine(port);
            && |line| == |digits| + 4 && line[0] == 79 && line[1] == 75 && line[2] == 32 && line[|line| - 1] == 10
            && forall i :: 0 <= i < |digits| ==> line[3 + i] as int == digits[i] as int
  {
    digits := Cmdline.Digits(port);
    TenDigits();
    ShortDigits(port, 10);
    Cmdline.DecimalDigits(port);
    var text := "OK " + digits + "\n";
    assert Ascii(text);
    AsciiBytes(text);
    assert forall i :: 0 <= i < |digits| ==> text[3 + i] == digits[i];
  }

  // Whatever follows it, the client accepts it and leaves exactly what follows.
  method MeetTheMuxer(port: u32, rest: seq<byte>) returns (result: ExecChannel.Handshake, consumed: nat)
    ensures result.Accepted? && consumed == |OkLine(port)| && consumed <= 14
  {
    ghost var digits := OkLineSaysThePort(port);
    ghost var line := OkLine(port);
    var stream := OkLine(port) + rest;
    assert forall i :: 0 <= i < |line| ==> stream[i] == line[i];
    result, consumed := ExecChannel.VsockConnect(stream);
    assert stream[|line| - 1] == 10 && 10 in stream;
    forall i | 0 <= i < |line| - 1 ensures stream[i] != 10 {
      if i >= 3 { assert line[3 + (i - 3)] as int == digits[i - 3] as int; }
    }
  }
}

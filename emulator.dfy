/** The fake serial port of client/emulator.py: the encoder half of the 3-byte ADC
    frame, and a small open/closed read state machine. */
module Emulator {
  import opened Common
  import opened ReflowCntrl

  /** The message of the exception a closed port raises. */
  const BadFileDescriptor := "Bad file descriptor"

  /** The frame _genFrame writes for an ADC value: the 0xFF marker, the low byte
      (`v & 0xFF`), then the next byte (`(v >> 8) & 0xFF`). */
  function FrameBytes(v: nat): (r: seq<byte>)
    ensures |r| == 3 && r[0] == 0xFF
    ensures r[1] as int == v % 256 && r[2] as int == (v / 256) % 256
  {
    [0xFF, (v % 256) as byte, ((v / 256) % 256) as byte]
  }

  /** Every twelve-bit value, which covers the 350..1023 the emulator draws, makes a
      frame that the decoder accepts at once and decodes back to the value. */
  lemma FrameRoundTrip(v: nat)
    requires v <= 4095
    ensures FirstFrame(FrameBytes(v)) == Some(Frame(v, 3))
  {
  }

  /** A value of thirteen bits or more cannot be framed: its high byte fails the check. */
  lemma WideValueRejected(v: nat)
    requires 4096 <= v < 65536
    ensures !IsFrameAt(FrameBytes(v), 0)
  {
  }

  /** FakeSerial. The random ADC value _genFrame draws is a parameter of Read. */
  class FakeSerial {
    var data: seq<byte>
    var isOpen: bool

    constructor ()
      ensures data == [] && isOpen
    {
      data := [];
      isOpen := true;
    }

    /** FakeSerial._genFrame */
    method GenFrame(adcValue: nat)
      modifies this
      ensures data == FrameBytes(adcValue) && isOpen == old(isOpen)
    {
      data := [0xFF, (adcValue % 256) as byte, ((adcValue / 256) % 256) as byte];
    }

    /** FakeSerial._checkOpen: a closed port raises SerialException. */
    method CheckOpen() returns (out: Outcome)
      ensures out.Pass? <==> isOpen
      ensures out.Fail? ==> out.error == SerialException(BadFileDescriptor)
    {
      if !isOpen {
        return Fail(SerialException(BadFileDescriptor));
      }
      return Pass;
    }

    /** FakeSerial.inWaiting: the number of pending bytes. */
    method InWaiting() returns (r: Result<nat>)
      ensures isOpen ==> r == Ok(|data|)
      ensures !isOpen ==> r == Err(SerialException(BadFileDescriptor))
    {
      var out := CheckOpen();
      if out.Fail? {
        return Err(out.error);
      }
      return Ok(|data|);
    }

    /** FakeSerial.write discards its argument and never checks the port. */
    method Write(b: seq<byte>) returns (out: Outcome)
      ensures out == Pass
    {
      out := Pass;
    }

    /** FakeSerial.read: on an empty buffer a frame of `adcValue` is generated first;
        then the first n pending bytes are returned and the rest stay pending. */
    method Read(n: nat, adcValue: nat) returns (r: Result<seq<byte>>)
      modifies this
      ensures isOpen == old(isOpen)
      ensures !old(isOpen) ==> r == Err(SerialException(BadFileDescriptor)) && data == old(data)
      ensures old(isOpen) ==>
        var buf := if old(data) == [] then FrameBytes(adcValue) else old(data);
        var k := if n < |buf| then n else |buf|;
        r == Ok(buf[..k]) && data == buf[k..]
    {
      var out := CheckOpen();
      if out.Fail? {
        return Err(out.error);
      }
      if data == [] {
        GenFrame(adcValue);
      }
      var k := if n < |data| then n else |data|;
      var val := data[..k];
      data := data[k..];
      r := Ok(val);
    }

    /** FakeSerial.close */
    method Close()
      modifies this
      ensures !isOpen && data == old(data)
    {
      isOpen := false;
    }
  }

  /** One pass of the read loop of ReflowControl._readAdc against the fake port: the
      flush `read(inWaiting())` and then `read(3)` and the decoder. Whatever was pending
      is discarded, and the frame decoded is a freshly generated one: the one the flush
      itself generates when nothing was pending (`read(0)` on an empty buffer), else
      the one `read(3)` generates. Either way the value comes back unchanged. */
  method ReadAdcPass(port: FakeSerial, first: nat, second: nat) returns (frame: Option<Frame>)
    requires port.isOpen
    requires first <= 4095 && second <= 4095
    modifies port
    ensures frame == Some(Frame(if old(port.data) == [] then first else second, 3))
    ensures port.data == [] && port.isOpen
  {
    var pending := port.InWaiting();
    var flushed := port.Read(pending.value, first);
    var got := port.Read(3, second);
    FrameRoundTrip(first);
    FrameRoundTrip(second);
    frame := FirstFrame(got.value);
  }

  /** After close both queries raise, while a write still succeeds. */
  method ClosedPort(port: FakeSerial, adcValue: nat) returns (w: Result<nat>, r: Result<seq<byte>>, out: Outcome)
    modifies port
    ensures w == Err(SerialException(BadFileDescriptor)) && r == Err(SerialException(BadFileDescriptor))
    ensures out == Pass
  {
    port.Close();
    w := port.InWaiting();
    r := port.Read(3, adcValue);
    out := port.Write([0]);
  }
}

/** The MCP3008 read sequence of `readadc`: a 5-bit command word shifted out
    most significant bit first on the data-out line, then 12 bits shifted in
    from the data-in line. The GPIO calls become a trace of bus events; the
    levels read from the data-in line become an input sequence. */
module Adc {

  /** The three output lines the read drives. */
  datatype Pin = Clock | DataOut | ChipSelect

  /** One step on the bus: driving an output line to a level, or sampling
      the data-in line. */
  datatype BusEvent = Drive(pin: Pin, level: bool) | SampleDataIn

  /** Number of bits `readadc` clocks in from the chip on every read. */
  const ReadBits: nat := 12

  /** Sentinel returned for a channel outside 0..7. */
  const InvalidChannel: int := -1

  predicate ValidChannel(adcnum: int) {
    0 <= adcnum <= 7
  }

  function Pow2(n: nat): (r: nat)
    ensures r >= 1
  {
    if n == 0 then 1 else 2 * Pow2(n - 1)
  }

  /** The big-endian unsigned integer spelled by `bits`, first bit most
      significant. */
  function FromBits(bits: seq<bool>): nat {
    if bits == [] then 0
    else 2 * FromBits(bits[..|bits| - 1]) + (if bits[|bits| - 1] then 1 else 0)
  }

  /** The command word the MCP3008 expects for a single-ended read of
      `channel`, in the order it goes on the wire: start bit, single-ended
      bit, then the channel number's bits 2, 1 and 0. */
  function CommandBits(channel: int): (bits: seq<bool>)
    requires ValidChannel(channel)
    ensures |bits| == 5 && bits[0] && bits[1]
  {
    [true, true, channel / 4 % 2 == 1, channel / 2 % 2 == 1, channel % 2 == 1]
  }

  /** Chip select high, clock low, chip select low: the start of a read. */
  const Prologue: seq<BusEvent> :=
    [Drive(ChipSelect, true), Drive(Clock, false), Drive(ChipSelect, false)]

  /** One command bit: set data-out, then one clock pulse. */
  function CommandFrame(bit: bool): seq<BusEvent> {
    [Drive(DataOut, bit), Drive(Clock, true), Drive(Clock, false)]
  }

  function CommandFrames(bits: seq<bool>): (t: seq<BusEvent>)
    ensures |t| == 3 * |bits|
  {
    if bits == [] then []
    else CommandFrames(bits[..|bits| - 1]) + CommandFrame(bits[|bits| - 1])
  }

  /** One received bit: one clock pulse, then a sample of data-in. */
  const ReadFrame: seq<BusEvent> :=
    [Drive(Clock, true), Drive(Clock, false), SampleDataIn]

  function ReadFrames(n: nat): (t: seq<BusEvent>)
    ensures |t| == 3 * n
  {
    if n == 0 then [] else ReadFrames(n - 1) + ReadFrame
  }

  /** The whole bus conversation of a read of a valid channel. */
  function ReadTrace(channel: int): seq<BusEvent>
    requires ValidChannel(channel)
  {
    Prologue + CommandFrames(CommandBits(channel)) + ReadFrames(ReadBits)
    + [Drive(ChipSelect, true)]
  }

  /** The levels driven on `pin`, in order. */
  function Levels(t: seq<BusEvent>, pin: Pin): seq<bool> {
    if t == [] then []
    else Levels(t[..|t| - 1], pin)
         + (if t[|t| - 1].Drive? && t[|t| - 1].pin == pin then [t[|t| - 1].level] else [])
  }

  /** How many times the data-in line is sampled. */
  function Samples(t: seq<BusEvent>): nat {
    if t == [] then 0
    else Samples(t[..|t| - 1]) + (if t[|t| - 1] == SampleDataIn then 1 else 0)
  }

  /** How many rising edges the clock line sees. */
  function ClockPulses(t: seq<BusEvent>): nat {
    if t == [] then 0
    else ClockPulses(t[..|t| - 1]) + (if t[|t| - 1] == Drive(Clock, true) then 1 else 0)
  }

  /** `readadc`: reject a channel outside 0..7 with -1 before touching the
      bus; otherwise frame the transfer with chip select, send the command
      word, accumulate the 12 received bits, and shift the accumulator right
      by one, which drops the LAST bit received (not the first, as the
      comment beside that line says). `dataIn[i]` is the level read on the
      i-th sample. */
  method ReadAdc(adcnum: int, dataIn: seq<bool>) returns (value: int, trace: seq<BusEvent>)
    requires |dataIn| == ReadBits
    ensures !ValidChannel(adcnum) ==> value == InvalidChannel && trace == []
    ensures ValidChannel(adcnum) ==> trace == ReadTrace(adcnum)
    ensures ValidChannel(adcnum) ==> value == FromBits(dataIn[..ReadBits - 1])
    ensures ValidChannel(adcnum) ==> 0 <= value < 2048
    ensures ValidChannel(adcnum) && !dataIn[0] ==> value < 1024
  {
    if adcnum > 7 || adcnum < 0 {
      return InvalidChannel, [];
    }
    trace := Prologue;
    var sent := SendCommand(adcnum);
    trace := trace + sent;
    var adcout, received := ReceiveBits(dataIn);
    trace := trace + received + [Drive(ChipSelect, true)];
    value := adcout / 2;
    DropLastBit(dataIn);
    SampleRange(dataIn[..ReadBits - 1]);
  }

  /** The first loop of `readadc`: build the command word from the channel
      and shift it out on data-out, testing bit 7 each round. */
  method SendCommand(adcnum: int) returns (trace: seq<BusEvent>)
    requires ValidChannel(adcnum)
    ensures trace == CommandFrames(CommandBits(adcnum))
  {
    trace := [];
    var commandout: bv16 := adcnum as bv16;
    commandout := commandout | 0x18;
    commandout := commandout << 3;
    ghost var bits := CommandBits(adcnum);
    for i := 0 to 5
      invariant commandout == ShiftedCommand(adcnum as bv16, i)
      invariant trace == CommandFrames(bits[..i])
    {
      CommandBitOnWire(adcnum, i, commandout);
      CommandFramesStep(bits, i);
      // data-out follows bit 7 of the word, then one clock pulse
      var bit := commandout & 0x80 != 0;
      commandout := commandout << 1;
      trace := trace + CommandFrame(bit);
    }
    assert bits[..5] == bits;
  }

  /** The second loop of `readadc`: 12 rounds of a clock pulse and a sample
      of data-in shifted into the accumulator. Python integers do not
      overflow: `<<= 1` doubles and `|= 0x1` sets the low bit, which the
      shift has just cleared. */
  method ReceiveBits(dataIn: seq<bool>) returns (adcout: int, trace: seq<BusEvent>)
    requires |dataIn| == ReadBits
    ensures adcout == FromBits(dataIn)
    ensures trace == ReadFrames(ReadBits)
  {
    adcout := 0;
    trace := [];
    for i := 0 to ReadBits
      invariant adcout == FromBits(dataIn[..i])
      invariant trace == ReadFrames(i)
    {
      FromBitsStep(dataIn, i);
      adcout := adcout * 2;
      if dataIn[i] {
        adcout := adcout + 1;
      }
      trace := trace + ReadFrame;
    }
    assert dataIn[..ReadBits] == dataIn;
  }

  /** Shifting the 12-bit accumulator right by one leaves the first 11
      bits. */
  lemma DropLastBit(bits: seq<bool>)
    requires |bits| == ReadBits
    ensures FromBits(bits) / 2 == FromBits(bits[..ReadBits - 1])
  {
  }

  /** An 11-bit word is below 2048, and below 1024 when its first bit is 0. */
  lemma SampleRange(bits: seq<bool>)
    requires |bits| == 11
    ensures FromBits(bits) < 2048
    ensures !bits[0] ==> FromBits(bits) < 1024
  {
    assert Pow2(10) == 1024 && Pow2(11) == 2048;
    FromBitsBound(bits);
    if !bits[0] {
      FromBitsLeadingZero(bits);
    }
  }

  /** `commandout` once the channel number `c` has gone through the setup
      and `i` rounds of `<<= 1`; it stays below 0x2000, so 16 bits hold it
      without loss. */
  function ShiftedCommand(c: bv16, i: nat): bv16 {
    if i == 0 then (c | 0x18) << 3 else ShiftedCommand(c, i - 1) << 1
  }

  /** The low three bits of a channel number are its binary digits. */
  lemma ChannelBits(channel: int)
    requires ValidChannel(channel)
    ensures (channel as bv16) < 8
    ensures ((channel as bv16) & 4 != 0) == (channel / 4 % 2 == 1)
    ensures ((channel as bv16) & 2 != 0) == (channel / 2 % 2 == 1)
    ensures ((channel as bv16) & 1 != 0) == (channel % 2 == 1)
  {
  }

  /** Bit 7 of the word in each of the five rounds. */
  lemma ShiftedCommandBits(c: bv16)
    requires c < 8
    ensures ShiftedCommand(c, 0) & 0x80 != 0
    ensures ShiftedCommand(c, 1) & 0x80 != 0
    ensures (ShiftedCommand(c, 2) & 0x80 != 0) == (c & 4 != 0)
    ensures (ShiftedCommand(c, 3) & 0x80 != 0) == (c & 2 != 0)
    ensures (ShiftedCommand(c, 4) & 0x80 != 0) == (c & 1 != 0)
    ensures ShiftedCommand(c, 5) < 0x2000
  {
  }

  /** In round i, testing bit 7 of the command word yields the i-th command
      bit in wire order, and the shift yields the next round's word. */
  lemma CommandBitOnWire(channel: int, i: nat, w: bv16)
    requires ValidChannel(channel) && i < 5
    requires w == ShiftedCommand(channel as bv16, i)
    ensures (w & 0x80 != 0) == CommandBits(channel)[i]
    ensures w << 1 == ShiftedCommand(channel as bv16, i + 1)
  {
    ChannelBits(channel);
    ShiftedCommandBits(channel as bv16);
  }

  lemma CommandFramesStep(bits: seq<bool>, i: nat)
    requires i < |bits|
    ensures CommandFrames(bits[..i + 1]) == CommandFrames(bits[..i]) + CommandFrame(bits[i])
  {
    assert bits[..i + 1][..i] == bits[..i];
  }

  lemma FromBitsStep(bits: seq<bool>, i: nat)
    requires i < |bits|
    ensures FromBits(bits[..i + 1]) == 2 * FromBits(bits[..i]) + if bits[i] then 1 else 0
  {
    assert bits[..i + 1][..i] == bits[..i];
  }

  /** A received word of n bits is below 2^n. */
  lemma {:induction false} FromBitsBound(bits: seq<bool>)
    ensures FromBits(bits) < Pow2(|bits|)
  {
    if bits != [] {
      FromBitsBound(bits[..|bits| - 1]);
    }
  }

  /** A word whose first bit is 0 is below 2^(n-1). */
  lemma {:induction false} FromBitsLeadingZero(bits: seq<bool>)
    requires |bits| >= 1 && !bits[0]
    ensures FromBits(bits) < Pow2(|bits| - 1)
  {
    if |bits| > 1 {
      var front := bits[..|bits| - 1];
      assert front[0] == bits[0];
      FromBitsLeadingZero(front);
    }
  }

  lemma {:induction false} LevelsAppend(s: seq<BusEvent>, t: seq<BusEvent>, pin: Pin)
    ensures Levels(s + t, pin) == Levels(s, pin) + Levels(t, pin)
  {
    if t == [] {
      assert s + t == s;
    } else {
      var t' := t[..|t| - 1];
      assert (s + t)[..|s + t| - 1] == s + t';
      LevelsAppend(s, t', pin);
    }
  }

  lemma {:induction false} SamplesAppend(s: seq<BusEvent>, t: seq<BusEvent>)
    ensures Samples(s + t) == Samples(s) + Samples(t)
    ensures ClockPulses(s + t) == ClockPulses(s) + ClockPulses(t)
  {
    if t == [] {
      assert s + t == s;
    } else {
      var t' := t[..|t| - 1];
      assert (s + t)[..|s + t| - 1] == s + t';
      SamplesAppend(s, t');
    }
  }

  /** Read as a number, the command word is 0x18 | channel. */
  lemma CommandWordValue(channel: int)
    requires ValidChannel(channel)
    ensures FromBits(CommandBits(channel)) == 24 + channel
  {
    var x, y, z := channel / 4 % 2 == 1, channel / 2 % 2 == 1, channel % 2 == 1;
    assert [true, true][..1] == [true] && [true][..0] == [];
    assert FromBits([true, true]) == 3;
    assert [true, true, x][..2] == [true, true];
    assert [true, true, x, y][..3] == [true, true, x];
    assert [true, true, x, y, z][..4] == [true, true, x, y];
    assert FromBits([true, true, x]) == 6 + (if x then 1 else 0);
    assert FromBits([true, true, x, y]) == 12 + (if x then 2 else 0) + (if y then 1 else 0);
    assert channel == 4 * (channel / 4 % 2) + 2 * (channel / 2 % 2) + channel % 2;
  }

  /** The three-event frames are summed event by event. */
  lemma FrameCounts(a: BusEvent, b: BusEvent, c: BusEvent, pin: Pin)
    ensures Levels([a, b, c], pin) == Levels([a], pin) + Levels([b], pin) + Levels([c], pin)
    ensures Samples([a, b, c]) == Samples([a]) + Samples([b]) + Samples([c])
    ensures ClockPulses([a, b, c]) == ClockPulses([a]) + ClockPulses([b]) + ClockPulses([c])
  {
    assert [a] + [b] == [a, b] && [a, b] + [c] == [a, b, c];
    LevelsAppend([a], [b], pin);
    LevelsAppend([a, b], [c], pin);
    SamplesAppend([a], [b]);
    SamplesAppend([a, b], [c]);
  }

  lemma {:induction false} CommandFramesLevels(bits: seq<bool>)
    ensures Levels(CommandFrames(bits), DataOut) == bits
    ensures Levels(CommandFrames(bits), ChipSelect) == []
    ensures Samples(CommandFrames(bits)) == 0
    ensures ClockPulses(CommandFrames(bits)) == |bits|
  {
    if bits != [] {
      var front := bits[..|bits| - 1];
      var last := bits[|bits| - 1];
      CommandFramesLevels(front);
      FrameCounts(Drive(DataOut, last), Drive(Clock, true), Drive(Clock, false), DataOut);
      FrameCounts(Drive(DataOut, last), Drive(Clock, true), Drive(Clock, false), ChipSelect);
      LevelsAppend(CommandFrames(front), CommandFrame(last), DataOut);
      LevelsAppend(CommandFrames(front), CommandFrame(last), ChipSelect);
      SamplesAppend(CommandFrames(front), CommandFrame(last));
      assert front + [last] == bits;
    }
  }

  lemma {:induction false} ReadFramesLevels(n: nat)
    ensures Levels(ReadFrames(n), DataOut) == []
    ensures Levels(ReadFrames(n), ChipSelect) == []
    ensures Samples(ReadFrames(n)) == n
    ensures ClockPulses(ReadFrames(n)) == n
  {
    if n > 0 {
      ReadFramesLevels(n - 1);
      FrameCounts(Drive(Clock, true), Drive(Clock, false), SampleDataIn, DataOut);
      FrameCounts(Drive(Clock, true), Drive(Clock, false), SampleDataIn, ChipSelect);
      LevelsAppend(ReadFrames(n - 1), ReadFrame, DataOut);
      LevelsAppend(ReadFrames(n - 1), ReadFrame, ChipSelect);
      SamplesAppend(ReadFrames(n - 1), ReadFrame);
    }
  }

  /** Over a whole read of a valid channel the data-out line carries exactly
      the command word, chip select goes high, low, and high again, the clock
      pulses 5 + 12 times and data-in is sampled 12 times. */
  lemma ReadTraceShape(channel: int)
    requires ValidChannel(channel)
    ensures Levels(ReadTrace(channel), DataOut) == CommandBits(channel)
    ensures Levels(ReadTrace(channel), ChipSelect) == [true, false, true]
    ensures ClockPulses(ReadTrace(channel)) == 5 + ReadBits
    ensures Samples(ReadTrace(channel)) == ReadBits
  {
    var cmd := CommandFrames(CommandBits(channel));
    var rd := ReadFrames(ReadBits);
    var tail: seq<BusEvent> := [Drive(ChipSelect, true)];
    CommandFramesLevels(CommandBits(channel));
    ReadFramesLevels(ReadBits);
    FrameCounts(Drive(ChipSelect, true), Drive(Clock, false), Drive(ChipSelect, false), DataOut);
    FrameCounts(Drive(ChipSelect, true), Drive(Clock, false), Drive(ChipSelect, false), ChipSelect);
    LevelsAppend(Prologue, cmd, DataOut);
    LevelsAppend(Prologue + cmd, rd, DataOut);
    LevelsAppend(Prologue + cmd + rd, tail, DataOut);
    LevelsAppend(Prologue, cmd, ChipSelect);
    LevelsAppend(Prologue + cmd, rd, ChipSelect);
    LevelsAppend(Prologue + cmd + rd, tail, ChipSelect);
    SamplesAppend(Prologue, cmd);
    SamplesAppend(Prologue + cmd, rd);
    SamplesAppend(Prologue + cmd + rd, tail);
  }
}

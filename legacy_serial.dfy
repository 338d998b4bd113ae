/**
 * The earlier SerialDevice.cpp: an unguarded ASCII parser in `run()` and a
 * small binary packet protocol (`'*' '~' command length payload...`) with
 * builders that frame little-endian integers and handlers that decode them.
 */
module LegacySerial {
  import opened Wrappers
  import opened Messages
  import SerialDecoder

  // ---------------------------------------------------------------------
  // The unguarded parser (SerialDevice.cpp:320-341).
  // ---------------------------------------------------------------------

  /** The parser's state: no guard flag; `halted` records a throw from std::stoi. */
  datatype Parser = Parser(m: Message, number: seq<byte>, halted: bool, messages: seq<Message>)

  function Fresh(initial: Message): Parser {
    Parser(initial, [], false, [])
  }

  /** One iteration of the parse loop: every sign and every digit counts, wherever it comes. */
  function Transition(p: Parser, c: byte): (q: Parser)
    requires AllDigits(p.number)
    ensures AllDigits(q.number)
    ensures |p.messages| <= |q.messages| <= |p.messages| + 1
    ensures q.messages[..|p.messages|] == p.messages
    ensures |q.messages| == |p.messages| + 1 <==> c == CarriageReturn && !p.halted && Stoi(p.number).Ok?
    ensures p.halted ==> q == p
  {
    if p.halted then p
    else
      var p1 := if IsAxis(c) then p.(m := p.m.(direction := c)) else p;
      var p2 := if c == PlusSign || c == MinusSign then p1.(m := p1.m.(verse := c)) else p1;
      var p3 := if IsDigit(c) then p2.(number := p2.number + [c]) else p2;
      if c == CarriageReturn then
        match Stoi(p3.number)
        case Ok(v) =>
          var done := p3.m.(value := v);
          p3.(m := done, messages := p3.messages + [done], number := [])
        case Err(_) => p3.(halted := true)
      else p3
  }

  function Decode(p: Parser, bs: seq<byte>): (q: Parser)
    requires AllDigits(p.number)
    ensures AllDigits(q.number)
    ensures |p.messages| <= |q.messages|
    ensures q.messages[..|p.messages|] == p.messages
    decreases |bs|
  {
    if bs == [] then p else Decode(Transition(p, bs[0]), bs[1..])
  }

  lemma DecodeCons(p: Parser, c: byte, rest: seq<byte>)
    requires AllDigits(p.number)
    ensures Decode(p, [c] + rest) == Decode(Transition(p, c), rest)
  {
    assert ([c] + rest)[1..] == rest;
  }

  /** This parser's state also persists across reads. */
  lemma {:induction false} DecodeAppend(p: Parser, a: seq<byte>, b: seq<byte>)
    requires AllDigits(p.number)
    ensures Decode(p, a + b) == Decode(Decode(p, a), b)
    decreases |a|
  {
    if a != [] {
      assert (a + b)[0] == a[0];
      assert (a + b)[1..] == a[1..] + b;
      DecodeAppend(Transition(p, a[0]), a[1..], b);
    } else {
      assert a + b == b;
    }
  }

  /** An axis byte always sets the direction, whether or not a message is under way. */
  lemma AxisByteSetsDirection(p: Parser, c: byte)
    requires AllDigits(p.number) && !p.halted && IsAxis(c)
    ensures Transition(p, c) == p.(m := p.m.(direction := c))
  {
  }

  /** Either sign always sets the sign; there is no message to be inside of. */
  lemma SignBytesAlwaysCount(p: Parser)
    requires AllDigits(p.number) && !p.halted
    ensures Transition(p, PlusSign) == p.(m := p.m.(verse := PlusSign))
    ensures Transition(p, MinusSign) == p.(m := p.m.(verse := MinusSign))
  {
  }

  /** Every digit is appended, whether or not an axis byte came before it. */
  lemma DigitAlwaysAppended(p: Parser, c: byte)
    requires AllDigits(p.number) && !p.halted && IsDigit(c)
    ensures Transition(p, c) == p.(number := p.number + [c])
  {
  }

  /**
   * Every terminator with digits before it pushes the current message with
   * their value; that message stays current, so its axis and sign carry over.
   */
  lemma TerminatorAlwaysPushes(p: Parser)
    requires AllDigits(p.number) && !p.halted
    requires p.number != [] && DecimalValue(p.number) <= IntMax
    ensures var done := p.m.(value := DecimalValue(p.number));
      Transition(p, CarriageReturn) == p.(m := done, number := [], messages := p.messages + [done])
  {
  }

  /** A terminator with no digits makes std::stoi throw: the thread ends and nothing is pushed. */
  lemma EmptyTerminatorHalts(p: Parser)
    requires AllDigits(p.number) && !p.halted && p.number == []
    ensures Transition(p, CarriageReturn) == p.(halted := true)
  {
  }

  /** So "\r" alone ends the unguarded parser, where the guarded one ignores it. */
  lemma LoneTerminatorExample(initial: Message)
    ensures Decode(Fresh(initial), [CarriageReturn]) == Fresh(initial).(halted := true)
    ensures SerialDecoder.Decode(SerialDecoder.Fresh(initial), [CarriageReturn]) == SerialDecoder.Fresh(initial)
  {
    DecodeCons(Fresh(initial), CarriageReturn, []);
    SerialDecoder.DecodeCons(SerialDecoder.Fresh(initial), CarriageReturn, []);
  }

  /**
   * Without the guard, a fragment "-7\r" after "G+5\r" is pushed as a second
   * message on the stale X axis; the guarded parser drops the fragment.
   */
  lemma StaleAxisExample(initial: Message)
    ensures Decode(Fresh(initial), [XAxis, PlusSign, 53, CarriageReturn, MinusSign, 55, CarriageReturn]).messages
      == [Message(XAxis, PlusSign, 5), Message(XAxis, MinusSign, 7)]
  {
    var p0 := Fresh(initial);
    var p1 := p0.(m := initial.(direction := XAxis));
    var p2 := p1.(m := p1.m.(verse := PlusSign));
    var p3 := p2.(number := [53]);
    assert [53][..0] == [] && DecimalValue([53]) == 5;
    var p4 := p3.(m := p3.m.(value := 5), messages := [p3.m.(value := 5)], number := []);
    var p5 := p4.(m := p4.m.(verse := MinusSign));
    var p6 := p5.(number := [55]);
    assert [55][..0] == [] && DecimalValue([55]) == 7;
    var p7 := p6.(m := p6.m.(value := 7), messages := p6.messages + [p6.m.(value := 7)], number := []);
    assert Transition(p0, XAxis) == p1;
    assert Transition(p1, PlusSign) == p2;
    assert Transition(p2, 53) == p3;
    assert Transition(p3, CarriageReturn) == p4;
    assert Transition(p4, MinusSign) == p5;
    assert Transition(p5, 55) == p6;
    assert Transition(p6, CarriageReturn) == p7;
    DecodeCons(p6, CarriageReturn, []);
    DecodeCons(p5, 55, [CarriageReturn]);
    DecodeCons(p4, MinusSign, [55, CarriageReturn]);
    DecodeCons(p3, CarriageReturn, [MinusSign, 55, CarriageReturn]);
    DecodeCons(p2, 53, [CarriageReturn, MinusSign, 55, CarriageReturn]);
    DecodeCons(p1, PlusSign, [53, CarriageReturn, MinusSign, 55, CarriageReturn]);
    DecodeCons(p0, XAxis, [PlusSign, 53, CarriageReturn, MinusSign, 55, CarriageReturn]);
  }

  /** The guarded parser on the same bytes pushes only the first message. */
  lemma GuardDropsStaleFragmentExample(initial: Message)
    ensures SerialDecoder.Decode(SerialDecoder.Fresh(initial),
              [XAxis, PlusSign, 53, CarriageReturn, MinusSign, 55, CarriageReturn]).messages
      == [Message(XAxis, PlusSign, 5)]
  {
    var p0 := SerialDecoder.Fresh(initial);
    var p1 := p0.(m := initial.(direction := XAxis), foundMessage := true);
    var p2 := p1.(m := p1.m.(verse := PlusSign));
    var p3 := p2.(number := [53]);
    assert [53][..0] == [] && DecimalValue([53]) == 5;
    var p4 := SerialDecoder.Complete(p3, 5);
    assert SerialDecoder.Transition(p0, XAxis) == p1;
    assert SerialDecoder.Transition(p1, PlusSign) == p2;
    assert SerialDecoder.Transition(p2, 53) == p3;
    assert SerialDecoder.Transition(p3, CarriageReturn) == p4;
    assert SerialDecoder.Transition(p4, MinusSign) == p4;
    assert SerialDecoder.Transition(p4, 55) == p4;
    assert SerialDecoder.Transition(p4, CarriageReturn) == p4;
    SerialDecoder.DecodeCons(p4, CarriageReturn, []);
    SerialDecoder.DecodeCons(p4, 55, [CarriageReturn]);
    SerialDecoder.DecodeCons(p4, MinusSign, [55, CarriageReturn]);
    SerialDecoder.DecodeCons(p3, CarriageReturn, [MinusSign, 55, CarriageReturn]);
    SerialDecoder.DecodeCons(p2, 53, [CarriageReturn, MinusSign, 55, CarriageReturn]);
    SerialDecoder.DecodeCons(p1, PlusSign, [53, CarriageReturn, MinusSign, 55, CarriageReturn]);
    SerialDecoder.DecodeCons(p0, XAxis, [PlusSign, 53, CarriageReturn, MinusSign, 55, CarriageReturn]);
  }

  // ---------------------------------------------------------------------
  // The packet protocol (SerialDevice.cpp:26-43, 68-102, 167-202).
  // ---------------------------------------------------------------------

  type uint16 = x: int | 0 <= x < 0x1_0000
  type uint32 = x: int | 0 <= x < 0x1_0000_0000

  const StartByte1: byte := 42    // '*'
  const StartByte2: byte := 126   // '~'

  /** The `Command` enumeration: none, lightColor, tempo, chargingAlarmLevel, endOfList, read. */
  const CommandNone: byte := 0
  const CommandLightColor: byte := 1
  const CommandTempo: byte := 2
  const CommandChargingAlarmLevel: byte := 3

  /** The start bytes, then a command, then a length byte that counts the payload after it. */
  predicate WellFramed(p: seq<byte>) {
    |p| >= 4 && p[0] == StartByte1 && p[1] == StartByte2 && p[3] == |p| - 4
  }

  /** The payload of a framed packet. */
  function Payload(p: seq<byte>): (payload: seq<byte>)
    requires WellFramed(p)
    ensures |payload| == p[3]
  {
    p[4..]
  }

  /** The bytes `setLightColor` writes: the colour's low byte, then its high byte. */
  function LightColorPacket(color: uint16): seq<byte> {
    [StartByte1, StartByte2, CommandLightColor, 2, color % 0x100, (color / 0x100) % 0x100]
  }

  /** The bytes `setTempo` writes for the scaled tempo: four bytes, least significant first. */
  function TempoPacket(tempoAsInt: uint32): seq<byte> {
    [StartByte1, StartByte2, CommandTempo, 4,
     tempoAsInt % 0x100, (tempoAsInt / 0x100) % 0x100,
     (tempoAsInt / 0x1_0000) % 0x100, (tempoAsInt / 0x100_0000) % 0x100]
  }

  /** The bytes `setChargingAlarmLevel` writes. */
  function ChargingAlarmLevelPacket(alarmType: byte, chargeLevel: byte): seq<byte> {
    [StartByte1, StartByte2, CommandChargingAlarmLevel, 2, alarmType, chargeLevel]
  }

  /** The colour the handler reads from two payload bytes, low byte first. */
  function LittleEndian16(lo: byte, hi: byte): (v: uint16)
    ensures v % 0x100 == lo && v / 0x100 == hi
  {
    lo + hi * 0x100
  }

  /**
   * The 32-bit integer the tempo handler reads from four payload bytes, low
   * byte first: the value the cast to 32 bits yields.  The source forms the
   * shifted sum in a signed `int`, which overflows when the top byte is 128
   * or more; the model takes the value modulo 2^32 that the cast produces.
   */
  function LittleEndian32(b0: byte, b1: byte, b2: byte, b3: byte): (v: uint32)
    ensures v == b0 + b1 * 0x100 + b2 * 0x1_0000 + b3 * 0x100_0000
    ensures v % 0x100 == b0 && v / 0x100_0000 == b3
  {
    (b0 + b1 * 0x100 + b2 * 0x1_0000 + b3 * 0x100_0000) % 0x1_0000_0000
  }

  /** Every packet the builders emit is framed and its length byte counts its payload. */
  lemma PacketsWellFramed(color: uint16, tempoAsInt: uint32, alarmType: byte, chargeLevel: byte)
    ensures WellFramed(LightColorPacket(color)) && |Payload(LightColorPacket(color))| == 2
    ensures WellFramed(TempoPacket(tempoAsInt)) && |Payload(TempoPacket(tempoAsInt))| == 4
    ensures WellFramed(ChargingAlarmLevelPacket(alarmType, chargeLevel))
    ensures |Payload(ChargingAlarmLevelPacket(alarmType, chargeLevel))| == 2
  {
  }

  /** The light-colour handler decodes the payload of a `setLightColor(c)` packet back to `c`. */
  lemma LightColorRoundTrip(color: uint16)
    ensures var p := LightColorPacket(color);
      LittleEndian16(p[4], p[5]) == color
  {
    var p := LightColorPacket(color);
    assert color == color % 0x100 + (color / 0x100) * 0x100;
  }

  /** The tempo handler decodes the four payload bytes of a `setTempo` packet back to the same integer. */
  lemma TempoRoundTrip(tempoAsInt: uint32)
    ensures var p := TempoPacket(tempoAsInt);
      LittleEndian32(p[4], p[5], p[6], p[7]) == tempoAsInt
  {
    FourBytes(tempoAsInt as nat);
  }

  /** A 32-bit number is the little-endian sum of its four bytes. */
  lemma FourBytes(n: nat)
    requires n < 0x1_0000_0000
    ensures (n % 0x100 + (n / 0x100) % 0x100 * 0x100 + (n / 0x1_0000) % 0x100 * 0x1_0000
             + (n / 0x100_0000) % 0x100 * 0x100_0000) % 0x1_0000_0000 == n
  {
    var q1 := n / 0x100;
    var c1 := q1 / 0x100;
    var c2 := c1 / 0x100;
    var b0, b1, b2 := n % 0x100, q1 % 0x100, c1 % 0x100;
    ByteSplit(n);
    ByteSplit(q1);
    ByteSplit(c1);
    assert n == b0 + b1 * 0x100 + c1 * 0x1_0000;
    assert n == b0 + b1 * 0x100 + b2 * 0x1_0000 + c2 * 0x100_0000;
    DivUnique(n, 0x1_0000, c1, b0 + b1 * 0x100);
    DivUnique(n, 0x100_0000, c2, b0 + b1 * 0x100 + b2 * 0x1_0000);
    assert c2 < 0x100;
  }

  lemma ByteSplit(n: nat)
    ensures n == n % 0x100 + (n / 0x100) * 0x100
  {
  }

  /** Division is determined by any quotient and remainder that fit. */
  lemma DivUnique(n: nat, d: nat, q: nat, r: nat)
    requires d > 0 && n == q * d + r && r < d
    ensures n / d == q
  {
    var q0 := n / d;
    if q0 < q {
      MulStep(q0, q, d);
      assert false;
    } else if q0 > q {
      MulStep(q, q0, d);
      assert false;
    }
  }

  lemma MulStep(a: nat, b: nat, d: nat)
    requires a < b
    ensures (a + 1) * d <= b * d
  {
  }

  /** The alarm handler receives the alarm index and level in the order `setChargingAlarmLevel` sends them. */
  lemma ChargingAlarmLevelRoundTrip(alarmType: byte, chargeLevel: byte)
    ensures var p := ChargingAlarmLevelPacket(alarmType, chargeLevel);
      p[2] == CommandChargingAlarmLevel && Payload(p) == [alarmType, chargeLevel]
  {
  }

  // ---------------------------------------------------------------------
  // The device.
  // ---------------------------------------------------------------------

  class LegacySerialDevice {
    /** `std::stack<Message> messages`; the top is the last element. */
    var messages: seq<Message>
    var m: Message
    var number: seq<byte>
    var halted: bool
    /** Set once the thread reaches its `processSerialPort` task. */
    var isConnected: bool

    /** Whether `serialPortOutput` is open, and everything written to it so far. */
    var hasOutput: bool
    var written: seq<byte>

    /** The data model the handlers store into: the tempo, the light colour, two alarm levels. */
    var tempo: real
    var lightColor: uint16
    const alarmLevels: array<byte>

    ghost predicate Valid()
      reads this
    {
      AllDigits(number) && alarmLevels.Length == 2
    }

    ghost function State(): Parser
      reads this
    {
      Parser(m, number, halted, messages)
    }

    constructor (initial: Message)
      ensures Valid() && fresh(alarmLevels)
      ensures State() == Fresh(initial)
      ensures !hasOutput && written == [] && !isConnected
      ensures tempo == 60.0 && lightColor == 0 && alarmLevels[..] == [0, 0]
    {
      messages, m, number, halted := [], initial, [], false;
      hasOutput, written, isConnected := false, [], false;
      tempo, lightColor := 60.0, 0;
      alarmLevels := new byte[2](_ => 0);
    }

    /** One byte of the parse loop (SerialDevice.cpp:320-341). */
    method Step(c: byte)
      requires Valid()
      modifies this
      ensures Valid() && State() == Transition(old(State()), c)
      ensures hasOutput == old(hasOutput) && written == old(written) && isConnected == old(isConnected)
      ensures tempo == old(tempo) && lightColor == old(lightColor)
    {
      if halted {
        return;
      }
      if IsAxis(c) {
        m := m.(direction := c);
      }
      if c == PlusSign || c == MinusSign {
        m := m.(verse := c);
      }
      if IsDigit(c) {
        number := number + [c];
      }
      if c == CarriageReturn {
        var r := Stoi(number);
        if r.Err? {
          halted := true;
          return;
        }
        m := m.(value := r.value);
        messages := messages + [m];
        number := [];
      }
    }

    /** The loop over one chunk of bytes read from the port (SerialDevice.cpp:282-344). */
    method Feed(bytes: seq<byte>)
      requires Valid()
      modifies this
      ensures Valid() && State() == Decode(old(State()), bytes)
      ensures hasOutput == old(hasOutput) && written == old(written) && isConnected == old(isConnected)
      ensures tempo == old(tempo) && lightColor == old(lightColor)
    {
      var dataIndex := 0;
      while dataIndex < |bytes|
        invariant 0 <= dataIndex <= |bytes|
        invariant Valid()
        invariant Decode(State(), bytes[dataIndex..]) == Decode(old(State()), bytes)
        invariant hasOutput == old(hasOutput) && written == old(written) && isConnected == old(isConnected)
        invariant tempo == old(tempo) && lightColor == old(lightColor)
      {
        assert bytes[dataIndex..][1..] == bytes[dataIndex + 1..];
        Step(bytes[dataIndex]);
        dataIndex := dataIndex + 1;
      }
    }

    /**
     * One pass of the `processSerialPort` task with the bytes one read of at
     * most `kSerialPortBufferLen` returned (SerialDevice.cpp:254-345).
     */
    method ProcessSerialPort(chunk: seq<byte>)
      requires Valid()
      requires |chunk| <= 256
      modifies this
      ensures Valid() && isConnected
      ensures State() == Decode(old(State()), chunk)
      ensures hasOutput == old(hasOutput) && written == old(written)
      ensures tempo == old(tempo) && lightColor == old(lightColor)
    {
      isConnected := true;
      Feed(chunk);
    }

    method SetLightColor(color: uint16)
      modifies this`written
      ensures written == old(written) + if hasOutput then LightColorPacket(color) else []
    {
      if !hasOutput {
        return;
      }
      written := written + LightColorPacket(color);
    }

    /** `setTempo` after its float has been scaled to the integer it sends. */
    method SetTempo(tempoAsInt: uint32)
      modifies this`written
      ensures written == old(written) + if hasOutput then TempoPacket(tempoAsInt) else []
    {
      if !hasOutput {
        return;
      }
      written := written + TempoPacket(tempoAsInt);
    }

    method SetChargingAlarmLevel(alarmType: byte, chargeLevel: byte)
      modifies this`written
      ensures written == old(written) + if hasOutput then ChargingAlarmLevelPacket(alarmType, chargeLevel) else []
    {
      if !hasOutput {
        return;
      }
      written := written + ChargingAlarmLevelPacket(alarmType, chargeLevel);
    }

    /** Stores the tempo, in ten-thousandths, from exactly four payload bytes. */
    method HandleTempoCommand(data: seq<byte>, dataSize: int)
      requires dataSize <= |data|
      modifies this`tempo
      ensures tempo == if dataSize == 4 then LittleEndian32(data[0], data[1], data[2], data[3]) as real / 10000.0
                       else old(tempo)
    {
      if dataSize != 4 {
        return;
      }
      var tempoAsInt := LittleEndian32(data[0], data[1], data[2], data[3]);
      tempo := tempoAsInt as real / 10000.0;
    }

    /** Stores the light colour from exactly two payload bytes. */
    method HandleLightColorCommand(data: seq<byte>, dataSize: int)
      requires dataSize <= |data|
      modifies this`lightColor
      ensures lightColor == if dataSize == 2 then LittleEndian16(data[0], data[1]) else old(lightColor)
    {
      if dataSize != 2 {
        return;
      }
      lightColor := LittleEndian16(data[0], data[1]);
    }

    /** Stores level `data[1]` in alarm slot `data[0]`, for a two-byte payload naming slot 0 or 1. */
    method HandleChargingAlarmLevelCommand(data: seq<byte>, dataSize: int)
      requires Valid() && dataSize <= |data|
      modifies alarmLevels
      ensures alarmLevels[..] == if dataSize == 2 && data[0] < 2 then old(alarmLevels[..])[data[0] := data[1]]
                                 else old(alarmLevels[..])
    {
      if dataSize != 2 {
        return;
      }
      var alarmIndex := data[0];
      if alarmIndex >= 2 {
        return;
      }
      alarmLevels[alarmIndex] := data[1];
    }

    /** Dispatches on the command code; any code but tempo, light colour and alarm changes nothing. */
    method HandleCommand(command: byte, data: seq<byte>, dataSize: int)
      requires Valid() && dataSize <= |data|
      modifies this`tempo, this`lightColor, alarmLevels
      ensures tempo == if command == CommandTempo && dataSize == 4
                       then LittleEndian32(data[0], data[1], data[2], data[3]) as real / 10000.0
                       else old(tempo)
      ensures lightColor == if command == CommandLightColor && dataSize == 2
                            then LittleEndian16(data[0], data[1]) else old(lightColor)
      ensures alarmLevels[..] == if command == CommandChargingAlarmLevel && dataSize == 2 && data[0] < 2
                                 then old(alarmLevels[..])[data[0] := data[1]] else old(alarmLevels[..])
    {
      if command == CommandTempo {
        HandleTempoCommand(data, dataSize);
      } else if command == CommandLightColor {
        HandleLightColorCommand(data, dataSize);
      } else if command == CommandChargingAlarmLevel {
        HandleChargingAlarmLevelCommand(data, dataSize);
      }
    }
  }

  /**
   * Handing the command byte and payload of each packet the builders emit to
   * `handleCommand` stores exactly the value that was sent.
   */
  method Loopback(d: LegacySerialDevice, color: uint16, tempoAsInt: uint32, alarmType: byte, chargeLevel: byte)
    requires d.Valid()
    modifies d, d.alarmLevels
    ensures d.lightColor == color
    ensures d.tempo == tempoAsInt as real / 10000.0
    ensures d.alarmLevels[..] == if alarmType < 2 then old(d.alarmLevels[..])[alarmType := chargeLevel]
                                 else old(d.alarmLevels[..])
  {
    PacketsWellFramed(color, tempoAsInt, alarmType, chargeLevel);
    var p := LightColorPacket(color);
    LightColorRoundTrip(color);
    d.HandleCommand(p[2], Payload(p), p[3]);
    p := TempoPacket(tempoAsInt);
    TempoRoundTrip(tempoAsInt);
    d.HandleCommand(p[2], Payload(p), p[3]);
    p := ChargingAlarmLevelPacket(alarmType, chargeLevel);
    d.HandleCommand(p[2], Payload(p), p[3]);
  }
}

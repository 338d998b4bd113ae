/**
 * The flag-guarded ASCII telemetry decoder of Source/SerialDevice.cpp.
 *
 * `run()` declares its parser state (`Message m`, the digit string `number`
 * and the flag `foundMessage`) once, before the thread loop, so that state
 * lives across every chunk read from the port.  Completed messages are pushed
 * onto the device's `std::stack<Message> messages`, modelled here as a
 * sequence whose LAST element is the top of the stack.
 */
module SerialDecoder {
  import opened Wrappers
  import opened Messages

  /**
   * Everything one byte can change: the message under construction, the
   * accumulated digits, the guard flag, the message stack, and `halted`,
   * which records that std::stoi threw out of `run()` and ended the thread.
   */
  datatype Parser = Parser(m: Message, number: seq<byte>, foundMessage: bool, halted: bool, messages: seq<Message>)

  /** The state `run()` starts from: `m` is uninitialised, so it is whatever `initial` holds. */
  function Fresh(initial: Message): Parser {
    Parser(initial, [], false, false, [])
  }

  /** Pushes `m` with the given value, clears the digits and closes the message. */
  function Complete(p: Parser, value: int): (q: Parser)
    ensures q.messages == p.messages + [p.m.(value := value)]
    ensures q.m == p.m.(value := value)
    ensures q.number == [] && !q.foundMessage && q.halted == p.halted
  {
    var done := p.m.(value := value);
    p.(m := done, messages := p.messages + [done], number := [], foundMessage := false)
  }

  /** One iteration of the parse loop (Source/SerialDevice.cpp:212-244). */
  function Transition(p: Parser, c: byte): (q: Parser)
    requires AllDigits(p.number)
    ensures AllDigits(q.number)
    ensures |p.messages| <= |q.messages| <= |p.messages| + 1
    ensures q.messages[..|p.messages|] == p.messages
    ensures |q.messages| == |p.messages| + 1 ==> c == CarriageReturn && p.foundMessage && !p.halted
    ensures p.halted ==> q == p
  {
    if p.halted then p
    else
      // an axis byte opens a message but leaves the digits alone
      var p1 := if IsAxis(c) then p.(m := p.m.(direction := c), foundMessage := true) else p;
      // `c == PLUS_SIGN || c == MINUS_SIGN && foundMessage` groups as `+ || (- && found)`
      var p2 := if c == PlusSign || (c == MinusSign && p1.foundMessage) then p1.(m := p1.m.(verse := c)) else p1;
      var p3 := if IsDigit(c) && p2.foundMessage then p2.(number := p2.number + [c]) else p2;
      if c == CarriageReturn && p3.foundMessage then
        if p3.number == [] then Complete(p3, 0)
        else
          match Stoi(p3.number)
          case Ok(v) => Complete(p3, v)
          case Err(_) => p3.(halted := true)
      else p3
  }

  /** The number of occurrences of `c` in `bs`. */
  function Count(bs: seq<byte>, c: byte): (n: nat)
    ensures n <= |bs|
  {
    if bs == [] then 0 else (if bs[0] == c then 1 else 0) + Count(bs[1..], c)
  }

  /** The parse loop folded over a sequence of bytes, first byte first. */
  function Decode(p: Parser, bs: seq<byte>): (q: Parser)
    requires AllDigits(p.number)
    ensures AllDigits(q.number)
    ensures |p.messages| <= |q.messages| <= |p.messages| + Count(bs, CarriageReturn)
    ensures q.messages[..|p.messages|] == p.messages
    decreases |bs|
  {
    if bs == [] then p else Decode(Transition(p, bs[0]), bs[1..])
  }

  /** A successful reopen clears the guard flag and nothing else (Source/SerialDevice.cpp:140-143). */
  function Reopened(p: Parser): Parser {
    p.(foundMessage := false)
  }

  // ---------------------------------------------------------------------
  // The device: the decoder state as fields of the serial thread's object.
  // ---------------------------------------------------------------------

  class SerialDevice {
    /** `std::stack<Message> messages`; the top is the last element. */
    var messages: seq<Message>
    var isConnected: bool
    var m: Message
    var number: seq<byte>
    var foundMessage: bool
    var halted: bool

    ghost predicate Valid()
      reads this
    {
      AllDigits(number)
    }

    ghost function State(): Parser
      reads this
    {
      Parser(m, number, foundMessage, halted, messages)
    }

    constructor (initial: Message)
      ensures Valid() && State() == Fresh(initial) && !isConnected
    {
      messages, isConnected := [], false;
      m, number, foundMessage, halted := initial, [], false, false;
    }

    /** One byte of the parse loop (Source/SerialDevice.cpp:212-244). */
    method Step(c: byte)
      requires Valid()
      modifies this
      ensures Valid() && State() == Transition(old(State()), c)
      ensures isConnected == old(isConnected)
    {
      if halted {
        return;
      }
      if IsAxis(c) {
        foundMessage := true;
        m := m.(direction := c);
      }
      if c == PlusSign || (c == MinusSign && foundMessage) {
        m := m.(verse := c);
      }
      if IsDigit(c) && foundMessage {
        number := number + [c];
      }
      if c == CarriageReturn && foundMessage {
        if number == [] {
          m := m.(value := 0);
        } else {
          var r := Stoi(number);
          if r.Err? {
            // the exception leaves run() and the thread
            halted := true;
            return;
          }
          m := m.(value := r.value);
        }
        messages := messages + [m];
        number := [];
        foundMessage := false;
      }
    }

    /** The loop over one chunk of bytes read from the port (Source/SerialDevice.cpp:199-248). */
    method Feed(bytes: seq<byte>)
      requires Valid()
      modifies this
      ensures Valid() && State() == Decode(old(State()), bytes)
      ensures isConnected == old(isConnected)
    {
      var dataIndex := 0;
      while dataIndex < |bytes|
        invariant 0 <= dataIndex <= |bytes|
        invariant Valid()
        invariant Decode(State(), bytes[dataIndex..]) == Decode(old(State()), bytes)
        invariant isConnected == old(isConnected)
      {
        assert bytes[dataIndex..][1..] == bytes[dataIndex + 1..];
        Step(bytes[dataIndex]);
        dataIndex := dataIndex + 1;
      }
    }

    /**
     * One pass of the `processSerialPort` task with the bytes one read returned
     * (Source/SerialDevice.cpp:168-250): it marks the device connected and parses the chunk.
     */
    method ProcessSerialPort(chunk: seq<byte>)
      requires Valid()
      requires |chunk| <= 256
      modifies this
      ensures Valid() && isConnected
      ensures State() == Decode(old(State()), chunk)
    {
      isConnected := true;
      Feed(chunk);
    }

    /** A successful `openSerialPort()` in `run()` (Source/SerialDevice.cpp:140-143). */
    method PortOpened()
      requires Valid()
      modifies this`foundMessage
      ensures Valid() && State() == Reopened(old(State()))
    {
      foundMessage := false;
    }
  }

  // ---------------------------------------------------------------------
  // Properties of the decoder.
  // ---------------------------------------------------------------------

  /** State persists across reads: decoding `a` then `b` is decoding `a + b`. */
  lemma {:induction false} DecodeAppend(p: Parser, a: seq<byte>, b: seq<byte>)
    requires AllDigits(p.number)
    ensures Decode(p, a + b) == Decode(Decode(p, a), b)
    decreases |a|
  {
    if a != [] {
      assert (a + b)[0] == a[0];
      assert (a + b)[1..] == a[1..] + b;
      DecodeAppend(Transition(p, a[0]), a[1..], b);
    } else {
      assert a + b == b;
    }
  }

  /** Decoding a non-empty stream is a transition on its first byte followed by the rest. */
  lemma DecodeCons(p: Parser, c: byte, rest: seq<byte>)
    requires AllDigits(p.number)
    ensures Decode(p, [c] + rest) == Decode(Transition(p, c), rest)
  {
    assert ([c] + rest)[1..] == rest;
  }

  /** Splitting a stream at any two chunk boundaries changes nothing. */
  lemma DecodeInThreeChunks(p: Parser, a: seq<byte>, b: seq<byte>, c: seq<byte>)
    requires AllDigits(p.number)
    ensures Decode(p, a + b + c) == Decode(Decode(Decode(p, a), b), c)
  {
    DecodeAppend(p, a + b, c);
    DecodeAppend(p, a, b);
  }

  /** Bytes outside the alphabet change no state at all. */
  lemma OtherBytesIgnored(p: Parser, c: byte)
    requires AllDigits(p.number)
    requires !IsAxis(c) && c != PlusSign && c != MinusSign && !IsDigit(c) && c != CarriageReturn
    ensures Transition(p, c) == p
  {
  }

  /** An axis byte sets the direction and opens a message, keeping the digits already read. */
  lemma AxisByteOpensMessage(p: Parser, c: byte)
    requires AllDigits(p.number) && !p.halted && IsAxis(c)
    ensures Transition(p, c) == p.(m := p.m.(direction := c), foundMessage := true)
  {
  }

  /** A digit is appended exactly when a message is open. */
  lemma DigitAppendedOnlyInMessage(p: Parser, c: byte)
    requires AllDigits(p.number) && !p.halted && IsDigit(c)
    ensures Transition(p, c) == if p.foundMessage then p.(number := p.number + [c]) else p
  {
  }

  /** '+' sets the sign even outside a message; '-' only inside one. */
  lemma SignBytes(p: Parser)
    requires AllDigits(p.number) && !p.halted
    ensures Transition(p, PlusSign) == p.(m := p.m.(verse := PlusSign))
    ensures Transition(p, MinusSign) == if p.foundMessage then p.(m := p.m.(verse := MinusSign)) else p
  {
  }

  /** A terminator outside a message changes nothing. */
  lemma StrayTerminatorIgnored(p: Parser)
    requires AllDigits(p.number) && !p.foundMessage
    ensures Transition(p, CarriageReturn) == p
  {
  }

  /**
   * A terminator inside a message pushes exactly one message onto the top of
   * the stack, valued at the digits read (0 if none), unless std::stoi throws.
   * The pushed message stays the current one, so its direction and sign carry
   * over to the next message.
   */
  lemma TerminatorPushesMessage(p: Parser)
    requires AllDigits(p.number) && p.foundMessage && !p.halted
    requires p.number == [] || DecimalValue(p.number) <= IntMax
    ensures var q := Transition(p, CarriageReturn);
      && q.messages == p.messages + [p.m.(value := if p.number == [] then 0 else DecimalValue(p.number))]
      && q.m == p.m.(value := if p.number == [] then 0 else DecimalValue(p.number))
      && q.number == [] && !q.foundMessage && !q.halted
  {
  }

  /** A digit string above INT_MAX makes std::stoi throw, which ends the thread. */
  lemma OverflowHalts(p: Parser)
    requires AllDigits(p.number) && p.foundMessage && !p.halted
    requires p.number != [] && DecimalValue(p.number) > IntMax
    ensures Transition(p, CarriageReturn) == p.(halted := true)
  {
  }

  /** Once halted, no further byte changes the state. */
  lemma {:induction false} HaltedStaysHalted(p: Parser, bs: seq<byte>)
    requires AllDigits(p.number) && p.halted
    ensures Decode(p, bs) == p
  {
    if bs != [] {
      HaltedStaysHalted(Transition(p, bs[0]), bs[1..]);
    }
  }

  /** "G+042\r" yields exactly the message {G, '+', 42}. */
  lemma DecodeExample(initial: Message)
    ensures Decode(Fresh(initial), [XAxis, PlusSign, 48, 52, 50, CarriageReturn]).messages
      == [Message(XAxis, PlusSign, 42)]
  {
    var p0 := Fresh(initial);
    var p1 := p0.(m := initial.(direction := XAxis), foundMessage := true);
    var p2 := p1.(m := p1.m.(verse := PlusSign));
    var p3 := p2.(number := [48]);
    var p4 := p3.(number := [48, 52]);
    var p5 := p4.(number := [48, 52, 50]);
    assert [48, 52, 50][..2] == [48, 52] && [48, 52][..1] == [48] && [48][..0] == [];
    assert DecimalValue([48, 52, 50]) == 42;
    var p6 := Complete(p5, 42);
    assert Transition(p0, XAxis) == p1;
    assert Transition(p1, PlusSign) == p2;
    assert Transition(p2, 48) == p3;
    assert Transition(p3, 52) == p4;
    assert Transition(p4, 50) == p5;
    assert Transition(p5, CarriageReturn) == p6;
    DecodeCons(p5, CarriageReturn, []);
    DecodeCons(p4, 50, [CarriageReturn]);
    DecodeCons(p3, 52, [50, CarriageReturn]);
    DecodeCons(p2, 48, [52, 50, CarriageReturn]);
    DecodeCons(p1, PlusSign, [48, 52, 50, CarriageReturn]);
    DecodeCons(p0, XAxis, [PlusSign, 48, 52, 50, CarriageReturn]);
  }

  /** "\r" alone yields no message. */
  lemma LoneTerminatorExample(initial: Message)
    ensures Decode(Fresh(initial), [CarriageReturn]).messages == []
  {
  }

  /**
   * "G12B34\r" yields one message: the second axis byte overwrites the
   * direction but keeps the digits, so the value is 1234.
   */
  lemma AxisKeepsDigitsExample(initial: Message)
    ensures Decode(Fresh(initial), [XAxis, 49, 50, YAxis, 51, 52, CarriageReturn]).messages
      == [Message(YAxis, initial.verse, 1234)]
  {
    var open := Parser(initial.(direction := XAxis), [49, 50], true, false, []);
    OpenMessageExample(initial);
    SecondAxisKeepsDigits(open);
    DecodeAppend(Fresh(initial), [XAxis, 49, 50], [YAxis, 51, 52, CarriageReturn]);
    assert [XAxis, 49, 50] + [YAxis, 51, 52, CarriageReturn] == [XAxis, 49, 50, YAxis, 51, 52, CarriageReturn];
  }

  /** "B34\r" on an open message holding "12" pushes a Y message of value 1234. */
  lemma SecondAxisKeepsDigits(p: Parser)
    requires p.number == [49, 50] && p.foundMessage && !p.halted && p.messages == []
    ensures Decode(p, [YAxis, 51, 52, CarriageReturn]).messages == [p.m.(direction := YAxis, value := 1234)]
  {
    var p1 := p.(m := p.m.(direction := YAxis));
    var p2 := p1.(number := [49, 50, 51]);
    var p3 := p2.(number := [49, 50, 51, 52]);
    DigitsOneToFour();
    var p4 := Complete(p3, 1234);
    assert Transition(p, YAxis) == p1;
    assert Transition(p1, 51) == p2;
    assert Transition(p2, 52) == p3;
    assert Transition(p3, CarriageReturn) == p4;
    DecodeCons(p3, CarriageReturn, []);
    DecodeCons(p2, 52, [CarriageReturn]);
    DecodeCons(p1, 51, [52, CarriageReturn]);
    DecodeCons(p, YAxis, [51, 52, CarriageReturn]);
  }

  lemma DigitsOneToFour()
    ensures DecimalValue([49, 50, 51, 52]) == 1234
  {
    assert [49, 50, 51, 52][..3] == [49, 50, 51] && [49, 50, 51][..2] == [49, 50];
    assert [49, 50][..1] == [49] && [49][..0] == [];
  }

  /**
   * Neither direction nor verse is ever reset: a message with no sign byte
   * carries the sign of the previous one ("G-5\r" then "B7\r").
   */
  lemma SignInheritedExample(initial: Message)
    ensures Decode(Fresh(initial), [XAxis, MinusSign, 53, CarriageReturn, YAxis, 55, CarriageReturn]).messages
      == [Message(XAxis, MinusSign, 5), Message(YAxis, MinusSign, 7)]
  {
    NegativeFive(initial);
    var q := Decode(Fresh(initial), [XAxis, MinusSign, 53, CarriageReturn]);
    UnsignedSeven(q);
    DecodeAppend(Fresh(initial), [XAxis, MinusSign, 53, CarriageReturn], [YAxis, 55, CarriageReturn]);
    assert [XAxis, MinusSign, 53, CarriageReturn] + [YAxis, 55, CarriageReturn]
        == [XAxis, MinusSign, 53, CarriageReturn, YAxis, 55, CarriageReturn];
  }

  /** "G-5\r" on a fresh parser pushes {G, '-', 5} and leaves that message as the current one. */
  lemma NegativeFive(initial: Message)
    ensures Decode(Fresh(initial), [XAxis, MinusSign, 53, CarriageReturn])
      == Parser(Message(XAxis, MinusSign, 5), [], false, false, [Message(XAxis, MinusSign, 5)])
  {
    var p0 := Fresh(initial);
    var p1 := p0.(m := initial.(direction := XAxis), foundMessage := true);
    var p2 := p1.(m := p1.m.(verse := MinusSign));
    var p3 := p2.(number := [53]);
    assert [53][..0] == [] && DecimalValue([53]) == 5;
    var p4 := Complete(p3, 5);
    assert Transition(p0, XAxis) == p1;
    assert Transition(p1, MinusSign) == p2;
    assert Transition(p2, 53) == p3;
    assert Transition(p3, CarriageReturn) == p4;
    DecodeCons(p3, CarriageReturn, []);
    DecodeCons(p2, 53, [CarriageReturn]);
    DecodeCons(p1, MinusSign, [53, CarriageReturn]);
    DecodeCons(p0, XAxis, [MinusSign, 53, CarriageReturn]);
  }

  /** "B7\r" after that pushes {B, '-', 7}: the sign comes from the previous message. */
  lemma UnsignedSeven(p: Parser)
    requires p == Parser(Message(XAxis, MinusSign, 5), [], false, false, [Message(XAxis, MinusSign, 5)])
    ensures Decode(p, [YAxis, 55, CarriageReturn]).messages
      == [Message(XAxis, MinusSign, 5), Message(YAxis, MinusSign, 7)]
  {
    var p1 := p.(m := p.m.(direction := YAxis), foundMessage := true);
    var p2 := p1.(number := [55]);
    assert [55][..0] == [] && DecimalValue([55]) == 7;
    var p3 := Complete(p2, 7);
    assert Transition(p, YAxis) == p1;
    assert Transition(p1, 55) == p2;
    assert Transition(p2, CarriageReturn) == p3;
    DecodeCons(p2, CarriageReturn, []);
    DecodeCons(p1, 55, [CarriageReturn]);
    DecodeCons(p, YAxis, [55, CarriageReturn]);
  }

  /** "G12" opens an X message holding the digits "12". */
  lemma OpenMessageExample(initial: Message)
    ensures Decode(Fresh(initial), [XAxis, 49, 50])
      == Parser(initial.(direction := XAxis), [49, 50], true, false, [])
  {
    var p0 := Fresh(initial);
    var p1 := p0.(m := initial.(direction := XAxis), foundMessage := true);
    var p2 := p1.(number := [49]);
    var p3 := p2.(number := [49, 50]);
    assert Transition(p0, XAxis) == p1;
    assert Transition(p1, 49) == p2;
    assert Transition(p2, 50) == p3;
    DecodeCons(p2, 50, []);
    DecodeCons(p1, 49, [50]);
    DecodeCons(p0, XAxis, [49, 50]);
  }

  /**
   * A reopen clears the guard flag but not the digits: "G12", a reconnect,
   * then "B3\r" yields the single value 123.
   */
  lemma ReopenKeepsDigitsExample(initial: Message)
    ensures Decode(Reopened(Decode(Fresh(initial), [XAxis, 49, 50])), [YAxis, 51, CarriageReturn]).messages
      == [Message(YAxis, initial.verse, 123)]
  {
    OpenMessageExample(initial);
    var r := Parser(initial.(direction := XAxis), [49, 50], false, false, []);
    var r1 := r.(m := r.m.(direction := YAxis), foundMessage := true);
    var r2 := r1.(number := [49, 50, 51]);
    assert [49, 50, 51][..2] == [49, 50] && [49, 50][..1] == [49] && [49][..0] == [];
    assert DecimalValue([49, 50, 51]) == 123;
    var r3 := Complete(r2, 123);
    assert Transition(r, YAxis) == r1;
    assert Transition(r1, 51) == r2;
    assert Transition(r2, CarriageReturn) == r3;
    DecodeCons(r2, CarriageReturn, []);
    DecodeCons(r1, 51, [CarriageReturn]);
    DecodeCons(r, YAxis, [51, CarriageReturn]);
  }
}

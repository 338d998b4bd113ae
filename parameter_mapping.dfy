/**
 * The parameter-mapping runtime of Source/PluginEditor.cpp: the arm/assign
 * state machine behind the "MAP X" / "MAP Y" buttons and the mapping buttons
 * (`buttonClicked`, `mapButtonClicked`), and the control-rate `timerCallback`
 * that drains the telemetry stack and moves the slider mapped on the axis of
 * the batch's last message.
 */
module ParameterMapping {
  import opened Wrappers
  import opened Messages
  import opened Controls
  import opened Reals
  import SerialDecoder

  // ---------------------------------------------------------------------
  // Target arithmetic.
  // ---------------------------------------------------------------------

  /**
   * What the model assumes of the C library's `log`: log(1) = 0 and it is
   * strictly increasing on the positive reals.
   */
  ghost predicate IsLogarithm(ln: real -> real) {
    ln(1.0) == 0.0 && forall x, y :: 0.0 < x < y ==> ln(x) < ln(y)
  }

  /** `logScale(v) = log(1 + 20 v) / log(21)`: 0 maps to 0, 1 maps to 1, [0, 1] into [0, 1]. */
  function LogScale(ln: real -> real, value: real): (r: real)
    requires IsLogarithm(ln) && value >= 0.0
    ensures value == 0.0 ==> r == 0.0
    ensures value == 1.0 ==> r == 1.0
    ensures 0.0 <= r && (value <= 1.0 ==> r <= 1.0)
    ensures value > 0.0 ==> r > 0.0
  {
    assert ln(1.0) < ln(21.0);
    assert value > 0.0 ==> ln(1.0) < ln(1.0 + value * 20.0);
    assert value < 1.0 ==> ln(1.0 + value * 20.0) < ln(21.0);
    ln(1.0 + value * 20.0) / ln(21.0)
  }

  /** The centre of a slider's range, `(max + min) / 2`. */
  function Middle(range: Range): real {
    (range.max + range.min) / 2.0
  }

  /** The linear target `middle + (max - middle) * mean / 100`. */
  function LinearTarget(range: Range, mean: real): real {
    Middle(range) + (range.max - Middle(range)) * (mean / 100.0)
  }

  /**
   * The value written to a mapped slider: logarithmic below the centre for the
   * frequency sliders when the last message's sign is '-', linear otherwise.
   */
  function Target(s: Slider, range: Range, mean: real, verse: byte, ln: real -> real): real
    requires IsLogarithm(ln)
  {
    if IsFrequency(s) && verse == MinusSign then
      Middle(range) + (range.max - Middle(range)) * -LogScale(ln, Abs(mean) / 100.0)
    else
      LinearTarget(range, mean)
  }

  /** A mean of 0 gives the centre of the range and a mean of +100 / -100 its maximum / minimum. */
  lemma LinearTargetLandmarks(range: Range)
    ensures LinearTarget(range, 0.0) == (range.min + range.max) / 2.0
    ensures LinearTarget(range, 100.0) == range.max
    ensures LinearTarget(range, -100.0) == range.min
  {
  }

  /** The logarithmic branch also maps 0 to the centre and 100 to the minimum. */
  lemma LogTargetLandmarks(s: Slider, range: Range, ln: real -> real)
    requires IsLogarithm(ln) && IsFrequency(s)
    ensures Target(s, range, 0.0, MinusSign, ln) == Middle(range)
    ensures Target(s, range, 100.0, MinusSign, ln) == range.min
    ensures Target(s, range, -100.0, MinusSign, ln) == range.min
  {
    assert Abs(100.0) / 100.0 == 1.0 && Abs(-100.0) / 100.0 == 1.0;
  }

  /** A mean within [-100, 100] keeps every target inside the slider's range. */
  lemma TargetInRange(s: Slider, range: Range, mean: real, verse: byte, ln: real -> real)
    requires IsLogarithm(ln) && range.min <= range.max
    requires -100.0 <= mean <= 100.0
    ensures range.min <= Target(s, range, mean, verse, ln) <= range.max
  {
    if IsFrequency(s) && verse == MinusSign {
      assert 0.0 <= Abs(mean) / 100.0 <= 1.0;
      var t := LogScale(ln, Abs(mean) / 100.0);
      CentredInRange(range, -t);
    } else {
      CentredInRange(range, mean / 100.0);
    }
  }

  /** `middle + (max - middle) * t` stays inside the range for every `t` in [-1, 1]. */
  lemma CentredInRange(range: Range, t: real)
    requires range.min <= range.max && -1.0 <= t <= 1.0
    ensures range.min <= Middle(range) + (range.max - Middle(range)) * t <= range.max
  {
    var half := range.max - Middle(range);
    assert Middle(range) - half == range.min;
    ScaleWithin(half, t);
    assert range.min <= Middle(range) + half * t <= range.max;
  }

  lemma ScaleWithin(half: real, t: real)
    requires half >= 0.0 && -1.0 <= t <= 1.0
    ensures -half <= half * t <= half
  {
    assert half * (1.0 - t) == half - half * t && half * (1.0 - t) >= 0.0;
    assert half * (1.0 + t) == half + half * t && half * (1.0 + t) >= 0.0;
  }

  /** For the cutoff slider's declared range [20, 20000] the target never leaves it for |mean| <= 100. */
  lemma CutoffTargetInRange(mean: real, verse: byte, ln: real -> real)
    requires IsLogarithm(ln) && -100.0 <= mean <= 100.0
    ensures 20.0 <= Target(Cutoff, DeclaredRange(Cutoff).value, mean, verse, ln) <= 20000.0
  {
    TargetInRange(Cutoff, DeclaredRange(Cutoff).value, mean, verse, ln);
  }

  // ---------------------------------------------------------------------
  // Draining the telemetry stack.
  // ---------------------------------------------------------------------

  /** `messages_to_pop`: the most messages one tick consumes. */
  const MessagesToPop: nat := 50

  /** A message's contribution to the mean: its value, negated for '-'. */
  function SignedValue(m: Message): int {
    if m.verse == MinusSign then -m.value else m.value
  }

  function SignedSum(s: seq<Message>): int {
    if s == [] then 0 else SignedValue(s[0]) + SignedSum(s[1..])
  }

  /** How many messages one tick pops from a stack of `n`. */
  function BatchSize(n: nat): (k: nat)
    ensures k <= n && k <= MessagesToPop
    ensures k == n || k == MessagesToPop
  {
    if n < MessagesToPop then n else MessagesToPop
  }

  /**
   * The messages one tick pops, bottom first: the top of the stack (the
   * freshest message) is popped first, `Batch(stack)[0]` last.
   */
  function Batch(stack: seq<Message>): (b: seq<Message>)
    ensures |b| == BatchSize(|stack|)
    ensures stack == stack[..|stack| - |b|] + b
  {
    stack[|stack| - BatchSize(|stack|)..]
  }

  /** What remains on the stack after one tick. */
  function Remaining(stack: seq<Message>): seq<Message> {
    stack[..|stack| - BatchSize(|stack|)]
  }

  /** A float that is either a real number or NaN, the result of 0/0. */
  datatype Reading = Finite(r: real) | NaN

  /** `mean_value / (float)i`: the signed sum over the count, NaN when nothing was popped. */
  function Mean(batch: seq<Message>): (r: Reading)
    ensures r.NaN? <==> batch == []
  {
    if batch == [] then NaN else Finite(SignedSum(batch) as real / |batch| as real)
  }

  /** The message left in `m` after the loop: the last popped, or the uninitialised local. */
  function LastPopped(stack: seq<Message>, uninitialised: Message): Message {
    if BatchSize(|stack|) == 0 then uninitialised else Batch(stack)[0]
  }

  /** A `setValue` call on a mapped slider. */
  datatype SliderWrite = SliderWrite(slider: Slider, value: Reading)

  function TargetReading(s: Slider, range: Range, mean: Reading, verse: byte, ln: real -> real): Reading
    requires IsLogarithm(ln)
  {
    match mean
    case NaN => NaN
    case Finite(x) => Finite(Target(s, range, x, verse, ln))
  }

  /** The write one tick performs: to `param1` for an X message, to `param2` for a Y message. */
  function TickWrite(param1: Option<Slider>, param2: Option<Slider>, last: Message, mean: Reading,
                     range: Slider -> Range, ln: real -> real): (w: Option<SliderWrite>)
    requires IsLogarithm(ln)
    ensures w.Some? ==>
              || (last.direction == XAxis && param1 == Some(w.value.slider))
              || (last.direction == YAxis && param2 == Some(w.value.slider))
    ensures w.None? <==> !(param1.Some? && last.direction == XAxis) && !(param2.Some? && last.direction == YAxis)
  {
    if param1.Some? && last.direction == XAxis then
      Some(SliderWrite(param1.value, TargetReading(param1.value, range(param1.value), mean, last.verse, ln)))
    else if param2.Some? && last.direction == YAxis then
      Some(SliderWrite(param2.value, TargetReading(param2.value, range(param2.value), mean, last.verse, ln)))
    else
      None
  }

  /** With every value in [0, bound], the signed sum lies within `|s| * bound` of zero. */
  lemma {:induction false} SignedSumBound(s: seq<Message>, bound: nat)
    requires forall i :: 0 <= i < |s| ==> 0 <= s[i].value <= bound
    ensures -(|s| * bound) <= SignedSum(s) <= |s| * bound
  {
    if s != [] {
      SignedSumBound(s[1..], bound);
      assert (|s| - 1) * bound + bound == |s| * bound;
    }
  }

  /** Values of at most 100 give a mean within [-100, 100]. */
  lemma MeanBound(batch: seq<Message>)
    requires batch != []
    requires forall i :: 0 <= i < |batch| ==> 0 <= batch[i].value <= 100
    ensures -100.0 <= Mean(batch).r <= 100.0
  {
    SignedSumBound(batch, 100);
    var n := |batch| as real;
    var total := SignedSum(batch) as real;
    assert -(n * 100.0) <= total <= n * 100.0;
    assert Mean(batch).r == total / n;
  }

  /**
   * End to end: when every message a tick pops has a value of at most 100,
   * whatever it writes to a slider lies within that slider's range.
   */
  lemma TickWriteInRange(stack: seq<Message>, uninitialised: Message, param1: Option<Slider>, param2: Option<Slider>,
                         range: Slider -> Range, ln: real -> real, s: Slider, v: real)
    requires IsLogarithm(ln)
    requires forall t :: range(t).min <= range(t).max
    requires forall i :: 0 <= i < |Batch(stack)| ==> 0 <= Batch(stack)[i].value <= 100
    requires TickWrite(param1, param2, LastPopped(stack, uninitialised), Mean(Batch(stack)), range, ln)
             == Some(SliderWrite(s, Finite(v)))
    ensures range(s).min <= v <= range(s).max
  {
    MeanBound(Batch(stack));
    TargetInRange(s, range(s), Mean(Batch(stack)).r, LastPopped(stack, uninitialised).verse, ln);
  }

  /** The message pushed last is the first one a tick pops, and nothing below the batch is touched. */
  lemma FreshestPoppedFirst(stack: seq<Message>, m: Message)
    ensures Batch(stack + [m])[|Batch(stack + [m])| - 1] == m
    ensures Remaining(stack + [m]) + Batch(stack + [m]) == stack + [m]
  {
  }

  // ---------------------------------------------------------------------
  // The editor's mapping state.
  // ---------------------------------------------------------------------

  /** The buttons `buttonClicked` hears: "MAP X", "MAP Y", and each mapping button. */
  datatype EditorButton = Param1Button | Param2Button | Mapping(b: MapButton)

  class Editor {
    /** Whether "MAP X" / "MAP Y" is armed, waiting for a mapping button. */
    var mapParameter1: bool
    var mapParameter2: bool
    /** The mapping button chosen for each axis. */
    var mapButton1: Option<MapButton>
    var mapButton2: Option<MapButton>
    /** The slider each axis drives. */
    var param1: Option<Slider>
    var param2: Option<Slider>

    /** Each axis drives its button's slider, and at most one axis is armed. */
    ghost predicate Valid()
      reads this
    {
      && param1 == SliderOf(mapButton1)
      && param2 == SliderOf(mapButton2)
      && !(mapParameter1 && mapParameter2)
    }

    constructor ()
      ensures Valid()
      ensures !mapParameter1 && !mapParameter2
      ensures mapButton1 == None && mapButton2 == None && param1 == None && param2 == None
    {
      param1, param2 := None, None;
      mapParameter1, mapParameter2 := false, false;
      mapButton1, mapButton2 := None, None;
    }

    /** "MAP X" arms X and disarms Y, "MAP Y" the reverse; a mapping button changes nothing here. */
    method ButtonClicked(button: EditorButton)
      requires Valid()
      modifies this`mapParameter1, this`mapParameter2
      ensures Valid()
      ensures button == Param1Button ==> mapParameter1 && !mapParameter2
      ensures button == Param2Button ==> !mapParameter1 && mapParameter2
      ensures button.Mapping? ==> mapParameter1 == old(mapParameter1) && mapParameter2 == old(mapParameter2)
    {
      if button == Param1Button {
        mapParameter1 := true;
        mapParameter2 := false;
      }
      if button == Param2Button {
        mapParameter1 := false;
        mapParameter2 := true;
      }
    }

    /**
     * Assigns the clicked button to the armed axis and disarms it; with no
     * axis armed, clicking X's button clears X and any other click clears Y.
     */
    method MapButtonClicked(b: MapButton)
      requires Valid()
      modifies this
      ensures Valid()
      ensures old(mapParameter1) ==>
        && mapButton1 == Some(b) && param1 == Some(AttachedSlider(b)) && !mapParameter1
        && mapButton2 == old(mapButton2) && param2 == old(param2) && mapParameter2 == old(mapParameter2)
      ensures !old(mapParameter1) && old(mapParameter2) ==>
        && mapButton2 == Some(b) && param2 == Some(AttachedSlider(b)) && !mapParameter2
        && mapButton1 == old(mapButton1) && param1 == old(param1) && !mapParameter1
      ensures !old(mapParameter1) && !old(mapParameter2) && old(mapButton1) == Some(b) ==>
        && mapButton1 == None && param1 == None
        && mapButton2 == old(mapButton2) && param2 == old(param2) && !mapParameter1 && !mapParameter2
      ensures !old(mapParameter1) && !old(mapParameter2) && old(mapButton1) != Some(b) ==>
        && mapButton2 == None && param2 == None
        && mapButton1 == old(mapButton1) && param1 == old(param1) && !mapParameter1 && !mapParameter2
    {
      if mapParameter1 {
        if mapButton1 != None && mapButton1 != Some(b) {
          if mapButton1 == mapButton2 {
            param2 := Some(AttachedSlider(mapButton2.value));
          }
        }
        mapButton1 := Some(b);
        param1 := Some(AttachedSlider(b));
        mapParameter1 := false;
      } else if mapParameter2 {
        if mapButton2 != None && mapButton2 != Some(b) {
          if mapButton1 == mapButton2 {
            param1 := Some(AttachedSlider(mapButton1.value));
          }
        }
        mapButton2 := Some(b);
        param2 := Some(AttachedSlider(b));
        mapParameter2 := false;
      } else {
        if Some(b) == mapButton1 {
          param1 := None;
          mapButton1 := None;
        } else {
          param2 := None;
          mapButton2 := None;
        }
      }
    }

    /**
     * One control-rate tick: when connected, pops up to 50 messages from the
     * top of the stack, averages their signed values and writes the target to
     * the slider mapped on the last popped message's axis.  `uninitialised` is
     * what the local `Message m` holds before anything is popped; `range` gives
     * each slider's minimum and maximum; `ln` is the C library's `log`.
     */
    method TimerCallback(device: SerialDecoder.SerialDevice, uninitialised: Message,
                         range: Slider -> Range, ln: real -> real)
      returns (write: Option<SliderWrite>)
      requires IsLogarithm(ln)
      modifies device`messages
      ensures !device.isConnected ==> write == None && device.messages == old(device.messages)
      ensures device.isConnected ==>
        && device.messages == Remaining(old(device.messages))
        && write == TickWrite(param1, param2, LastPopped(old(device.messages), uninitialised),
                              Mean(Batch(old(device.messages))), range, ln)
    {
      write := None;
      if !device.isConnected {
        return;
      }
      ghost var stack := device.messages;
      var meanValue: real := 0.0;
      var m := uninitialised;
      var i := 0;
      while i < MessagesToPop
        invariant 0 <= i <= MessagesToPop && i <= |stack|
        invariant device.messages == stack[..|stack| - i]
        invariant meanValue == SignedSum(stack[|stack| - i..]) as real
        invariant m == if i == 0 then uninitialised else stack[|stack| - i]
      {
        if |device.messages| == 0 {
          break;
        }
        m := device.messages[|device.messages| - 1];
        device.messages := device.messages[..|device.messages| - 1];
        assert stack[|stack| - (i + 1)..][1..] == stack[|stack| - i..];
        if m.verse == MinusSign {
          meanValue := meanValue - m.value as real;
        } else {
          meanValue := meanValue + m.value as real;
        }
        i := i + 1;
      }
      assert i == BatchSize(|stack|);
      var mean := if i == 0 then NaN else Finite(meanValue / i as real);
      if param1.Some? && m.direction == XAxis {
        write := Some(SliderWrite(param1.value, TargetReading(param1.value, range(param1.value), mean, m.verse, ln)));
      }
      if param2.Some? && m.direction == YAxis {
        write := Some(SliderWrite(param2.value, TargetReading(param2.value, range(param2.value), mean, m.verse, ln)));
      }
    }
  }

  /** "MAP X", then the cutoff button, then "MAP Y", then the cutoff button: both axes drive the cutoff. */
  method BothAxesOnOneButton() returns (x: Option<Slider>, y: Option<Slider>)
    ensures x == Some(Cutoff) && y == Some(Cutoff)
  {
    var editor := new Editor();
    editor.ButtonClicked(Param1Button);
    editor.MapButtonClicked(FilterCutoffMap);
    editor.ButtonClicked(Param2Button);
    editor.MapButtonClicked(FilterCutoffMap);
    x, y := editor.param1, editor.param2;
  }
}

/**
 * The parameter-mapping runtime of the earlier editor, PluginEditor.cpp: the
 * "MAP X" / "MAP Y" buttons arm their axis without disarming the other, a
 * mapping button is assigned to every armed axis, and the timer maps the mean
 * linearly around a centre computed as `(max - min) / 2`.
 */
module LegacyMapping {
  import opened Wrappers
  import opened Messages
  import opened Controls
  import opened ParameterMapping
  import LegacySerial

  /** The target as the earlier editor computes it, with `middle = (max - min) / 2`. */
  function LegacyTarget(range: Range, mean: real): real {
    var middle := (range.max - range.min) / 2.0;
    middle + (range.max - middle) * (mean / 100.0)
  }

  /**
   * The earlier target is the centred linear target shifted down by
   * `min * (1 - mean / 100)`: the two agree exactly when the range starts at
   * zero or the mean is +100.
   */
  lemma LegacyTargetOffset(range: Range, mean: real)
    ensures LegacyTarget(range, mean) == LinearTarget(range, mean) - range.min * (1.0 - mean / 100.0)
    ensures LegacyTarget(range, mean) == LinearTarget(range, mean) <==> range.min == 0.0 || mean == 100.0
  {
    var t := mean / 100.0;
    var middle := Middle(range);
    assert (range.max - range.min) / 2.0 == middle - range.min;
    assert LegacyTarget(range, mean) == middle - range.min + (range.max - middle + range.min) * t;
    assert (range.max - middle + range.min) * t == (range.max - middle) * t + range.min * t;
    if range.min != 0.0 && t != 1.0 {
      ProductNonZero(range.min, 1.0 - t);
    }
  }

  lemma ProductNonZero(a: real, b: real)
    requires a != 0.0 && b != 0.0
    ensures a * b != 0.0
  {
    if a > 0.0 && b > 0.0 {
      assert a * b > 0.0;
    } else if a > 0.0 {
      assert a * -b > 0.0;
    } else if b > 0.0 {
      assert -a * b > 0.0;
    } else {
      assert -a * -b > 0.0;
    }
  }

  /**
   * On the cutoff slider's range [20, 20000] a mean of 0 lands on 9990, not the
   * centre 10010, and a mean of -100 asks for -20, below the slider's minimum.
   */
  lemma LegacyCutoffOutOfRange()
    ensures LegacyTarget(DeclaredRange(Cutoff).value, 0.0) == 9990.0
    ensures LinearTarget(DeclaredRange(Cutoff).value, 0.0) == 10010.0
    ensures LegacyTarget(DeclaredRange(Cutoff).value, -100.0) == -20.0
    ensures LegacyTarget(DeclaredRange(Cutoff).value, -100.0) < DeclaredRange(Cutoff).value.min
  {
  }

  /** The write one tick of the earlier editor performs, always on the linear map. */
  function LegacyTickWrite(param1: Option<Slider>, param2: Option<Slider>, last: Message, mean: Reading,
                           range: Slider -> Range): (w: Option<SliderWrite>)
    ensures w.Some? ==>
              || (last.direction == XAxis && param1 == Some(w.value.slider))
              || (last.direction == YAxis && param2 == Some(w.value.slider))
    ensures w.None? <==> !(param1.Some? && last.direction == XAxis) && !(param2.Some? && last.direction == YAxis)
    ensures w.Some? && mean.Finite? ==>
              w.value.value == Finite(LegacyTarget(range(w.value.slider), mean.r))
  {
    if param1.Some? && last.direction == XAxis then
      Some(SliderWrite(param1.value, LegacyReading(range(param1.value), mean)))
    else if param2.Some? && last.direction == YAxis then
      Some(SliderWrite(param2.value, LegacyReading(range(param2.value), mean)))
    else
      None
  }

  function LegacyReading(range: Range, mean: Reading): Reading {
    match mean
    case NaN => NaN
    case Finite(x) => Finite(LegacyTarget(range, x))
  }

  class LegacyEditor {
    var mapParameter1: bool
    var mapParameter2: bool
    var param1: Option<Slider>
    var param2: Option<Slider>

    constructor ()
      ensures !mapParameter1 && !mapParameter2 && param1 == None && param2 == None
    {
      mapParameter1, mapParameter2 := false, false;
      param1, param2 := None, None;
    }

    /** "MAP X" arms X and "MAP Y" arms Y; neither disarms the other axis. */
    method ButtonClicked(button: EditorButton)
      modifies this`mapParameter1, this`mapParameter2
      ensures mapParameter1 == (old(mapParameter1) || button == Param1Button)
      ensures mapParameter2 == (old(mapParameter2) || button == Param2Button)
    {
      if button == Param1Button {
        mapParameter1 := true;
      }
      if button == Param2Button {
        mapParameter2 := true;
      }
    }

    /** Every armed axis takes the clicked button's slider and is disarmed; with none armed nothing changes. */
    method MapButtonClicked(b: MapButton)
      modifies this
      ensures param1 == if old(mapParameter1) then Some(AttachedSlider(b)) else old(param1)
      ensures param2 == if old(mapParameter2) then Some(AttachedSlider(b)) else old(param2)
      ensures !mapParameter1 && !mapParameter2
    {
      if mapParameter1 {
        param1 := Some(AttachedSlider(b));
        mapParameter1 := false;
      }
      if mapParameter2 {
        param2 := Some(AttachedSlider(b));
        mapParameter2 := false;
      }
    }

    /**
     * One tick of the earlier timer (PluginEditor.cpp:402-447): the same
     * draining of the stack as the current editor, with each popped value
     * negated in place for '-' before it is summed.
     */
    method TimerCallback(device: LegacySerial.LegacySerialDevice, uninitialised: Message, range: Slider -> Range)
      returns (write: Option<SliderWrite>)
      modifies device`messages
      ensures !device.isConnected ==> write == None && device.messages == old(device.messages)
      ensures device.isConnected ==>
        && device.messages == Remaining(old(device.messages))
        && write == LegacyTickWrite(param1, param2, LastPopped(old(device.messages), uninitialised),
                                    Mean(Batch(old(device.messages))), range)
    {
      write := None;
      if !device.isConnected {
        return;
      }
      ghost var stack := device.messages;
      var meanValue: real := 0.0;
      var m := uninitialised;
      var i := 0;
      while i < MessagesToPop
        invariant 0 <= i <= MessagesToPop && i <= |stack|
        invariant device.messages == stack[..|stack| - i]
        invariant meanValue == SignedSum(stack[|stack| - i..]) as real
        invariant m.direction == (if i == 0 then uninitialised else stack[|stack| - i]).direction
      {
        if |device.messages| == 0 {
          break;
        }
        m := device.messages[|device.messages| - 1];
        device.messages := device.messages[..|device.messages| - 1];
        assert stack[|stack| - (i + 1)..][1..] == stack[|stack| - i..];
        if m.verse == MinusSign {
          m := m.(value := -m.value);
        }
        meanValue := meanValue + m.value as real;
        i := i + 1;
      }
      assert i == BatchSize(|stack|);
      var mean := if i == 0 then NaN else Finite(meanValue / i as real);
      if param1.Some? && m.direction == XAxis {
        write := Some(SliderWrite(param1.value, LegacyReading(range(param1.value), mean)));
      }
      if param2.Some? && m.direction == YAxis {
        write := Some(SliderWrite(param2.value, LegacyReading(range(param2.value), mean)));
      }
    }
  }

  /** Arming both axes before clicking a mapping button maps both to that button's slider. */
  method ArmBothThenMap(b: MapButton) returns (x: Option<Slider>, y: Option<Slider>)
    ensures x == Some(AttachedSlider(b)) && y == Some(AttachedSlider(b))
  {
    var editor := new LegacyEditor();
    editor.ButtonClicked(Param1Button);
    editor.ButtonClicked(Param2Button);
    editor.MapButtonClicked(b);
    x, y := editor.param1, editor.param2;
  }
}

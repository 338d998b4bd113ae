/**
 * The mappable controls of the editor: the ten sliders that carry a mapping
 * button, the buttons themselves and the slider each one is bound to
 * (Source/PluginEditor.h:114-119), and the parameter ranges the processor
 * declares for them (PluginProcessor.cpp:27-50).
 */
module Controls {
  import opened Wrappers

  /** The sliders a mapping button can point an axis at, as a tagged handle instead of a pointer. */
  datatype Slider = Cutoff | Q | Drive | Anger | Hpf | Lpf | Volume | Mix | Feedback | DelayTime

  /** The mapping button placed beside each mappable slider. */
  datatype MapButton =
    | FilterCutoffMap | QMap | DriveMap | AngerMap | DistHpfMap | DistLpfMap
    | DistVolumeMap | DistDryWetMap | FeedbackMap | DelayTimeMap

  /** `MapButton::attachedSlider`, as each button is constructed in the editor. */
  function AttachedSlider(b: MapButton): Slider {
    match b
    case FilterCutoffMap => Cutoff
    case QMap => Q
    case DriveMap => Drive
    case AngerMap => Anger
    case DistHpfMap => Hpf
    case DistLpfMap => Lpf
    case DistVolumeMap => Volume
    case DistDryWetMap => Mix
    case FeedbackMap => Feedback
    case DelayTimeMap => DelayTime
  }

  /** A null `MapButton*` has no slider; otherwise its attached slider. */
  function SliderOf(b: Option<MapButton>): (s: Option<Slider>)
    ensures s.None? <==> b.None?
  {
    match b
    case None => None
    case Some(button) => Some(AttachedSlider(button))
  }

  /** No two buttons share a slider, so a slider identifies its button. */
  lemma AttachedSliderInjective(a: MapButton, b: MapButton)
    ensures AttachedSlider(a) == AttachedSlider(b) ==> a == b
  {
  }

  /** The sliders the timer drives on a logarithmic scale for negative movements. */
  predicate IsFrequency(s: Slider) {
    s == Cutoff || s == Hpf || s == Lpf
  }

  /** A slider's `getMinimum()` and `getMaximum()`. */
  datatype Range = Range(min: real, max: real)

  /**
   * The range the processor registers for the parameter behind each slider;
   * the delay parameters are registered outside the files modelled here.
   */
  function DeclaredRange(s: Slider): (r: Option<Range>)
    ensures r.Some? ==> r.value.min < r.value.max
    ensures r.None? <==> s == Feedback || s == DelayTime
  {
    match s
    case Cutoff => Some(Range(20.0, 20000.0))
    case Q => Some(Range(0.01, 10.0))
    case Drive => Some(Range(0.0, 100.0))
    case Anger => Some(Range(0.0, 1.0))
    case Hpf => Some(Range(20.0, 10000.0))
    case Lpf => Some(Range(200.0, 20000.0))
    case Volume => Some(Range(-20.0, 20.0))
    case Mix => Some(Range(0.0, 1.0))
    case Feedback => None
    case DelayTime => None
  }
}

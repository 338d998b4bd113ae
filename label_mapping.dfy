/**
 * The label-based mapping variant of MappableLabel.h: double-clicking a
 * slider's label while an axis is armed maps that axis to the slider.  The
 * label writes through pointers to the editor's `mapParameter1/2` and
 * `param1/2`; here those four live in one `MappingTargets` object that every
 * label shares.
 */
module LabelMapping {
  import opened Wrappers
  import opened Controls

  /** The four mapping variables a label writes through its pointers. */
  datatype MappingState = MappingState(mapParameter1: bool, mapParameter2: bool,
                                       param1: Option<Slider>, param2: Option<Slider>)

  /** No slider is driven by both axes at once. */
  predicate NoSharedSlider(st: MappingState) {
    st.param1 == st.param2 ==> st.param1 == None
  }

  /** The X block of `mouseDoubleClick`: clears Y if it holds `s`, maps X to `s`, disarms X. */
  function MapX(st: MappingState, s: Slider): MappingState {
    if st.mapParameter1 then
      var st1 := if st.param2 == Some(s) then st.(param2 := None) else st;
      st1.(param1 := Some(s), mapParameter1 := false)
    else st
  }

  /** The Y block, run after the X block: clears X if it holds `s`, maps Y to `s`, disarms Y. */
  function MapY(st: MappingState, s: Slider): MappingState {
    if st.mapParameter2 then
      var st1 := if st.param1 == Some(s) then st.(param1 := None) else st;
      st1.(param2 := Some(s), mapParameter2 := false)
    else st
  }

  /** A double-click on the label of slider `s`: the two blocks in sequence. */
  function DoubleClick(st: MappingState, s: Slider): MappingState {
    MapY(MapX(st, s), s)
  }

  /** With only X armed, X takes `s` and is disarmed, and Y keeps its slider unless it was `s`. */
  lemma DoubleClickWithXArmed(st: MappingState, s: Slider)
    requires st.mapParameter1 && !st.mapParameter2
    ensures DoubleClick(st, s) ==
      MappingState(false, false, Some(s), if st.param2 == Some(s) then None else st.param2)
  {
  }

  /** With only Y armed, Y takes `s` and is disarmed, and X keeps its slider unless it was `s`. */
  lemma DoubleClickWithYArmed(st: MappingState, s: Slider)
    requires !st.mapParameter1 && st.mapParameter2
    ensures DoubleClick(st, s) ==
      MappingState(false, false, if st.param1 == Some(s) then None else st.param1, Some(s))
  {
  }

  /** With both armed the Y block undoes the X block's mapping: X ends unmapped, Y on `s`. */
  lemma DoubleClickWithBothArmed(st: MappingState, s: Slider)
    requires st.mapParameter1 && st.mapParameter2
    ensures DoubleClick(st, s) == MappingState(false, false, None, Some(s))
  {
  }

  /** With neither armed the mapping state is untouched. */
  lemma DoubleClickUnarmed(st: MappingState, s: Slider)
    requires !st.mapParameter1 && !st.mapParameter2
    ensures DoubleClick(st, s) == st
  {
  }

  /** After a double-click `s` is on at most one axis, and no slider is shared if none was before. */
  lemma DoubleClickKeepsSlidersApart(st: MappingState, s: Slider)
    requires NoSharedSlider(st)
    ensures NoSharedSlider(DoubleClick(st, s))
    ensures !(DoubleClick(st, s).param1 == Some(s) && DoubleClick(st, s).param2 == Some(s))
  {
    var x := MapX(st, s);
    assert NoSharedSlider(x) && !(x.param1 == Some(s) && x.param2 == Some(s));
  }

  /** The editor's mapping variables, shared by every label through pointers. */
  class MappingTargets {
    var mapParameter1: bool
    var mapParameter2: bool
    var param1: Option<Slider>
    var param2: Option<Slider>

    ghost function State(): MappingState
      reads this
    {
      MappingState(mapParameter1, mapParameter2, param1, param2)
    }

    constructor ()
      ensures State() == MappingState(false, false, None, None)
    {
      mapParameter1, mapParameter2, param1, param2 := false, false, None, None;
    }
  }

  /** The label's text colour as `mouseDoubleClick` leaves it. */
  datatype TextColour = Initial | White | Red

  class MappableLabel {
    const targets: MappingTargets
    /** The attached component when it is a slider; `None` when the cast yields null. */
    const attached: Option<Slider>
    var colour: TextColour

    constructor (targets: MappingTargets, attached: Option<Slider>)
      ensures this.targets == targets && this.attached == attached && colour == Initial
    {
      this.targets := targets;
      this.attached := attached;
      colour := Initial;
    }

    /**
     * A double-click; `clicked` is `e.mouseWasClicked()`.  The two blocks run
     * in order on the shared variables, each only while its axis is armed and
     * the attached component is a slider.
     */
    method MouseDoubleClick(clicked: bool)
      modifies targets, this`colour
      ensures !clicked || attached.None? ==> targets.State() == old(targets.State())
      ensures clicked && attached.Some? ==> targets.State() == DoubleClick(old(targets.State()), attached.value)
      ensures colour == if !clicked then old(colour)
                        else if attached.Some? && (old(targets.mapParameter1) || old(targets.mapParameter2)) then Red
                        else if !old(targets.mapParameter1) && !old(targets.mapParameter2) then White
                        else old(colour)
    {
      if clicked && !targets.mapParameter1 && !targets.mapParameter2 {
        colour := White;
      }
      if clicked && targets.mapParameter1 {
        var component := attached;
        if component != None {
          if component == targets.param2 {
            targets.param2 := None;
          }
          colour := Red;
          targets.param1 := component;
          targets.mapParameter1 := false;
        }
      }
      if clicked && targets.mapParameter2 {
        var component := attached;
        if component != None {
          if component == targets.param1 {
            targets.param1 := None;
          }
          colour := Red;
          targets.param2 := component;
          targets.mapParameter2 := false;
        }
      }
    }
  }

  /**
   * Two labels share one set of targets: arming X and double-clicking the
   * cutoff label, then arming Y and double-clicking the same label, moves the
   * cutoff from X to Y.
   */
  method CutoffMovesFromXToY() returns (x: Option<Slider>, y: Option<Slider>)
    ensures x == None && y == Some(Cutoff)
  {
    var targets := new MappingTargets();
    var cutoffLabel := new MappableLabel(targets, Some(Cutoff));
    targets.mapParameter1 := true;
    cutoffLabel.MouseDoubleClick(true);
    targets.mapParameter2 := true;
    cutoffLabel.MouseDoubleClick(true);
    x, y := targets.param1, targets.param2;
  }
}

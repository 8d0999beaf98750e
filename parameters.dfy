/**
 * The validation in the command's execute handler (`onCommandExecuted`): the
 * inputs must all exist, then scale, component width, extrude height and hole
 * diameter are checked in that order, and each value that passes is written to
 * the model before the next one is checked.
 */
module Parameters {
  import opened Wrappers
  import AfeModel

  /**
   * The dialog inputs. `None` is an input the dialog does not have; a value
   * input holds its expression as the units manager evaluates it, in cm.
   */
  datatype CommandInputs = CommandInputs(
    scale: Option<real>,
    componentWidth: Option<real>,
    extrude: Option<bool>,
    extrudeHeight: Option<real>,
    jointHoleDiameter: Option<real>)

  /** Why the command stopped, or that it goes on to draw. */
  datatype Verdict =
    | MissingInput
    | BadScale
    | BadComponentWidth
    | BadExtrudeHeight
    | BadJointHoleDiameter
    | Accepted(doExtrude: bool)

  predicate AllPresent(inputs: CommandInputs) {
    && inputs.scale.Some? && inputs.componentWidth.Some? && inputs.extrude.Some?
    && inputs.extrudeHeight.Some? && inputs.jointHoleDiameter.Some?
  }

  /** The checks in the order the handler makes them; the first failure decides. */
  function Validate(inputs: CommandInputs): (v: Verdict)
    ensures v == MissingInput <==> !AllPresent(inputs)
    ensures v == BadScale <==> AllPresent(inputs) && inputs.scale.value <= 0.0
    ensures v == BadComponentWidth <==>
      AllPresent(inputs) && inputs.scale.value > 0.0 && inputs.componentWidth.value <= 0.0
    ensures v == BadExtrudeHeight <==>
      AllPresent(inputs) && inputs.scale.value > 0.0 && inputs.componentWidth.value > 0.0 &&
      inputs.extrudeHeight.value <= 0.0
    ensures v == BadJointHoleDiameter <==>
      AllPresent(inputs) && inputs.scale.value > 0.0 && inputs.componentWidth.value > 0.0 &&
      inputs.extrudeHeight.value > 0.0 && inputs.jointHoleDiameter.value <= 0.0
    ensures v.Accepted? <==>
      AllPresent(inputs) && inputs.scale.value > 0.0 && inputs.componentWidth.value > 0.0 &&
      inputs.extrudeHeight.value > 0.0 && inputs.jointHoleDiameter.value > 0.0
    ensures v.Accepted? ==> v.doExtrude == inputs.extrude.value
  {
    if !AllPresent(inputs) then MissingInput
    else if inputs.scale.value <= 0.0 then BadScale
    else if inputs.componentWidth.value <= 0.0 then BadComponentWidth
    else if inputs.extrudeHeight.value <= 0.0 then BadExtrudeHeight
    else if inputs.jointHoleDiameter.value <= 0.0 then BadJointHoleDiameter
    else Accepted(inputs.extrude.value)
  }

  /** How many of the four values were validated, and so written, before the handler stopped. */
  function Written(v: Verdict): (n: nat)
    ensures n <= 4
    ensures n == 4 <==> v.Accepted?
  {
    match v
    case MissingInput => 0
    case BadScale => 0
    case BadComponentWidth => 1
    case BadExtrudeHeight => 2
    case BadJointHoleDiameter => 3
    case Accepted(_) => 4
  }

  /**
   * A value that fails its check stops the handler whatever the later values
   * are: the outcome depends only on the inputs up to the first failure.
   */
  lemma {:induction false} LaterValuesIrrelevant(a: CommandInputs, b: CommandInputs)
    requires AllPresent(a) && AllPresent(b)
    requires a.scale == b.scale
    requires a.scale.value <= 0.0 || (a.componentWidth == b.componentWidth &&
      (a.componentWidth.value <= 0.0 || (a.extrudeHeight == b.extrudeHeight && a.extrudeHeight.value <= 0.0)))
    ensures Validate(a) == Validate(b)
    ensures Written(Validate(a)) < 3
  {
  }

  /**
   * The handler's writes: each value that passed its check replaces the model's
   * field, later fields keep their old values, and the extrude height lands in
   * `extrudeHeight`, so `extrudeDist`, which the drawing uses, never changes.
   */
  method ApplyParameters(m: AfeModel.ImportModel, inputs: CommandInputs) returns (v: Verdict)
    modifies m`scale, m`componentWidth, m`extrudeHeight, m`jointHoleDiameter
    ensures v == Validate(inputs)
    ensures m.scale == if Written(v) >= 1 then inputs.scale.value else old(m.scale)
    ensures m.componentWidth == if Written(v) >= 2 then inputs.componentWidth.value else old(m.componentWidth)
    ensures m.extrudeHeight == if Written(v) >= 3 then Some(inputs.extrudeHeight.value) else old(m.extrudeHeight)
    ensures m.jointHoleDiameter ==
      if Written(v) >= 4 then inputs.jointHoleDiameter.value else old(m.jointHoleDiameter)
    ensures m.extrudeDist == old(m.extrudeDist)
  {
    if inputs.scale.None? || inputs.componentWidth.None? || inputs.extrude.None? ||
       inputs.extrudeHeight.None? || inputs.jointHoleDiameter.None? {
      return MissingInput;
    }
    var scale := inputs.scale.value;
    if scale <= 0.0 {
      return BadScale;
    }
    m.scale := scale;
    var componentWidth := inputs.componentWidth.value;
    if componentWidth <= 0.0 {
      return BadComponentWidth;
    }
    m.componentWidth := componentWidth;
    var doExtrude := inputs.extrude.value;
    var extrudeHeight := inputs.extrudeHeight.value;
    if extrudeHeight <= 0.0 {
      return BadExtrudeHeight;
    }
    m.extrudeHeight := Some(extrudeHeight);
    var jointHoleDiameter := inputs.jointHoleDiameter.value;
    if jointHoleDiameter <= 0.0 {
      return BadJointHoleDiameter;
    }
    m.jointHoleDiameter := jointHoleDiameter;
    return Accepted(doExtrude);
  }
}

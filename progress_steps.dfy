/** The booking stepper across the top of the page (src/components/ProgressSteps.jsx). */
module ProgressSteps {
  import opened Skips

  /** One step of the booking flow as the stepper receives it. */
  datatype Step = Step(id: int, name: string, completed: bool, active: bool)

  datatype CircleStyle = Filled | Outlined

  /**
   * What the stepper draws for one step: its circle, whether its icon and
   * label are lit, and the connector drawn after it (`None` when there is
   * none, otherwise whether it is lit).
   */
  datatype StepView = StepView(
    name: string,
    circle: CircleStyle,
    iconLit: bool,
    labelLit: bool,
    connector: Option<bool>)

  /** A step counts as reached when it is completed or active. */
  predicate IsReached(step: Step)
  {
    step.completed || step.active
  }

  /** The circle's nested choice: completed, else active, else outlined. */
  function Circle(step: Step): (style: CircleStyle)
    ensures style == Filled <==> IsReached(step)
  {
    if step.completed then Filled else if step.active then Filled else Outlined
  }

  /** The `steps.map` callback for the step at position `i`. */
  function RenderStep(steps: seq<Step>, i: nat): (view: StepView)
    requires i < |steps|
    ensures view.name == steps[i].name
    ensures view.circle == Filled <==> IsReached(steps[i])
    ensures view.iconLit <==> IsReached(steps[i])
    ensures view.labelLit <==> IsReached(steps[i])
    ensures view.connector.Some? <==> i < |steps| - 1
    ensures i < |steps| - 1 ==> view.connector == Some(IsReached(steps[i + 1]))
  {
    StepView(
      steps[i].name,
      Circle(steps[i]),
      steps[i].completed || steps[i].active,
      steps[i].completed || steps[i].active,
      if i < |steps| - 1 then Some(steps[i + 1].completed || steps[i + 1].active) else None)
  }

  /** `steps.map`: one entry per step, in list order. */
  function RenderSteps(steps: seq<Step>): (views: seq<StepView>)
    ensures |views| == |steps|
    ensures forall i :: 0 <= i < |steps| ==> views[i].name == steps[i].name
    ensures forall i :: 0 <= i < |steps| ==> (views[i].circle == Filled <==> IsReached(steps[i]))
    ensures forall i :: 0 <= i < |steps| ==> (views[i].iconLit <==> IsReached(steps[i]))
    ensures forall i :: 0 <= i < |steps| ==> (views[i].labelLit <==> IsReached(steps[i]))
    ensures forall i :: 0 <= i < |steps| ==> (views[i].connector.Some? <==> i < |steps| - 1)
    ensures forall i :: 0 <= i < |steps| - 1 ==> (views[i].connector == Some(IsReached(steps[i + 1])))
  {
    seq(|steps|, i requires 0 <= i < |steps| => RenderStep(steps, i))
  }

  /** How many connectors a rendered stepper draws. */
  function ConnectorCount(views: seq<StepView>): nat
  {
    if views == [] then 0
    else (if views[0].connector.Some? then 1 else 0) + ConnectorCount(views[1..])
  }

  lemma {:induction false} ConnectorCountAllButLast(views: seq<StepView>)
    requires views != []
    requires forall i :: 0 <= i < |views| ==> (views[i].connector.Some? <==> i < |views| - 1)
    ensures ConnectorCount(views) == |views| - 1
  {
    if |views| > 1 {
      var rest := views[1..];
      assert forall i :: 0 <= i < |rest| ==> rest[i] == views[i + 1];
      ConnectorCountAllButLast(rest);
    }
  }

  /** A stepper of n steps draws n - 1 connectors, and none for no steps. */
  lemma StepperConnectors(steps: seq<Step>)
    ensures ConnectorCount(RenderSteps(steps)) == if steps == [] then 0 else |steps| - 1
  {
    if steps != [] {
      ConnectorCountAllButLast(RenderSteps(steps));
    }
  }
}

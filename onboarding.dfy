/**
 * The onboarding flow's state: an index into a fixed list of eight steps,
 * moved by `nextStep`, `prevStep` and `skipTo`, with a progress percentage
 * derived from it. Leaving the last step navigates to the dashboard.
 */
module Onboarding {

  /** `STEPS`, in order. */
  const Steps: seq<string> := ["welcome", "categories", "value", "notifications", "name", "metrics", "email", "complete"]
  const LastIndex: nat := 7
  const DashboardPath: string := "/dashboard"

  /** Eight distinct names, the last one at `LastIndex`. */
  lemma StepsAreDistinct()
    ensures |Steps| == 8 && LastIndex == |Steps| - 1 && Steps[LastIndex] == "complete"
    ensures forall i, j :: 0 <= i < j < |Steps| ==> Steps[i] != Steps[j]
  {
  }

  /** `steps.indexOf(name)`: the first position holding `name`, or -1. */
  function IndexOf(steps: seq<string>, name: string): (r: int)
    ensures r == -1 <==> name !in steps
    ensures r != -1 ==> 0 <= r < |steps| && steps[r] == name && name !in steps[..r]
  {
    if steps == [] then -1
    else if steps[0] == name then 0
    else
      var k := IndexOf(steps[1..], name);
      if k == -1 then -1
      else
        assert steps[..k + 1] == [steps[0]] + steps[1..][..k];
        k + 1
  }

  /** `progress`: 0 on the first step, otherwise the index's share of the last index, in percent. */
  function ProgressAt(index: nat): (p: real)
    requires index < |Steps|
    ensures 0.0 <= p <= 100.0
    ensures p == 0.0 <==> index == 0
    ensures p == 100.0 <==> index == LastIndex
  {
    if index == 0 then 0.0 else (index as real / (|Steps| - 1) as real) * 100.0
  }

  /** Progress grows strictly with the index. */
  lemma ProgressIncreasing(i: nat, j: nat)
    requires i < j < |Steps|
    ensures ProgressAt(i) < ProgressAt(j)
  {
  }

  /** The index after `nextStep`: one more, except on the last step. */
  function NextIndex(index: nat): nat
  {
    if index < LastIndex then index + 1 else index
  }

  /** The index after `prevStep`: one less, except on the first step. */
  function PrevIndex(index: nat): nat
  {
    if index > 0 then index - 1 else index
  }

  /** The index after `skipTo(name)`: the name's position, or unchanged for an unlisted name. */
  function SkipIndex(index: nat, name: string): nat
  {
    var k := IndexOf(Steps, name);
    if k == -1 then index else k
  }

  /** Every transition keeps the index on a listed step. */
  lemma TransitionsStayInRange(index: nat, name: string)
    requires index < |Steps|
    ensures NextIndex(index) < |Steps| && PrevIndex(index) < |Steps| && SkipIndex(index, name) < |Steps|
  {
  }

  /** `prevStep` after a `nextStep` that moved returns to the step before it. */
  lemma PrevUndoesNext(index: nat)
    requires index < LastIndex
    ensures PrevIndex(NextIndex(index)) == index
  {
  }

  /** `skipTo` a listed name lands on that name. */
  lemma SkipLandsOnStep(index: nat, name: string)
    ensures name in Steps ==> Steps[SkipIndex(index, name)] == name
    ensures name !in Steps ==> SkipIndex(index, name) == index
  {
  }

  /** `OnboardingProvider`: the index state and the router pushes it makes. */
  class OnboardingProvider {
    var currentStepIndex: nat
    /** The paths passed to `router.push`, oldest first. */
    var navigations: seq<string>

    ghost predicate Valid()
      reads this
    {
      currentStepIndex < |Steps|
    }

    constructor ()
      ensures Valid() && currentStepIndex == 0 && navigations == []
    {
      currentStepIndex := 0;
      navigations := [];
    }

    /** `currentStep`. */
    function CurrentStep(): (s: string)
      reads this
      requires Valid()
      ensures s in Steps
    {
      Steps[currentStepIndex]
    }

    function Progress(): (p: real)
      reads this
      requires Valid()
      ensures 0.0 <= p <= 100.0
    {
      ProgressAt(currentStepIndex)
    }

    method NextStep()
      requires Valid()
      modifies this
      ensures Valid()
      ensures currentStepIndex == NextIndex(old(currentStepIndex))
      ensures old(currentStepIndex) < LastIndex ==> navigations == old(navigations)
      ensures old(currentStepIndex) == LastIndex ==> navigations == old(navigations) + [DashboardPath]
    {
      if currentStepIndex < |Steps| - 1 {
        currentStepIndex := currentStepIndex + 1;
      } else {
        CompleteOnboarding();
      }
    }

    method PrevStep()
      requires Valid()
      modifies this
      ensures Valid()
      ensures currentStepIndex == PrevIndex(old(currentStepIndex)) && navigations == old(navigations)
    {
      if currentStepIndex > 0 {
        currentStepIndex := currentStepIndex - 1;
      }
    }

    method SkipTo(step: string)
      requires Valid()
      modifies this
      ensures Valid()
      ensures currentStepIndex == SkipIndex(old(currentStepIndex), step) && navigations == old(navigations)
    {
      var stepIndex := IndexOf(Steps, step);
      if stepIndex != -1 {
        currentStepIndex := stepIndex;
      }
    }

    /** `completeOnboarding`: navigate to the dashboard; the index stays. */
    method CompleteOnboarding()
      requires Valid()
      modifies this
      ensures Valid()
      ensures currentStepIndex == old(currentStepIndex) && navigations == old(navigations) + [DashboardPath]
    {
      navigations := navigations + [DashboardPath];
    }
  }
}

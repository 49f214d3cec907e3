/** The step machine of components/OnboardingOverlay.tsx. `seenFlag` is the
    storage entry 'techwiser_onboarding_seen'; `completions` counts the calls
    of the `onComplete` callback. */
module Onboarding {
  import opened Wrappers

  /** `steps.length`. */
  const StepCount: nat := 4

  const SeenKeyName: string := "techwiser_onboarding_seen"

  /** The label of the primary button. */
  function PrimaryLabel(step: nat): (r: string)
    ensures r == "Get Started" <==> step == StepCount - 1
    ensures r != "Get Started" ==> r == "Next"
  {
    if step == StepCount - 1 then "Get Started" else "Next"
  }

  class OnboardingState {
    var currentStep: nat
    var isVisible: bool
    var seenFlag: Option<string>
    var completions: nat

    /** The step always names one of the four steps. */
    predicate Valid()
      reads this
    {
      currentStep < StepCount
    }

    constructor (seenFlag: Option<string>)
      ensures currentStep == 0 && !isVisible && this.seenFlag == seenFlag && completions == 0
      ensures Valid()
    {
      currentStep := 0;
      isVisible := false;
      this.seenFlag := seenFlag;
      completions := 0;
    }

    /** The mount effect: with no (or an empty) stored flag the overlay is
        shown; otherwise it stays hidden and `onComplete` runs at once. */
    method Mount()
      requires Valid()
      modifies this
      ensures isVisible <==> !Truthy(old(seenFlag)) || old(isVisible)
      ensures completions == if Truthy(old(seenFlag)) then old(completions) + 1 else old(completions)
      ensures currentStep == old(currentStep) && seenFlag == old(seenFlag)
      ensures Valid()
    {
      if !Truthy(seenFlag) {
        isVisible := true;
      } else {
        completions := completions + 1;
      }
    }

    /** `handleComplete`, also the Skip button: the flag is stored, the
        overlay hides, `onComplete` runs. */
    method Complete()
      requires Valid()
      modifies this
      ensures seenFlag == Some("true") && !isVisible && completions == old(completions) + 1
      ensures currentStep == old(currentStep)
      ensures Valid()
    {
      seenFlag := Some("true");
      isVisible := false;
      completions := completions + 1;
    }

    /** `handleNext`: one step forward, or completion from the last step. */
    method Next()
      requires Valid()
      modifies this
      ensures old(currentStep) < StepCount - 1 ==>
        currentStep == old(currentStep) + 1 && isVisible == old(isVisible)
        && seenFlag == old(seenFlag) && completions == old(completions)
      ensures old(currentStep) == StepCount - 1 ==>
        currentStep == old(currentStep) && seenFlag == Some("true") && !isVisible
        && completions == old(completions) + 1
      ensures Valid()
    {
      if currentStep < StepCount - 1 {
        currentStep := currentStep + 1;
      } else {
        Complete();
      }
    }

    /** `handlePrev`: one step back, nothing at the first step. */
    method Prev()
      requires Valid()
      modifies this
      ensures old(currentStep) > 0 ==> currentStep == old(currentStep) - 1
      ensures old(currentStep) == 0 ==> currentStep == 0
      ensures isVisible == old(isVisible) && seenFlag == old(seenFlag) && completions == old(completions)
      ensures Valid()
    {
      if currentStep > 0 {
        currentStep := currentStep - 1;
      }
    }
  }

  /** A first visit shows the tour; four clicks on the primary button finish
      it, and a later visit does not show it again. */
  method TourThenReload() returns (shownFirst: bool, labels: seq<string>, shownAgain: bool)
    ensures shownFirst && !shownAgain
    ensures labels == ["Next", "Next", "Next", "Get Started"]
  {
    var first := new OnboardingState(None);
    first.Mount();
    shownFirst := first.isVisible;
    labels := [];
    var k := 0;
    while k < StepCount
      invariant 0 <= k <= StepCount
      invariant first.Valid() && first.currentStep == (if k < StepCount then k else StepCount - 1)
      invariant k < StepCount ==> first.seenFlag == None
      invariant k == StepCount ==> first.seenFlag == Some("true")
      invariant |labels| == k && forall j :: 0 <= j < k ==> labels[j] == PrimaryLabel(j)
      modifies first
    {
      labels := labels + [PrimaryLabel(first.currentStep)];
      first.Next();
      k := k + 1;
    }
    var second := new OnboardingState(first.seenFlag);
    second.Mount();
    shownAgain := second.isVisible;
  }
}

/** The progress stepper (src/components/ProgressStepper.jsx): it renders the
    steps 1..8, marks those before the current one as completed, and lets the
    user jump back to a completed step, never forward. */
module Stepper {
  import opened Onboarding

  /** `canNavigateToStep(step)`: only earlier steps can be reached. */
  predicate CanNavigate(step: int, current: int)
  {
    step < current
  }

  predicate IsCompleted(step: int, current: int) { step < current }

  predicate IsCurrent(step: int, current: int) { step == current }

  /** `Array.from({ length: totalSteps }, (_, i) => i + 1)`. */
  function RenderedSteps(): (steps: seq<int>)
    ensures |steps| == StepCount
    ensures forall i :: 0 <= i < |steps| ==> steps[i] == i + 1
  {
    [1, 2, 3, 4, 5, 6, 7, 8]
  }

  /** Exactly the steps 1..8 are rendered, each once. */
  lemma RenderedStepsAreOneToCount(s: int)
    ensures s in RenderedSteps() <==> 1 <= s <= StepCount
  {
    if 1 <= s <= StepCount {
      assert RenderedSteps()[s - 1] == s;
    }
  }

  /** Every rendered step is either completed, current or still ahead, and is
      clickable exactly when it is completed. When the current step is one of
      1..8, exactly one rendered step is current. */
  lemma ExactlyOneCurrent(current: int)
    requires 1 <= current <= StepCount
    ensures (set s | s in RenderedSteps() && IsCurrent(s, current)) == {current}
    ensures forall s :: s in RenderedSteps() ==> (CanNavigate(s, current) <==> IsCompleted(s, current))
    ensures forall s :: s in RenderedSteps() && IsCompleted(s, current) ==> !IsCurrent(s, current)
  {
    RenderedStepsAreOneToCount(current);
  }

  /** Past the last step no rendered step is current and all are completed. */
  lemma NoCurrentPastTheEnd(current: int)
    requires current > StepCount
    ensures forall s :: s in RenderedSteps() ==> IsCompleted(s, current) && !IsCurrent(s, current)
  {
    forall s | s in RenderedSteps() ensures s < current {
      RenderedStepsAreOneToCount(s);
    }
  }

  /** `handleStepClick(step)`: a guarded `setStep`. */
  method HandleStepClick(store: Store, step: int)
    modifies store
    ensures store.profile ==
              if CanNavigate(step, old(store.profile.currentStep))
              then old(store.profile).(currentStep := step)
              else old(store.profile)
    ensures store.profile.currentStep <= old(store.profile.currentStep)
  {
    if CanNavigate(step, store.profile.currentStep) {
      store.SetStep(step);
    }
  }
}

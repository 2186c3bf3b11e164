/**
 * The first-run tour: four steps shown one at a time, a row of progress dots,
 * a Skip button and a Next button that advances or, on the last step,
 * completes the tour through the `onComplete` callback.
 */
module OnboardingTour {

  /** One tour step's text; its icon is presentation only. */
  datatype TourStep = TourStep(title: string, content: string)

  const WelcomeTitle := "Welcome to CoupleAI"
  const UploadTitle := "Step 1: Upload The Trio"
  const VibeTitle := "Step 2: Perfect the Vibe"
  const GenerateTitle := "Step 3: Generate & Refine"

  const Steps: seq<TourStep> := [
    TourStep(WelcomeTitle, "Create beautiful, shared moments by merging your portraits with any pose or scene you can imagine. Let's show you how!"),
    TourStep(UploadTitle, "Upload a clear portrait of Person A, Person B, and a Reference Image. The Reference Image dictates the pose, background, and lighting."),
    TourStep(VibeTitle, "Use the creative controls to choose your Style, Camera Angle, and Pose Variation. Want it 'Cinematic' or 'Artistic'? The choice is yours."),
    TourStep(GenerateTitle, "After creating your moment, you can 'Re-edit' it with text! Just type instructions like 'Change background to sunset' to refine your result.")
  ]

  const StartCreatingLabel := "Start Creating"
  const NextStepLabel := "Next Step"

  /** What one press of Next does on step `step` of `n`. */
  datatype NextResult = Moved(step: nat) | Completed

  /** Next moves to the following step, except on the last step, where it completes the tour. */
  function Next(step: nat, n: nat): (r: NextResult)
    requires step < n
    ensures r.Completed? <==> step == n - 1
    ensures r.Moved? ==> r.step == step + 1 && r.step < n
  {
    if step < n - 1 then Moved(step + 1) else Completed
  }

  /** The result of `k` presses of Next from step `step`; presses stop once the tour completes. */
  function Press(step: nat, k: nat, n: nat): NextResult
    requires step < n
    decreases k
  {
    if k == 0 then Moved(step)
    else match Next(step, n)
      case Moved(s) => Press(s, k - 1, n)
      case Completed => Completed
  }

  /** From step `step`, `k` presses reach step `step + k` while that is a step, and complete the tour otherwise. */
  lemma {:induction false} PressWalk(step: nat, k: nat, n: nat)
    requires step < n
    ensures Press(step, k, n) == if step + k < n then Moved(step + k) else Completed
    decreases k
  {
    if k > 0 && step < n - 1 {
      PressWalk(step + 1, k - 1, n);
    }
  }

  /** From the first step the tour visits every step in order and completes on the fourth press, not before. */
  lemma TourCompletesOnLastPress()
    ensures forall k :: 0 <= k < |Steps| ==> Press(0, k, |Steps|) == Moved(k)
    ensures Press(0, |Steps|, |Steps|) == Completed
  {
    forall k | 0 <= k < |Steps|
      ensures Press(0, k, |Steps|) == Moved(k)
    {
      PressWalk(0, k, |Steps|);
    }
    PressWalk(0, |Steps|, |Steps|);
  }

  /** The Next button's label: "Start Creating" exactly on the last step. */
  function NextLabel(step: nat, n: nat): (r: string)
    ensures r == StartCreatingLabel <==> step == n - 1
    ensures r != StartCreatingLabel ==> r == NextStepLabel
  {
    if step == n - 1 then StartCreatingLabel else NextStepLabel
  }

  /** The progress dots, one per step: `true` is the wide, highlighted dot. */
  function Dots(step: nat, n: nat): (r: seq<bool>)
    ensures |r| == n
    ensures forall i :: 0 <= i < n ==> (r[i] <==> i == step)
  {
    seq(n, i => i == step)
  }

  /** How many entries of `bs` are `true`. */
  function CountTrue(bs: seq<bool>): nat
  {
    if bs == [] then 0 else (if bs[0] then 1 else 0) + CountTrue(bs[1..])
  }

  /** A sequence whose only `true` entry is at `j` has exactly one `true` entry. */
  lemma {:induction false} CountSingle(bs: seq<bool>, j: nat)
    requires j < |bs|
    requires forall i :: 0 <= i < |bs| ==> (bs[i] <==> i == j)
    ensures CountTrue(bs) == 1
    decreases |bs|
  {
    if j == 0 {
      CountNone(bs[1..]);
    } else {
      CountSingle(bs[1..], j - 1);
    }
  }

  /** A sequence with no `true` entry counts zero. */
  lemma {:induction false} CountNone(bs: seq<bool>)
    requires forall i :: 0 <= i < |bs| ==> !bs[i]
    ensures CountTrue(bs) == 0
    decreases |bs|
  {
    if bs != [] {
      CountNone(bs[1..]);
    }
  }

  /** On a valid step exactly one dot is highlighted, and it is the current step's. */
  lemma ExactlyOneDot(step: nat, n: nat)
    requires step < n
    ensures CountTrue(Dots(step, n)) == 1
    ensures Dots(step, n)[step]
  {
    CountSingle(Dots(step, n), step);
  }

  class Tour {
    var currentStep: nat
    /** How many times the tour has called `onComplete`. */
    var completions: nat

    /** The shown step is one of the four, so its title and content exist. */
    predicate Valid()
      reads this
    {
      currentStep < |Steps|
    }

    function Current(): (s: TourStep)
      requires Valid()
      reads this
      ensures s in Steps
    {
      Steps[currentStep]
    }

    constructor ()
      ensures Valid()
      ensures currentStep == 0 && completions == 0
      ensures Current().title == WelcomeTitle
    {
      currentStep := 0;
      completions := 0;
    }

    /** Next: move to the following step, or on the last step call `onComplete`. */
    method HandleNext()
      requires Valid()
      modifies this
      ensures Valid()
      ensures Next(old(currentStep), |Steps|).Moved? ==>
                currentStep == old(currentStep) + 1 && completions == old(completions)
      ensures Next(old(currentStep), |Steps|).Completed? ==>
                currentStep == old(currentStep) && completions == old(completions) + 1
    {
      if currentStep < |Steps| - 1 {
        currentStep := currentStep + 1;
      } else {
        completions := completions + 1;
      }
    }

    /** Skip: call `onComplete` from any step. */
    method Skip()
      requires Valid()
      modifies this
      ensures Valid()
      ensures currentStep == old(currentStep) && completions == old(completions) + 1
    {
      completions := completions + 1;
    }
  }
}

/**
 * The onboarding tour of the main client: a fixed list of steps, a current
 * index moved by the Next and Previous buttons, and what the tour box shows
 * for that index.
 */
module Tutorial {
  import opened Json

  /** A step of the tour: its title and, optionally, the elements it highlights. */
  datatype Step = Step(title: string, selector: Option<string>)

  const TutorialSteps: seq<Step> := [
    Step("Welcome to LoreCrafter!", None),
    Step("Generate Content", Some("#generate-btn, #generate-location-btn")),
    Step("View Your Creations", Some("#characters-panel, #locations-panel")),
    Step("The World Graph & Map", Some("#world-graph-panel, #world-map-panel")),
    Step("Custom World Map", Some("#map-settings-panel")),
    Step("Export Your World", Some("#export-panel"))
  ]

  const LastStep: int := |TutorialSteps| - 1

  const NextLabel := "Next"
  const FinishLabel := "Finish"

  /** The index `nextStep` leaves: one further, except at the last step, where it is kept. */
  function NextIndex(i: int): (r: int)
    ensures 0 <= i <= LastStep ==> 0 <= r <= LastStep
    ensures i < LastStep ==> r == i + 1
    ensures i >= LastStep ==> r == i
  {
    if i < LastStep then i + 1 else i
  }

  /** `nextStep` closes the tour instead of advancing exactly at (or past) the last step. */
  predicate NextCloses(i: int) {
    !(i < LastStep)
  }

  /** The index `prevStep` leaves: one back, except at the first step. */
  function PrevIndex(i: int): (r: int)
    ensures 0 <= i <= LastStep ==> 0 <= r <= LastStep
    ensures i > 0 ==> r == i - 1
    ensures i <= 0 ==> r == i
  {
    if i > 0 then i - 1 else i
  }

  /** What `renderTutorialStep` puts on screen for a step. */
  datatype View = View(
    title: string,
    position: nat,          // the indicator's left number
    total: nat,             // the indicator's right number
    previousVisible: bool,
    nextText: string,
    highlight: Option<string>)

  function Render(i: int): (v: View)
    requires 0 <= i <= LastStep
    ensures 1 <= v.position <= v.total && v.total == |TutorialSteps| && v.position == i + 1
    ensures !v.previousVisible <==> i == 0
    ensures v.nextText == FinishLabel <==> i == LastStep
    ensures v.nextText in {NextLabel, FinishLabel}
    ensures v.title == TutorialSteps[i].title && v.highlight == TutorialSteps[i].selector
  {
    View(TutorialSteps[i].title,
         i + 1,
         |TutorialSteps|,
         i != 0,
         if i == LastStep then FinishLabel else NextLabel,
         TutorialSteps[i].selector)
  }

  /** The index after pressing Next `k` times from `i`. */
  function AfterNexts(i: int, k: nat): int
    decreases k
  {
    if k == 0 then i else AfterNexts(NextIndex(i), k - 1)
  }

  /** Pressing Next `k` times walks forward and stops at the last step. */
  lemma {:induction false} AfterNextsStops(i: int, k: nat)
    requires 0 <= i <= LastStep
    ensures AfterNexts(i, k) == if i + k <= LastStep then i + k else LastStep
    decreases k
  {
    if k > 0 {
      AfterNextsStops(NextIndex(i), k - 1);
    }
  }

  /** From a freshly opened tour, `LastStep` presses of Next reach the step whose button reads Finish. */
  lemma WalkthroughReachesFinish()
    ensures AfterNexts(0, LastStep) == LastStep && Render(LastStep).nextText == FinishLabel
    ensures forall k: nat :: k < LastStep ==> AfterNexts(0, k) == k && Render(k).nextText == NextLabel
  {
    AfterNextsStops(0, LastStep);
    forall k: nat | k < LastStep
      ensures AfterNexts(0, k) == k && Render(k).nextText == NextLabel
    {
      AfterNextsStops(0, k);
    }
  }

  /** Previous undoes Next wherever Next advanced, and Next undoes Previous wherever Previous retreated. */
  lemma NextPrevInverse(i: int)
    requires 0 <= i <= LastStep
    ensures i < LastStep ==> PrevIndex(NextIndex(i)) == i
    ensures i > 0 ==> NextIndex(PrevIndex(i)) == i
  {
  }

  /**
   * The module-level `currentStep`, the visibility of the tour box and the
   * "tutorial seen" flag kept in local storage.
   */
  class TutorialNavigator {
    var currentStep: int
    var visible: bool
    var seen: bool

    ghost predicate Valid()
      reads this
    {
      0 <= currentStep <= LastStep
    }

    /** Page load: the index starts at 0, the box is hidden, the flag is whatever storage holds. */
    constructor (seenBefore: bool)
      ensures Valid()
      ensures currentStep == 0 && !visible && seen == seenBefore
    {
      currentStep := 0;
      visible := false;
      seen := seenBefore;
    }

    /** `openTutorial`: always back to the first step. */
    method OpenTutorial() returns (v: View)
      modifies this
      ensures Valid()
      ensures currentStep == 0 && visible && seen == old(seen)
      ensures v == Render(0) && !v.previousVisible
    {
      currentStep := 0;
      visible := true;
      v := Render(currentStep);
    }

    /**
     * `initializeTutorial`: on a visit where the tour has not been seen, it
     * opens at the first step; otherwise nothing changes.
     */
    method InitializeTutorial() returns (v: Option<View>)
      modifies this
      ensures !old(seen) ==> currentStep == 0 && visible && !seen && v == Some(Render(0))
      ensures old(seen) ==> v.None? && currentStep == old(currentStep) && visible == old(visible) && seen
    {
      if !seen {
        var shown := OpenTutorial();
        v := Some(shown);
      } else {
        v := None;
      }
    }

    /** `closeTutorial`: hides the box and records that the tour was seen; the index stays. */
    method CloseTutorial()
      modifies this
      ensures !visible && seen
      ensures currentStep == old(currentStep)
    {
      visible := false;
      seen := true;
    }

    /** `nextStep`: advance and re-render, or close the tour at the last step. */
    method NextStep() returns (v: Option<View>)
      requires Valid()
      modifies this
      ensures Valid()
      ensures currentStep == NextIndex(old(currentStep))
      ensures !NextCloses(old(currentStep)) ==>
                currentStep == old(currentStep) + 1 && v == Some(Render(currentStep)) &&
                visible == old(visible) && seen == old(seen)
      ensures NextCloses(old(currentStep)) ==>
                currentStep == old(currentStep) && v.None? && !visible && seen
    {
      if currentStep < LastStep {
        currentStep := currentStep + 1;
        v := Some(Render(currentStep));
      } else {
        CloseTutorial();
        v := None;
      }
    }

    /** `prevStep`: step back and re-render, or do nothing at the first step. */
    method PrevStep() returns (v: Option<View>)
      requires Valid()
      modifies this
      ensures Valid()
      ensures currentStep == PrevIndex(old(currentStep))
      ensures visible == old(visible) && seen == old(seen)
      ensures old(currentStep) > 0 ==> v == Some(Render(currentStep))
      ensures old(currentStep) == 0 ==> v.None?
    {
      if currentStep > 0 {
        currentStep := currentStep - 1;
        v := Some(Render(currentStep));
      } else {
        v := None;
      }
    }
  }

  /**
   * Page load: the navigator starts hidden at step 0 with the stored "seen"
   * flag, and the tour is shown exactly when it has not been seen, at its
   * first step.
   */
  method PageLoad(seenBefore: bool) returns (nav: TutorialNavigator, v: Option<View>)
    ensures fresh(nav) && nav.Valid() && nav.seen == seenBefore
    ensures nav.visible <==> !nav.seen
    ensures !seenBefore ==> nav.currentStep == 0 && v == Some(Render(0))
    ensures seenBefore ==> v.None?
  {
    nav := new TutorialNavigator(seenBefore);
    v := nav.InitializeTutorial();
  }
}

/**
 * The onboarding tour: seven steps walked with Next and Previous, left with
 * Skip or with Next on the last step. `onComplete` is modelled by the
 * `completed` flag.
 */
module Onboarding {

  datatype Step = Step(title: string, description: string, icon: string)

  /** The tour, in order. */
  const Steps: seq<Step> := [
    Step("Welcome to Weather Disaster Tracker",
         "Your comprehensive tool for tracking natural disasters, staying safe, and reporting emergencies.",
         "\U{1F32A}\U{FE0F}"),
    Step("Interactive Map",
         "View real-time tracking of hurricanes and storms with live satellite imagery. See active storm pins with detailed information.",
         "\U{1F5FA}\U{FE0F}"),
    Step("Report Emergencies",
         "Quickly report emergencies in your area. Your reports help authorities organize and respond to disasters effectively.",
         "\U{1F6A8}"),
    Step("Analytics & Tracking",
         "Access detailed analytics showing hurricane paths, wind speeds, and growth patterns over time.",
         "\U{1F4CA}"),
    Step("Bluetooth Communication",
         "Connect with nearby devices using low-energy Bluetooth to share critical information when internet is unavailable.",
         "\U{1F4E1}"),
    Step("Emergency Contacts",
         "Find regional emergency contacts quickly when you need them most.",
         "\U{1F4DE}"),
    Step("AI Assistant",
         "Click the chat button (available on every page) to get disaster safety tips, evacuation guidance, and emergency preparedness advice.",
         "\U{1F916}")
  ]

  /** The index of the last step. */
  const LastStep: nat := |Steps| - 1

  /** The label of the primary button on a step. */
  function ButtonLabel(step: nat): string
  {
    if step == |Steps| - 1 then "Get Started" else "Next"
  }

  /** The primary button reads "Get Started" on the last step and "Next" on every other. */
  lemma ButtonLabelIff(step: nat)
    requires step < |Steps|
    ensures ButtonLabel(step) == "Get Started" <==> step == 6
    ensures ButtonLabel(step) == "Next" <==> step != 6
  {
  }

  /** One progress dot per step, true for the wide (active) one. */
  function Dots(step: nat): (dots: seq<bool>)
    ensures |dots| == |Steps|
  {
    seq(|Steps|, index requires 0 <= index < |Steps| => index == step)
  }

  /** The indices of the active dots. */
  function ActiveDots(dots: seq<bool>): set<nat>
  {
    set index: nat | index < |dots| && dots[index]
  }

  /** On every step exactly one dot is active: the one at the current step. */
  lemma ExactlyOneDot(step: nat)
    requires step < |Steps|
    ensures ActiveDots(Dots(step)) == {step}
    ensures |ActiveDots(Dots(step))| == 1
  {
    var dots := Dots(step);
    assert dots[step];
    assert forall index: nat :: index in ActiveDots(dots) ==> index == step;
  }

  /** The state of the component: the shown step and whether `onComplete` has been called. */
  class Guide {
    var currentStep: nat
    var completed: bool

    /** The shown step is always one of the tour's steps. */
    predicate Valid()
      reads this
    {
      currentStep < |Steps|
    }

    constructor ()
      ensures Valid() && currentStep == 0 && !completed
    {
      currentStep := 0;
      completed := false;
    }

    /** The step on screen. */
    function Current(): Step
      reads this
      requires Valid()
    {
      Steps[currentStep]
    }

    /** `handleNext`: advance below the last step, complete on it. */
    method Next()
      requires Valid()
      modifies this
      ensures Valid()
      ensures old(currentStep) < LastStep ==> currentStep == old(currentStep) + 1 && completed == old(completed)
      ensures old(currentStep) == LastStep ==> currentStep == old(currentStep) && completed
    {
      if currentStep < |Steps| - 1 {
        currentStep := currentStep + 1;
      } else {
        completed := true;
      }
    }

    /** `handlePrev`: step back, except on the first step (where the button is disabled). */
    method Prev()
      requires Valid()
      modifies this
      ensures Valid()
      ensures old(currentStep) > 0 ==> currentStep == old(currentStep) - 1
      ensures old(currentStep) == 0 ==> currentStep == 0
      ensures completed == old(completed)
    {
      if currentStep > 0 {
        currentStep := currentStep - 1;
      }
    }

    /** `handleSkip` (the close button and "Skip Tour"): complete from any step. */
    method Skip()
      requires Valid()
      modifies this
      ensures Valid()
      ensures currentStep == old(currentStep) && completed
    {
      completed := true;
    }
  }

  /** Next then Previous returns to the step it started from, when not on the last step. */
  method NextThenPrev(g: Guide)
    requires g.Valid() && g.currentStep < LastStep
    modifies g
    ensures g.Valid() && g.currentStep == old(g.currentStep) && g.completed == old(g.completed)
  {
    g.Next();
    g.Prev();
  }
}

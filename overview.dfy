/** The older stepper of frontend/dump/AssessmentOverview.jsx: the same three
    steps with no validation and no submission; Next and Previous only move
    the cursor, and a Submit button on step 3 only raises an alert. */
module AssessmentOverview {
  import opened Forms
  import Cursor

  const SubmittedAlert := "Form Submitted! Check the console for data."

  /** The draft as this stepper mounts it. */
  function InitialDraft(): Draft
  {
    map[
      "assessmentOverview" := map[
        "name" := Text(""), "description" := Text(""), "registrationStart" := Text(""),
        "registrationEnd" := Text(""), "maxRegistrations" := Text(""), "guidelines" := Text("")],
      "testConfiguration" := map[
        "sections" := Text(""), "questions" := Text(""), "duration" := Text(""),
        "fullScreenMode" := Flag(false), "faceDetection" := Flag(false),
        "deviceRestriction" := Flag(false), "noiseDetection" := Flag(false),
        "passPercentage" := Text("")],
      "sectionDetails" := map["sectionTitles" := Titles([])]
    ]
  }

  /** The stepper component's state. */
  class Stepper {
    var currentStep: int
    var formData: Draft
    /** Every alert raised so far, in order. */
    var effects: seq<Effect>

    ghost predicate Valid()
      reads this
    {
      Cursor.FirstStep <= currentStep <= Cursor.LastStep
    }

    constructor ()
      ensures Valid()
      ensures currentStep == 1 && formData == InitialDraft() && effects == []
    {
      currentStep := 1;
      formData := InitialDraft();
      effects := [];
    }

    /** `handleInputChange(e, step)`: the field named by the event's target, in section `step`, gets the event's value. */
    method HandleInputChange(t: Target, step: string)
      modifies this`formData
      ensures formData == SetDraftField(old(formData), step, t)
    {
      formData := SetDraftField(formData, step, t);
    }

    /** `nextStep()`: one step forward below step 3, whatever the draft holds. */
    method NextStep()
      requires Valid()
      modifies this`currentStep
      ensures Valid()
      ensures currentStep == Cursor.Advance(old(currentStep))
    {
      if currentStep < 3 {
        currentStep := currentStep + 1;
      }
    }

    /** `previousStep()`: one step back above step 1. */
    method PreviousStep()
      requires Valid()
      modifies this`currentStep
      ensures Valid()
      ensures currentStep == Cursor.Retreat(old(currentStep))
    {
      if currentStep > 1 {
        currentStep := currentStep - 1;
      }
    }

    /** `handleFinalSubmit()`: raises the "Form Submitted!" alert and nothing else. */
    method HandleFinalSubmit()
      modifies this`effects
      ensures effects == old(effects) + [Alert(SubmittedAlert)]
    {
      effects := effects + [Alert(SubmittedAlert)];
    }

    /** Which navigation buttons are rendered: Previous above step 1, Next
        below step 3 and Submit on step 3, so Next and Submit never appear together. */
    method Buttons() returns (previous: bool, next: bool, submit: bool)
      requires Valid()
      ensures previous <==> currentStep > 1
      ensures next <==> currentStep < 3
      ensures submit <==> currentStep == 3
      ensures next != submit
    {
      previous := Cursor.ShowsPrevious(currentStep);
      next := Cursor.ShowsNext(currentStep);
      submit := Cursor.ShowsSubmit(currentStep);
    }
  }
}

/** The older one-section configuration page of frontend/dump/TestConfiguration.jsx:
    a flat draft with a change handler, a submit that always navigates to the
    section-details page and a Previous button that navigates home. */
module TestConfiguration {
  import opened Forms

  const TextFields: seq<string> := ["sections", "questions", "duration", "passPercentage"]
  const Toggles: seq<string> :=
    ["fullScreenMode", "faceDetection", "deviceRestriction", "noiseDetection", "negativeMarking"]
  const ChoiceFields: seq<string> := ["negativeMarkingType", "resultVisibility"]

  /** The two options of the result-visibility radio group. */
  const ResultOptions: seq<string> := ["Immediate release", "After test completed"]

  const SubmitPath := "/section-details"
  const PreviousPath := "/"

  /** The form as the page mounts it. */
  function InitialForm(): Section
  {
    map[
      "sections" := Text(""), "questions" := Text(""), "duration" := Text(""),
      "passPercentage" := Text(""),
      "fullScreenMode" := Flag(false), "faceDetection" := Flag(false),
      "deviceRestriction" := Flag(false), "noiseDetection" := Flag(false),
      "negativeMarking" := Flag(false),
      "negativeMarkingType" := Text(""), "resultVisibility" := Text("")
    ]
  }

  /** Every text and number field starts as "", every toggle as off, and
      there are no other fields. */
  lemma InitialFormBlank()
    ensures forall f :: f in TextFields + ChoiceFields ==> Get(InitialForm(), f) == Some(Text(""))
    ensures forall f :: f in Toggles ==> Get(InitialForm(), f) == Some(Flag(false))
    ensures forall f :: f in InitialForm() ==> f in TextFields + Toggles + ChoiceFields
    ensures WellFormed(InitialForm())
  {
  }

  /** The change events the page's inputs can fire: a number or time input,
      a toggle checkbox, or a result-visibility radio carrying its option. */
  predicate Rendered(t: Target)
  {
    || (t.name in TextFields && t.inputType != "checkbox")
    || (t.name in Toggles && t.inputType == "checkbox")
    || (t.name == "resultVisibility" && t.inputType == "radio" && t.value in ResultOptions)
  }

  /** The form after the change events `ts`, in order. */
  function ApplyChanges(sec: Section, ts: seq<Target>): Section
    decreases |ts|
  {
    if ts == [] then sec else ApplyChanges(SetField(sec, ts[0]), ts[1..])
  }

  /** `resultVisibility` is "" or one of the two options, and the form has
      exactly the fields it was mounted with. */
  ghost predicate WellFormed(sec: Section)
  {
    && sec.Keys == InitialForm().Keys
    && sec["resultVisibility"].Text?
    && sec["resultVisibility"].text in [""] + ResultOptions
  }

  /** Whatever the user does with the page's inputs, `resultVisibility` only
      ever holds "" or one of the two options, and no field appears or vanishes. */
  lemma {:induction false} RenderedChangesKeepWellFormed(sec: Section, ts: seq<Target>)
    requires WellFormed(sec)
    requires forall i :: 0 <= i < |ts| ==> Rendered(ts[i])
    ensures WellFormed(ApplyChanges(sec, ts))
    decreases |ts|
  {
    if ts != [] {
      var t := ts[0];
      var sec' := SetField(sec, t);
      assert t.name in InitialForm().Keys;
      assert t.name == "resultVisibility" ==> NewValue(t) == Text(t.value);
      RenderedChangesKeepWellFormed(sec', ts[1..]);
    }
  }

  /** The page's state. */
  class Page {
    var formData: Section
    /** Every navigation requested so far, in order. */
    var effects: seq<Effect>

    constructor ()
      ensures formData == InitialForm() && effects == []
    {
      formData := InitialForm();
      effects := [];
    }

    /** `handleChange(e)`: the field named by the event's target gets the event's value. */
    method HandleChange(t: Target)
      modifies this`formData
      ensures formData == SetField(old(formData), t)
    {
      formData := SetField(formData, t);
    }

    /** `handleSubmit(e)`: navigates to "/section-details" whatever the form
        holds; the form itself is left as it is. */
    method HandleSubmit()
      modifies this`effects
      ensures effects == old(effects) + [Navigate(SubmitPath)]
    {
      effects := effects + [Navigate(SubmitPath)];
    }

    /** The Previous button's handler: navigates to "/". */
    method PreviousClick()
      modifies this`effects
      ensures effects == old(effects) + [Navigate(PreviousPath)]
    {
      effects := effects + [Navigate(PreviousPath)];
    }
  }
}

/** The assessment-creation wizard of frontend/src/pages/singleFile.jsx: a step
    cursor, a three-section draft and the generated contest id, with per-step
    validation gating Next and the save / start-contest hand-off at step 2.

    Remote calls, the id generator, `document.cookie` and `localStorage` are
    outside the model: the generated id, the cookie string and the outcomes of
    the two requests are parameters of `NextStep`, and every outward action is
    appended, in order, to the `effects` log. */
module Wizard {
  import opened Forms
  import Cursor
  import Cookies

  const OverviewSection := "assessmentOverview"
  const ConfigSection := "testConfiguration"
  const DetailsSection := "sectionDetails"

  /** The six fields step 1 requires. */
  const OverviewFields: seq<string> :=
    ["name", "description", "registrationStart", "registrationEnd", "maxRegistrations", "guidelines"]

  /** The four fields step 2 requires; its toggles and radio groups are not checked. */
  const RequiredConfigFields: seq<string> := ["sections", "questions", "duration", "passPercentage"]

  /** The boolean toggles of step 2. */
  const ConfigToggles: seq<string> :=
    ["fullScreenMode", "faceDetection", "deviceRestriction", "noiseDetection",
     "negativeMarking", "shuffleQuestions", "shuffleOptions"]

  const FillRequiredAlert := "Please fill in all required fields before proceeding."
  const StartFailedAlert := "Failed to start the contest. Please try again."
  const TokenKey := "contestToken"
  const SectionDetailsPath := "/sectionDetails"

  /** How the save request ended: a 2xx response, another status, or a thrown error. */
  datatype SaveOutcome = SaveOk | SaveRejected | SaveThrew

  /** How the start-contest request ended: a response carrying a token, or a thrown error. */
  datatype TokenReply = TokenIssued(token: string) | TokenFailed

  /** The draft as the wizard mounts it. */
  function InitialDraft(): Draft
  {
    map[
      OverviewSection := map[
        "name" := Text(""), "description" := Text(""), "registrationStart" := Text(""),
        "registrationEnd" := Text(""), "maxRegistrations" := Text(""), "guidelines" := Text("")],
      ConfigSection := map[
        "sections" := Text(""), "questions" := Text(""), "duration" := Text(""),
        "fullScreenMode" := Flag(false), "faceDetection" := Flag(false),
        "deviceRestriction" := Flag(false), "noiseDetection" := Flag(false),
        "passPercentage" := Text(""), "negativeMarking" := Flag(false),
        "shuffleQuestions" := Flag(false), "shuffleOptions" := Flag(false),
        "resultVisibility" := Text(""), "submissionRule" := Text("")],
      DetailsSection := map["sectionTitles" := Titles([])]
    ]
  }

  /** Every text field of the initial draft is empty, every toggle is off and
      there are no section titles. */
  lemma InitialDraftBlank()
    ensures forall f :: f in OverviewFields ==> Lookup(InitialDraft(), OverviewSection, f) == Some(Text(""))
    ensures forall f :: f in RequiredConfigFields ==> Lookup(InitialDraft(), ConfigSection, f) == Some(Text(""))
    ensures forall f :: f in ConfigToggles ==> Lookup(InitialDraft(), ConfigSection, f) == Some(Flag(false))
    ensures Lookup(InitialDraft(), DetailsSection, "sectionTitles") == Some(Titles([]))
  {
  }

  /** True when every field of `fields` in section `step` is truthy. */
  predicate AllTruthy(d: Draft, step: string, fields: seq<string>)
  {
    forall i :: 0 <= i < |fields| ==> Truthy(Lookup(d, step, fields[i]))
  }

  /** `formData.sectionDetails.sectionTitles.length`; a missing or boolean
      entry has no length and counts as 0. */
  function TitleCount(d: Draft): nat
  {
    match Lookup(d, DetailsSection, "sectionTitles")
    case Some(Titles(ts)) => |ts|
    case Some(Text(s)) => |s|
    case _ => 0
  }

  /** `validateStep()` for cursor value `step`. */
  predicate ValidateStep(step: int, d: Draft)
  {
    if step == 1 then AllTruthy(d, OverviewSection, OverviewFields)
    else if step == 2 then AllTruthy(d, ConfigSection, RequiredConfigFields)
    else if step == 3 then TitleCount(d) > 0
    else true
  }

  /** The section whose fields `ValidateStep` reads at `step`. */
  function StepSection(step: int): string
  {
    if step == 1 then OverviewSection else if step == 2 then ConfigSection else DetailsSection
  }

  /** Step 1 rejects a draft in which any required overview field is missing or empty. */
  lemma StepOneNeedsEveryField(d: Draft, f: string)
    requires f in OverviewFields
    requires Lookup(d, OverviewSection, f) == None || Lookup(d, OverviewSection, f) == Some(Text(""))
    ensures !ValidateStep(1, d)
  {
    var i :| 0 <= i < |OverviewFields| && OverviewFields[i] == f;
    assert !Truthy(Lookup(d, OverviewSection, OverviewFields[i]));
  }

  /** On the text inputs of step 1, validation holds iff all six fields are non-empty. */
  lemma StepOneIff(d: Draft)
    requires forall f :: f in OverviewFields ==> Lookup(d, OverviewSection, f).Some? && Lookup(d, OverviewSection, f).value.Text?
    ensures ValidateStep(1, d) <==> forall f :: f in OverviewFields ==> Lookup(d, OverviewSection, f).value.text != ""
  {
    if ValidateStep(1, d) {
      forall f | f in OverviewFields ensures Lookup(d, OverviewSection, f).value.text != "" {
        var i :| 0 <= i < |OverviewFields| && OverviewFields[i] == f;
      }
    }
  }

  /** On the text inputs of step 2, validation holds iff the four required
      fields are non-empty. */
  lemma StepTwoIff(d: Draft)
    requires forall f :: f in RequiredConfigFields ==> Lookup(d, ConfigSection, f).Some? && Lookup(d, ConfigSection, f).value.Text?
    ensures ValidateStep(2, d) <==> forall f :: f in RequiredConfigFields ==> Lookup(d, ConfigSection, f).value.text != ""
  {
    if ValidateStep(2, d) {
      forall f | f in RequiredConfigFields ensures Lookup(d, ConfigSection, f).value.text != "" {
        var i :| 0 <= i < |RequiredConfigFields| && RequiredConfigFields[i] == f;
      }
    }
  }

  /** Step 3 holds iff at least one section title is present. */
  lemma StepThreeIff(d: Draft, titles: seq<string>)
    requires Lookup(d, DetailsSection, "sectionTitles") == Some(Titles(titles))
    ensures ValidateStep(3, d) <==> |titles| > 0
  {
  }

  /** Any cursor value other than 1, 2 and 3 passes validation. */
  lemma OtherStepsPass(step: int, d: Draft)
    requires step != 1 && step != 2 && step != 3
    ensures ValidateStep(step, d)
  {
  }

  /** Validation at `step` ignores every change except one to a field it
      requires: changes to other sections, and at step 2 to the toggles and
      radio groups, leave it as it was. */
  lemma ValidateIgnoresOtherFields(step: int, d: Draft, section: string, t: Target)
    requires 1 <= step <= 2
    requires section != StepSection(step)
      || (step == 1 && t.name !in OverviewFields)
      || (step == 2 && t.name !in RequiredConfigFields)
    ensures ValidateStep(step, SetDraftField(d, section, t)) == ValidateStep(step, d)
  {
    var fields := if step == 1 then OverviewFields else RequiredConfigFields;
    forall i | 0 <= i < |fields|
      ensures Lookup(SetDraftField(d, section, t), StepSection(step), fields[i]) == Lookup(d, StepSection(step), fields[i])
    {
      SetDraftFieldLookup(d, section, t, StepSection(step), fields[i]);
    }
  }

  /** The mounted wizard cannot leave steps 1, 2 or 3: each one is missing something. */
  lemma InitialDraftBlocksEveryStep()
    ensures !ValidateStep(1, InitialDraft())
    ensures !ValidateStep(2, InitialDraft())
    ensures !ValidateStep(3, InitialDraft())
  {
    StepOneNeedsEveryField(InitialDraft(), "name");
    assert !Truthy(Lookup(InitialDraft(), ConfigSection, RequiredConfigFields[0]));
  }

  /** The body of the save request for contest id `id`. */
  function Payload(id: string, d: Draft): SavePayload
  {
    SavePayload(id, SectionOf(d, OverviewSection), SectionOf(d, ConfigSection))
  }

  /** The cursor after `nextStep()`: unchanged when validation fails and at step 2. */
  function NextCursor(step: int, d: Draft): int
  {
    if !ValidateStep(step, d) || step == 2 then step else Cursor.Advance(step)
  }

  /** `contestid` after `nextStep()` with generated id `id`. */
  function NextContestId(step: int, d: Draft, prior: Option<string>, id: string): Option<string>
  {
    if ValidateStep(step, d) && step == 2 then Some(id) else prior
  }

  /** The effects of the submission at step 2: the save request, then the
      start-contest request with the same id, then on a token the storage
      write and the navigation, or on a failure the alert. */
  function SubmissionEffects(d: Draft, id: string, cookie: string, reply: TokenReply): seq<Effect>
  {
    [SaveData(Payload(id, d)), StartContest(id, Cookies.CsrfToken(cookie))]
    + match reply
      case TokenIssued(token) => [StoreItem(TokenKey, token), Navigate(SectionDetailsPath)]
      case TokenFailed => [Alert(StartFailedAlert)]
  }

  /** The effects of `nextStep()`; the outcome of the save request is not a
      parameter, since `saveDataToMongoDB` only logs it. */
  function NextEffects(step: int, d: Draft, id: string, cookie: string, reply: TokenReply): seq<Effect>
  {
    if !ValidateStep(step, d) then [Alert(FillRequiredAlert)]
    else if step == 2 then SubmissionEffects(d, id, cookie, reply)
    else []
  }

  /** A failed validation changes nothing and raises only the "fill in all
      required fields" alert. */
  lemma InvalidNextChangesNothing(step: int, d: Draft, prior: Option<string>, id: string, cookie: string, reply: TokenReply)
    requires !ValidateStep(step, d)
    ensures NextCursor(step, d) == step
    ensures NextContestId(step, d, prior, id) == prior
    ensures NextEffects(step, d, id, cookie, reply) == [Alert(FillRequiredAlert)]
  {
  }

  /** A valid Next at step 1 moves to step 2 and makes no request. */
  lemma ValidNextFromOne(d: Draft, prior: Option<string>, id: string, cookie: string, reply: TokenReply)
    requires ValidateStep(1, d)
    ensures NextCursor(1, d) == 2
    ensures NextContestId(1, d, prior, id) == prior
    ensures NextEffects(1, d, id, cookie, reply) == []
  {
  }

  /** A valid Next at step 2 stores the generated id, saves exactly the draft's
      overview and configuration under it, then asks for a token with the same
      id, and leaves the cursor at 2. */
  lemma SubmissionOrder(d: Draft, prior: Option<string>, id: string, cookie: string, reply: TokenReply)
    requires ValidateStep(2, d)
    ensures NextCursor(2, d) == 2
    ensures NextContestId(2, d, prior, id) == Some(id)
    ensures var e := NextEffects(2, d, id, cookie, reply);
      && |e| >= 3
      && e[0] == SaveData(SavePayload(id, SectionOf(d, OverviewSection), SectionOf(d, ConfigSection)))
      && e[1] == StartContest(id, Cookies.CsrfToken(cookie))
      && (reply.TokenIssued? ==>
            |e| == 4 && e[2] == StoreItem(TokenKey, reply.token) && e[3] == Navigate(SectionDetailsPath))
      && (reply == TokenFailed ==> |e| == 3 && e[2] == Alert(StartFailedAlert))
  {
  }

  /** The token is stored under "contestToken" and navigation to
      "/sectionDetails" requested exactly when a valid Next at step 2 gets a
      token; when the request fails the only alert is "Failed to start the contest". */
  lemma TokenStoredOnlyOnSuccess(step: int, d: Draft, id: string, cookie: string, reply: TokenReply)
    ensures forall key, item ::
              (StoreItem(key, item) in NextEffects(step, d, id, cookie, reply)
               <==> ValidateStep(step, d) && step == 2 && key == TokenKey && reply == TokenIssued(item))
    ensures forall path ::
              (Navigate(path) in NextEffects(step, d, id, cookie, reply)
               <==> ValidateStep(step, d) && step == 2 && path == SectionDetailsPath && reply.TokenIssued?)
    ensures ValidateStep(step, d) && step == 2 && reply == TokenFailed ==>
      && (forall m :: Alert(m) in NextEffects(step, d, id, cookie, reply) <==> m == StartFailedAlert)
      && |NextEffects(step, d, id, cookie, reply)| == 3
      && NextEffects(step, d, id, cookie, reply)[2] == Alert(StartFailedAlert)
  {
  }

  /** Requests are made only by a valid Next at step 2. */
  lemma RequestsOnlyFromStepTwo(step: int, d: Draft, id: string, cookie: string, reply: TokenReply)
    ensures (exists p :: SaveData(p) in NextEffects(step, d, id, cookie, reply)) <==> ValidateStep(step, d) && step == 2
    ensures (exists c, t :: StartContest(c, t) in NextEffects(step, d, id, cookie, reply)) <==> ValidateStep(step, d) && step == 2
  {
    if ValidateStep(step, d) && step == 2 {
      assert SaveData(Payload(id, d)) in NextEffects(step, d, id, cookie, reply);
      assert StartContest(id, Cookies.CsrfToken(cookie)) in NextEffects(step, d, id, cookie, reply);
    }
  }

  /** Neither Next nor Previous ever takes the cursor from 1..2 to 3. */
  lemma CursorNeverReachesThree(step: int, d: Draft)
    requires 1 <= step <= 2
    ensures 1 <= NextCursor(step, d) <= 2
    ensures 1 <= Cursor.Retreat(step) <= 2
  {
  }

  /** A change followed by submission sends the values of the latest edits:
      every overview and configuration field in the save request holds its
      last edited value, or its initial value when it was never edited. */
  lemma SubmittedDraftHoldsLastWrites(edits: seq<Edit>, id: string, name: string)
    ensures Get(Payload(id, ApplyEdits(InitialDraft(), edits)).assessmentOverview, name)
            == (match LastWrite(edits, OverviewSection, name)
                case Some(v) => Some(v)
                case None => Lookup(InitialDraft(), OverviewSection, name))
    ensures Get(Payload(id, ApplyEdits(InitialDraft(), edits)).testConfiguration, name)
            == (match LastWrite(edits, ConfigSection, name)
                case Some(v) => Some(v)
                case None => Lookup(InitialDraft(), ConfigSection, name))
  {
    EditsLastWriteWins(InitialDraft(), edits, OverviewSection, name);
    EditsLastWriteWins(InitialDraft(), edits, ConfigSection, name);
  }

  /** The three scoring toggles call `handleChange(e)` with no section, so
      their edits land in a section keyed "undefined": they change neither what
      is validated nor what is saved. */
  lemma UnboundTogglesMissTheDraft(d: Draft, step: int, id: string, t: Target)
    ensures Payload(id, SetDraftField(d, "undefined", t)) == Payload(id, d)
    ensures ValidateStep(step, SetDraftField(d, "undefined", t)) == ValidateStep(step, d)
  {
    if 1 <= step <= 2 {
      ValidateIgnoresOtherFields(step, d, "undefined", t);
    }
    SetDraftFieldLookup(d, "undefined", t, DetailsSection, "sectionTitles");
  }

  /** The wizard component's state. */
  class Stepper {
    var currentStep: int
    var formData: Draft
    var contestId: Option<string>
    /** Every alert, request, storage write and navigation so far, in order. */
    var effects: seq<Effect>

    /** The cursor stays at 1 or 2, and the three sections are never lost. */
    ghost predicate Valid()
      reads this
    {
      && 1 <= currentStep <= 2
      && OverviewSection in formData && ConfigSection in formData && DetailsSection in formData
    }

    constructor ()
      ensures Valid()
      ensures currentStep == 1 && formData == InitialDraft() && contestId == None && effects == []
    {
      currentStep := 1;
      formData := InitialDraft();
      contestId := None;
      effects := [];
    }

    /** `handleChange(e, step)`, and `handleInputChange(e, step)`, which is the
        same update: the field named by the event's target, in section `step`, gets the event's value. */
    method HandleChange(t: Target, step: string)
      requires Valid()
      modifies this`formData
      ensures Valid()
      ensures formData == SetDraftField(old(formData), step, t)
    {
      formData := SetDraftField(formData, step, t);
    }

    /** `saveDataToMongoDB(id)`: sends the overview and configuration under
        `id`. Whatever the outcome, it is only logged and nothing is reported
        back to the caller. */
    method SaveDataToMongoDB(id: string, outcome: SaveOutcome)
      modifies this`effects
      ensures effects == old(effects) + [SaveData(SavePayload(id, SectionOf(formData, OverviewSection), SectionOf(formData, ConfigSection)))]
    {
      var payload := SavePayload(id, SectionOf(formData, OverviewSection), SectionOf(formData, ConfigSection));
      effects := effects + [SaveData(payload)];
      match outcome {
        case SaveOk =>       // logged as saved
        case SaveRejected => // logged as a failed save
        case SaveThrew =>    // the error is caught and logged
      }
    }

    /** `nextStep()`, with the generated id, the cookie string and the two
        request outcomes given. */
    method NextStep(generatedId: string, cookie: string, save: SaveOutcome, reply: TokenReply)
      requires Valid()
      modifies this`currentStep, this`contestId, this`effects
      ensures Valid()
      ensures currentStep == NextCursor(old(currentStep), formData)
      ensures contestId == NextContestId(old(currentStep), formData, old(contestId), generatedId)
      ensures effects == old(effects) + NextEffects(old(currentStep), formData, generatedId, cookie, reply)
    {
      if ValidateStep(currentStep, formData) {
        if currentStep == 2 {
          var id := generatedId;
          contestId := Some(id);
          SaveDataToMongoDB(id, save);
          effects := effects + [StartContest(id, Cookies.CsrfToken(cookie))];
          match reply {
            case TokenIssued(token) =>
              effects := effects + [StoreItem(TokenKey, token)];
              effects := effects + [Navigate(SectionDetailsPath)];
            case TokenFailed =>
              effects := effects + [Alert(StartFailedAlert)];
          }
          return;
        }
        if currentStep < 3 {
          currentStep := currentStep + 1;
        }
      } else {
        effects := effects + [Alert(FillRequiredAlert)];
      }
    }

    /** `previousStep()`. */
    method PreviousStep()
      requires Valid()
      modifies this`currentStep
      ensures Valid()
      ensures currentStep == Cursor.Retreat(old(currentStep))
    {
      if currentStep > 1 {
        currentStep := currentStep - 1;
      }
    }

    /** Which navigation buttons are rendered: Previous only on step 2, and
        Next always, since the cursor never reaches 3. */
    method Buttons() returns (previous: bool, next: bool)
      requires Valid()
      ensures previous <==> currentStep == 2
      ensures next
    {
      previous := Cursor.ShowsPrevious(currentStep);
      next := Cursor.ShowsNext(currentStep);
    }
  }
}

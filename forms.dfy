/** Vocabulary shared by the three form components of the assessment-creation
    flow: the values a draft field can hold, the change event's target, the
    spread-based updaters that the change handlers hand to React, JavaScript
    truthiness on those values, and the outward effects the components cause. */
module Forms {

  datatype Option<+T> = None | Some(value: T)

  /** A draft field: the text of an input (numbers, dates and times included,
      since the browser hands them over as strings), the state of a checkbox,
      or a list of section titles. */
  datatype Value = Text(text: string) | Flag(on: bool) | Titles(titles: seq<string>)

  /** The parts of `e.target` that the change handlers read. */
  datatype Target = Target(name: string, value: string, inputType: string, checked: bool)

  /** One section of the draft, keyed by field name. */
  type Section = map<string, Value>

  /** The whole draft, keyed by section name. */
  type Draft = map<string, Section>

  /** What the component does outside its own state: an `alert`, a router
      navigation, a `localStorage.setItem`, and the two remote requests. */
  datatype Effect =
    | Alert(message: string)
    | Navigate(path: string)
    | StoreItem(key: string, item: string)
    | SaveData(payload: SavePayload)
    | StartContest(contestId: string, csrfToken: Option<string>)

  /** The body of the save request. */
  datatype SavePayload = SavePayload(contestId: string, assessmentOverview: Section, testConfiguration: Section)

  /** The value a change event writes: `checked` for a checkbox, `value` otherwise. */
  function NewValue(t: Target): Value
  {
    if t.inputType == "checkbox" then Flag(t.checked) else Text(t.value)
  }

  /** The field `name` of a section; `None` stands for `undefined`. */
  function Get(sec: Section, name: string): Option<Value>
  {
    if name in sec then Some(sec[name]) else None
  }

  /** The section named `step`; a section not yet in the draft reads as empty, as spreading it adds no keys. */
  function SectionOf(d: Draft, step: string): Section
  {
    if step in d then d[step] else map[]
  }

  /** The field `name` of section `step`, if present. */
  function Lookup(d: Draft, step: string, name: string): Option<Value>
  {
    Get(SectionOf(d, step), name)
  }

  /** JavaScript truthiness of a field: a non-empty string, a checked box or
      any array (even an empty one) is truthy; `undefined` is not. */
  predicate Truthy(v: Option<Value>)
  {
    match v
    case None => false
    case Some(Text(s)) => s != ""
    case Some(Flag(b)) => b
    case Some(Titles(_)) => true
  }

  /** The spread update of a flat record: the target's field written, every other field kept. */
  function SetField(sec: Section, t: Target): (r: Section)
    ensures r.Keys == sec.Keys + {t.name}
    ensures r[t.name] == NewValue(t)
    ensures forall k :: k in sec && k != t.name ==> r[k] == sec[k]
  {
    sec[t.name := NewValue(t)]
  }

  /** The nested spread update: section `step` is rebuilt with the target's field written. */
  function SetDraftField(d: Draft, step: string, t: Target): (r: Draft)
    ensures r.Keys == d.Keys + {step}
    ensures r[step] == SetField(SectionOf(d, step), t)
    ensures forall s :: s in d && s != step ==> r[s] == d[s]
  {
    d[step := SetField(SectionOf(d, step), t)]
  }

  /** A change replaces exactly the edited field of the edited section; every
      other field of every section reads as before. */
  lemma SetDraftFieldLookup(d: Draft, step: string, t: Target, s: string, n: string)
    ensures Lookup(SetDraftField(d, step, t), s, n)
            == if s == step && n == t.name then Some(NewValue(t)) else Lookup(d, s, n)
  {
  }

  /** Two writes to the same field: the second one is all that remains. */
  lemma SetFieldLastWriteWins(sec: Section, t1: Target, t2: Target)
    requires t1.name == t2.name
    ensures SetField(SetField(sec, t1), t2) == SetField(sec, t2)
  {
  }

  /** Two writes to the same field of the same section: the second one is all that remains. */
  lemma SetDraftFieldLastWriteWins(d: Draft, step: string, t1: Target, t2: Target)
    requires t1.name == t2.name
    ensures SetDraftField(SetDraftField(d, step, t1), step, t2) == SetDraftField(d, step, t2)
  {
    SetFieldLastWriteWins(SectionOf(d, step), t1, t2);
  }

  /** One change event together with the section its handler was bound to. */
  datatype Edit = Edit(step: string, target: Target)

  /** The draft after the change events `edits`, in order. */
  function ApplyEdits(d: Draft, edits: seq<Edit>): Draft
    decreases |edits|
  {
    if edits == [] then d
    else ApplyEdits(SetDraftField(d, edits[0].step, edits[0].target), edits[1..])
  }

  /** Reference definition: the value of the latest edit of `step`/`name`, if any. */
  function LastWrite(edits: seq<Edit>, step: string, name: string): Option<Value>
    decreases |edits|
  {
    if edits == [] then None
    else
      var e := edits[|edits| - 1];
      if e.step == step && e.target.name == name then Some(NewValue(e.target))
      else LastWrite(edits[..|edits| - 1], step, name)
  }

  lemma {:induction false} ApplyEditsSnoc(d: Draft, edits: seq<Edit>, e: Edit)
    ensures ApplyEdits(d, edits + [e]) == SetDraftField(ApplyEdits(d, edits), e.step, e.target)
    decreases |edits|
  {
    if edits == [] {
      assert edits + [e] == [e];
      assert ApplyEdits(SetDraftField(d, e.step, e.target), []) == SetDraftField(d, e.step, e.target);
    } else {
      assert (edits + [e])[1..] == edits[1..] + [e];
      ApplyEditsSnoc(SetDraftField(d, edits[0].step, edits[0].target), edits[1..], e);
    }
  }

  /** Last write wins over any sequence of change events: each field holds the
      value of its latest edit, and a field never edited keeps its prior value. */
  lemma {:induction false} EditsLastWriteWins(d: Draft, edits: seq<Edit>, step: string, name: string)
    ensures Lookup(ApplyEdits(d, edits), step, name)
            == match LastWrite(edits, step, name)
               case Some(v) => Some(v)
               case None => Lookup(d, step, name)
    decreases |edits|
  {
    if edits != [] {
      var front, e := edits[..|edits| - 1], edits[|edits| - 1];
      assert edits == front + [e];
      ApplyEditsSnoc(d, front, e);
      SetDraftFieldLookup(ApplyEdits(d, front), e.step, e.target, step, name);
      EditsLastWriteWins(d, front, step, name);
    }
  }

  /** Change events only ever add sections and fields, never remove them. */
  lemma {:induction false} ApplyEditsKeepsKeys(d: Draft, edits: seq<Edit>, step: string, name: string)
    requires step in d && name in d[step]
    ensures step in ApplyEdits(d, edits) && name in ApplyEdits(d, edits)[step]
    decreases |edits|
  {
    if edits != [] {
      var d' := SetDraftField(d, edits[0].step, edits[0].target);
      assert step in d' && name in d'[step];
      ApplyEditsKeepsKeys(d', edits[1..], step, name);
    }
  }
}

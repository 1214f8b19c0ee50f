/**
 * The activity entry form: a draft record, the validation library's state
 * for the two registered fields (`activityName`, `detail`), the Save gate
 * derived from them, and the Save/Cancel hand-off to the parent list.
 */
module ActivityForm {
  import opened Wrappers
  import opened Validation
  import opened Draft

  /** Edit mode when the parent supplies default values, create mode otherwise. */
  datatype Mode = Edit | Create

  /** The values the validation library holds for the registered fields. */
  datatype Binding = Binding(name: string, detail: string)

  /** Everything the form holds between two events. */
  datatype FormState = FormState(
    mode: Mode,
    defaults: Payload,        // the library's default values, also the draft's starting value
    draft: Payload,
    bound: Binding,
    nameError: Option<Msg>,   // the library's `errors.activityName`
    dirty: bool)              // the library's `isDirty`

  /** The user events the form handles. */
  datatype Event =
    | NameInput(text: string)
    | DetailInput(text: string)
    | CategoryClick(category: string)
    | LocationReport(location: string)

  /** What the form hands to its parent when a button is pressed. */
  datatype Emit = Saved(record: Payload) | Cancelled | Nothing

  /** The library's dirtiness: a registered field differs from its default value. */
  predicate DirtyFor(defaults: Payload, b: Binding)
    ensures !DirtyFor(defaults, b) <==> b == Binding(defaults.activityName, defaults.detail)
  {
    b.name != defaults.activityName || b.detail != defaults.detail
  }

  /**
   * The invariant every reachable state keeps: the library's values and the
   * draft agree, `dirty` is the library's verdict on them, a name error, when
   * present, is the verdict on the draft's name, and a create-mode form
   * started from the empty template.
   */
  predicate Coherent(st: FormState) {
    st.bound.name == st.draft.activityName &&
    st.bound.detail == st.draft.detail &&
    st.dirty == DirtyFor(st.defaults, st.bound) &&
    (st.nameError == None || st.nameError == ValidateName(st.draft.activityName)) &&
    (st.mode == Create ==> st.defaults == InitialValues())
  }

  /** The state at mount. Validation runs only on change, so no error is recorded yet. */
  function Mount(defaultValues: Option<Payload>): (st: FormState)
    ensures Coherent(st)
    ensures st.mode == Edit <==> defaultValues.Some?
    ensures st.draft == StartingDraft(defaultValues) && st.defaults == st.draft
    ensures st.nameError == None && !st.dirty
  {
    var d := StartingDraft(defaultValues);
    FormState(if defaultValues.Some? then Edit else Create, d, d,
              Binding(d.activityName, d.detail), None, false)
  }

  /**
   * One event. A registered field's change is written to both the library
   * and the draft; only the changed field is validated. Category and location
   * reach the draft alone.
   */
  function Step(st: FormState, e: Event): (st': FormState)
    ensures st'.mode == st.mode && st'.defaults == st.defaults
    ensures st'.draft.activityExpenses == st.draft.activityExpenses
    ensures Coherent(st) ==> Coherent(st')
  {
    match e
    case NameInput(s) =>
      var b := st.bound.(name := s);
      st.(draft := Merge(st.draft, OnlyName(s)), bound := b,
          nameError := ValidateName(s), dirty := DirtyFor(st.defaults, b))
    case DetailInput(s) =>
      var b := st.bound.(detail := s);
      st.(draft := Merge(st.draft, OnlyDetail(s)), bound := b, dirty := DirtyFor(st.defaults, b))
    case CategoryClick(c) =>
      st.(draft := Merge(st.draft, OnlyCategory(c)))
    case LocationReport(l) =>
      st.(draft := Merge(st.draft, OnlyLocation(l)))
  }

  /** A sequence of events, in order. */
  function Replay(st: FormState, evs: seq<Event>): FormState
    decreases |evs|
  {
    if evs == [] then st else Replay(Step(st, evs[0]), evs[1..])
  }

  /** Whether an event goes through a field registered with the validation library. */
  predicate Registered(e: Event) {
    e.NameInput? || e.DetailInput?
  }

  /** The Save gate as the form computes it from the library's error and dirty flags. */
  predicate IsValidAsWritten(st: FormState)
    ensures IsValidAsWritten(st) ==> st.nameError == None && st.draft.category != ""
    ensures IsValidAsWritten(st) && st.mode == Create ==> st.dirty
    ensures st.mode == Edit && st.nameError == None && st.draft.category != "" ==> IsValidAsWritten(st)
  {
    match st.mode
    case Edit => st.nameError == None && st.draft.category != ""
    case Create => st.nameError == None && st.draft.category != "" && st.dirty
  }

  /**
   * The Save gate as intended: the name rules judged on the draft's current
   * name, whether or not the name field has been changed.
   */
  predicate Submittable(st: FormState)
    ensures Submittable(st) ==> 1 <= |st.draft.activityName| <= NameMaxLen && st.draft.category != ""
    ensures Submittable(st) && st.mode == Create ==> st.dirty
  {
    ValidateName(st.draft.activityName) == None && st.draft.category != "" &&
    (st.mode == Edit || st.dirty)
  }

  // ---------------------------------------------------------------------------
  // Properties of event sequences

  /** Every event sequence keeps the invariant, the mode, the defaults and the expense. */
  lemma {:induction false} ReplayKeepsCoherent(st: FormState, evs: seq<Event>)
    requires Coherent(st)
    ensures Coherent(Replay(st, evs))
    ensures Replay(st, evs).mode == st.mode && Replay(st, evs).defaults == st.defaults
    ensures Replay(st, evs).draft.activityExpenses == st.draft.activityExpenses
    decreases |evs|
  {
    if evs != [] {
      ReplayKeepsCoherent(Step(st, evs[0]), evs[1..]);
    }
  }

  /** Events outside the registered fields leave the library's state alone. */
  lemma {:induction false} ReplayUnregisteredKeepsBinding(st: FormState, evs: seq<Event>)
    requires forall i :: 0 <= i < |evs| ==> !Registered(evs[i])
    ensures Replay(st, evs).bound == st.bound
    ensures Replay(st, evs).nameError == st.nameError
    ensures Replay(st, evs).dirty == st.dirty
    decreases |evs|
  {
    if evs != [] {
      assert !Registered(evs[0]);
      ReplayUnregisteredKeepsBinding(Step(st, evs[0]), evs[1..]);
    }
  }

  /** A create-mode form on which no registered field was ever changed can never be saved. */
  lemma CreateUntouchedNeverValid(evs: seq<Event>)
    requires forall i :: 0 <= i < |evs| ==> !Registered(evs[i])
    ensures !IsValidAsWritten(Replay(Mount(None), evs))
    ensures !Submittable(Replay(Mount(None), evs))
  {
    ReplayUnregisteredKeepsBinding(Mount(None), evs);
    ReplayKeepsCoherent(Mount(None), evs);
  }

  /** A create-mode form whose name and memo are empty is closed, whatever its history. */
  lemma CreateBlankNeverValid(st: FormState)
    requires Coherent(st) && st.mode == Create
    requires st.draft.activityName == "" && st.draft.detail == ""
    ensures !IsValidAsWritten(st) && !Submittable(st)
  {
  }

  /** An edit-mode form mounted with a valid record may be saved without any edit. */
  lemma EditValidDefaultsReady(d: Payload)
    requires 1 <= |d.activityName| <= NameMaxLen && d.category != ""
    ensures IsValidAsWritten(Mount(Some(d))) && Submittable(Mount(Some(d)))
  {
  }

  /** In edit mode the gate does not look at dirtiness. */
  lemma EditGateIgnoresDirty(st: FormState)
    requires st.mode == Edit
    ensures IsValidAsWritten(st) == IsValidAsWritten(st.(dirty := !st.dirty))
    ensures Submittable(st) == Submittable(st.(dirty := !st.dirty))
  {
  }

  /** In create mode the gate is closed on a clean form even when name and category pass. */
  lemma CreateGateNeedsDirty(st: FormState)
    requires st.mode == Create && !st.dirty
    ensures !IsValidAsWritten(st) && !Submittable(st)
  {
  }

  /** After a name change, the draft holds the typed text and the error is its verdict. */
  lemma NameInputDualWrite(st: FormState, s: string)
    ensures Step(st, NameInput(s)).draft.activityName == s
    ensures Step(st, NameInput(s)).bound.name == s
    ensures Step(st, NameInput(s)).nameError == ValidateName(s)
    ensures Step(st, NameInput(s)).draft == Merge(st.draft, OnlyName(s))
  {
  }

  /** Typing an empty or an over-long name closes both gates, with the matching message. */
  lemma BadNameInputCloses(st: FormState, s: string)
    requires s == "" || |s| > NameMaxLen
    ensures Step(st, NameInput(s)).nameError == Some(if s == "" then NameRequired else NameMaxLength)
    ensures !IsValidAsWritten(Step(st, NameInput(s))) && !Submittable(Step(st, NameInput(s)))
  {
  }

  /** Category and location events change only the draft, and only their own field. */
  lemma UnregisteredEventIsLocal(st: FormState, e: Event)
    requires !Registered(e)
    ensures Step(st, e).bound == st.bound && Step(st, e).nameError == st.nameError
    ensures Step(st, e).dirty == st.dirty
    ensures Step(st, e).draft ==
      Merge(st.draft, if e.CategoryClick? then OnlyCategory(e.category) else OnlyLocation(e.location))
    ensures Step(st, e).draft.activityName == st.draft.activityName
    ensures Step(st, e).draft.detail == st.draft.detail
  {
  }

  // ---------------------------------------------------------------------------
  // The two gates compared

  /** The intended gate implies the written one on every reachable state. */
  lemma SubmittableImpliesValidAsWritten(st: FormState)
    requires Coherent(st) && Submittable(st)
    ensures IsValidAsWritten(st)
  {
  }

  /** Once the library has judged the current name, the two gates agree. */
  lemma GatesAgreeOnceNameJudged(st: FormState)
    requires Coherent(st) && st.nameError == ValidateName(st.draft.activityName)
    ensures Submittable(st) <==> IsValidAsWritten(st)
  {
  }

  /** A record that passes the intended gate meets the record's invariants. */
  lemma SubmittableRecordIsComplete(st: FormState)
    requires Submittable(st)
    ensures 1 <= |st.draft.activityName| <= NameMaxLen && st.draft.category != ""
  {
  }

  /**
   * The written gate lets through an empty name: in create mode, choosing a
   * category and typing a memo makes the form dirty while the name, never
   * changed, has never been validated.
   */
  lemma EmptyNameSavableAsWritten()
    ensures var st := Replay(Mount(None), [CategoryClick("SIGHT"), DetailInput("bring camera")]);
      IsValidAsWritten(st) && st.draft.activityName == "" && !Submittable(st)
  {
    var st0 := Mount(None);
    var st1 := Step(st0, CategoryClick("SIGHT"));
    var st2 := Step(st1, DetailInput("bring camera"));
    assert Replay(st0, [CategoryClick("SIGHT"), DetailInput("bring camera")]) == st2 by {
      assert [CategoryClick("SIGHT"), DetailInput("bring camera")][1..] == [DetailInput("bring camera")];
      assert Replay(st2, []) == st2;
    }
  }

  /**
   * The same gap in edit mode: default values whose name is longer than the
   * limit open the written gate before any edit, since no validation runs at mount.
   */
  lemma EditLongDefaultNameSavableAsWritten(d: Payload)
    requires |d.activityName| > NameMaxLen && d.category != ""
    ensures IsValidAsWritten(Mount(Some(d))) && !Submittable(Mount(Some(d)))
  {
  }

  // ---------------------------------------------------------------------------
  // Scenarios

  /** Create mode: typing "Museum" and choosing "SIGHT" opens the gate, and Save emits this record. */
  lemma MuseumScenario()
    ensures var st := Replay(Mount(None), [NameInput("Museum"), CategoryClick("SIGHT")]);
      Submittable(st) && IsValidAsWritten(st) &&
      st.draft == Payload("Museum", "", "", None, "SIGHT")
  {
    var st0 := Mount(None);
    var st2 := Step(Step(st0, NameInput("Museum")), CategoryClick("SIGHT"));
    assert Replay(st0, [NameInput("Museum"), CategoryClick("SIGHT")]) == st2 by {
      assert [NameInput("Museum"), CategoryClick("SIGHT")][1..] == [CategoryClick("SIGHT")];
    }
  }

  /** Create mode: a memo alone makes the form dirty but leaves the gate closed. */
  lemma MemoOnlyScenario()
    ensures var st := Replay(Mount(None), [DetailInput("bring camera")]);
      st.dirty && !Submittable(st) && !IsValidAsWritten(st)
  {
    assert Replay(Mount(None), [DetailInput("bring camera")])
        == Step(Mount(None), DetailInput("bring camera"));
  }

  // ---------------------------------------------------------------------------
  // The form component

  /** One mounted form: its draft, the library's state for it, and its handlers. */
  class Form {
    const mode: Mode
    const defaults: Payload
    var draft: Payload
    var boundName: string
    var boundDetail: string
    var nameError: Option<Msg>
    var dirty: bool

    /** The form's state as a value. */
    function State(): FormState
      reads this
    {
      FormState(mode, defaults, draft, Binding(boundName, boundDetail), nameError, dirty)
    }

    predicate Valid()
      reads this
    {
      Coherent(State())
    }

    /** Mount with the parent's default values (edit mode) or with none (create mode). */
    constructor (defaultValues: Option<Payload>)
      ensures Valid() && State() == Mount(defaultValues)
      ensures draft == (if defaultValues.Some? then defaultValues.value else InitialValues())
    {
      var d := StartingDraft(defaultValues);
      mode := if defaultValues.Some? then Edit else Create;
      defaults := d;
      draft := d;
      boundName, boundDetail := d.activityName, d.detail;
      nameError := None;
      dirty := false;
    }

    /** The name input's change handler: one text written to the library and the draft. */
    method ChangeName(s: string)
      requires Valid()
      modifies this
      ensures Valid() && State() == Step(old(State()), NameInput(s))
      ensures draft == Merge(old(draft), OnlyName(s))
      ensures draft.activityName == s && boundName == s && nameError == ValidateName(s)
    {
      draft := Merge(draft, OnlyName(s));
      boundName := s;
      nameError := ValidateName(s);
      dirty := DirtyFor(defaults, Binding(boundName, boundDetail));
    }

    /** The memo's change handler: one text written to the library and the draft. */
    method ChangeDetail(s: string)
      requires Valid()
      modifies this
      ensures Valid() && State() == Step(old(State()), DetailInput(s))
      ensures draft == Merge(old(draft), OnlyDetail(s))
      ensures draft.detail == s && boundDetail == s && nameError == old(nameError)
    {
      draft := Merge(draft, OnlyDetail(s));
      boundDetail := s;
      dirty := DirtyFor(defaults, Binding(boundName, boundDetail));
    }

    /** The category list's click handler: the draft alone changes. */
    method SelectCategory(c: string)
      requires Valid()
      modifies this
      ensures Valid() && State() == Step(old(State()), CategoryClick(c))
      ensures draft == Merge(old(draft), OnlyCategory(c))
      ensures nameError == old(nameError) && dirty == old(dirty)
      ensures boundName == old(boundName) && boundDetail == old(boundDetail)
    {
      draft := Merge(draft, OnlyCategory(c));
    }

    /** The location input's report: the draft alone changes. */
    method SetLocation(l: string)
      requires Valid()
      modifies this
      ensures Valid() && State() == Step(old(State()), LocationReport(l))
      ensures draft == Merge(old(draft), OnlyLocation(l))
      ensures nameError == old(nameError) && dirty == old(dirty)
      ensures boundName == old(boundName) && boundDetail == old(boundDetail)
    {
      draft := Merge(draft, OnlyLocation(l));
    }

    /** Whether the Save button is enabled, as the form computes it from the library's flags. */
    method EnabledAsWritten() returns (ok: bool)
      ensures ok == IsValidAsWritten(State())
      ensures ok ==> nameError == None && draft.category != ""
      ensures mode == Create && !dirty ==> !ok
    {
      ok := nameError == None && draft.category != "" && (mode == Edit || dirty);
    }

    /** The Save button as the form wires it: emits the current draft whenever the written gate is open. */
    method SaveAsWritten() returns (out: Emit)
      ensures out.Saved? <==> IsValidAsWritten(State())
      ensures out.Saved? ==> out.record == draft
      ensures !out.Saved? ==> out == Nothing
    {
      var ok := EnabledAsWritten();
      if ok {
        out := Saved(draft);
      } else {
        out := Nothing;
      }
    }

    /** Whether the Save button is enabled, under the corrected gate. */
    method IsValid() returns (ok: bool)
      ensures ok == Submittable(State())
      ensures ok ==> 1 <= |draft.activityName| <= NameMaxLen && draft.category != ""
      ensures mode == Create && !dirty ==> !ok
    {
      ok := ValidateName(draft.activityName) == None && draft.category != "" &&
            (mode == Edit || dirty);
    }

    /** The Save button under the corrected gate: emits exactly the current draft when the gate is open, nothing otherwise. */
    method Save() returns (out: Emit)
      ensures out.Saved? <==> Submittable(State())
      ensures out.Saved? ==> out.record == draft
      ensures !out.Saved? ==> out == Nothing
    {
      var ok := IsValid();
      if ok {
        out := Saved(draft);
      } else {
        out := Nothing;
      }
    }

    /** The Cancel button: signals the parent and emits no record. */
    method Cancel() returns (out: Emit)
      ensures out == Cancelled
    {
      out := Cancelled;
    }
  }
}

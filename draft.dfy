/**
 * The draft activity record the form edits, and the shallow merge through
 * which every sub-input reports its value.
 */
module Draft {
  import opened Wrappers

  /** The activity record: the shape the form emits on Save. */
  datatype Payload = Payload(
    activityName: string,
    detail: string,
    activityLocation: string,
    activityExpenses: Option<int>,
    category: string)

  /** The all-empty template a create-mode form starts from. */
  function InitialValues(): Payload {
    Payload("", "", "", None, "")
  }

  /** The draft at mount: the given default values, or else the empty template. */
  function StartingDraft(defaultValues: Option<Payload>): (p: Payload)
    ensures defaultValues.Some? ==> p == defaultValues.value
    ensures defaultValues.None? ==>
      p.activityName == "" && p.detail == "" && p.activityLocation == "" &&
      p.activityExpenses == None && p.category == ""
  {
    defaultValues.GetOr(InitialValues())
  }

  /** A partial record: the fields an update carries (`None` means absent from the object). */
  datatype Partial = Partial(
    activityName: Option<string>,
    detail: Option<string>,
    activityLocation: Option<string>,
    activityExpenses: Option<Option<int>>,
    category: Option<string>)

  const NoChange: Partial := Partial(None, None, None, None, None)

  function OnlyName(s: string): Partial { NoChange.(activityName := Some(s)) }
  function OnlyDetail(s: string): Partial { NoChange.(detail := Some(s)) }
  function OnlyLocation(s: string): Partial { NoChange.(activityLocation := Some(s)) }
  function OnlyCategory(s: string): Partial { NoChange.(category := Some(s)) }

  /** The names of the record's fields, and a uniform view of their values. */
  datatype Field = ActivityName | Detail | ActivityLocation | ActivityExpenses | Category
  datatype Value = Text(text: string) | Amount(amount: Option<int>)

  function Get(p: Payload, f: Field): Value {
    match f
    case ActivityName => Text(p.activityName)
    case Detail => Text(p.detail)
    case ActivityLocation => Text(p.activityLocation)
    case ActivityExpenses => Amount(p.activityExpenses)
    case Category => Text(p.category)
  }

  /** The value `u` carries for field `f`, if `f` is present in `u`. */
  function Given(u: Partial, f: Field): Option<Value> {
    match f
    case ActivityName => if u.activityName.Some? then Some(Text(u.activityName.value)) else None
    case Detail => if u.detail.Some? then Some(Text(u.detail.value)) else None
    case ActivityLocation => if u.activityLocation.Some? then Some(Text(u.activityLocation.value)) else None
    case ActivityExpenses => if u.activityExpenses.Some? then Some(Amount(u.activityExpenses.value)) else None
    case Category => if u.category.Some? then Some(Text(u.category.value)) else None
  }

  /** `{...p, ...u}`: every field present in `u` is overwritten, every other field is kept. */
  function Merge(p: Payload, u: Partial): (r: Payload)
    ensures forall f :: Get(r, f) == Given(u, f).GetOr(Get(p, f))
  {
    Payload(
      u.activityName.GetOr(p.activityName),
      u.detail.GetOr(p.detail),
      u.activityLocation.GetOr(p.activityLocation),
      u.activityExpenses.GetOr(p.activityExpenses),
      u.category.GetOr(p.category))
  }

  /** Two records that agree on every field are the same record. */
  lemma PayloadExtensional(a: Payload, b: Payload)
    requires forall f :: Get(a, f) == Get(b, f)
    ensures a == b
  {
    assert Get(a, ActivityName) == Get(b, ActivityName);
    assert Get(a, Detail) == Get(b, Detail);
    assert Get(a, ActivityLocation) == Get(b, ActivityLocation);
    assert Get(a, ActivityExpenses) == Get(b, ActivityExpenses);
    assert Get(a, Category) == Get(b, Category);
  }

  /** Merge is determined by its field-wise contract: any record meeting it is the merge. */
  lemma MergeUnique(p: Payload, u: Partial, r: Payload)
    requires forall f :: Get(r, f) == Given(u, f).GetOr(Get(p, f))
    ensures r == Merge(p, u)
  {
    var m := Merge(p, u);
    forall f ensures Get(r, f) == Get(m, f) { }
    PayloadExtensional(r, m);
  }

  /** Merging an update with no fields leaves the record as it is. */
  lemma MergeNoChange(p: Payload)
    ensures Merge(p, NoChange) == p
  {
    forall f ensures Get(Merge(p, NoChange), f) == Get(p, f) { }
    PayloadExtensional(Merge(p, NoChange), p);
  }

  /** The combined update of `u` followed by `v`: `v`'s fields win. */
  function Then(u: Partial, v: Partial): Partial {
    Partial(
      if v.activityName.Some? then v.activityName else u.activityName,
      if v.detail.Some? then v.detail else u.detail,
      if v.activityLocation.Some? then v.activityLocation else u.activityLocation,
      if v.activityExpenses.Some? then v.activityExpenses else u.activityExpenses,
      if v.category.Some? then v.category else u.category)
  }

  /** Two successive merges equal one merge of the combined update. */
  lemma MergeThen(p: Payload, u: Partial, v: Partial)
    ensures Merge(Merge(p, u), v) == Merge(p, Then(u, v))
  {
    var a, b := Merge(Merge(p, u), v), Merge(p, Then(u, v));
    forall f ensures Get(a, f) == Get(b, f) {
      assert Get(Merge(p, u), f) == Given(u, f).GetOr(Get(p, f));
    }
    PayloadExtensional(a, b);
  }

  /** Repeating an update changes nothing more. */
  lemma MergeIdempotent(p: Payload, u: Partial)
    ensures Merge(Merge(p, u), u) == Merge(p, u)
  {
    MergeThen(p, u, u);
    assert Then(u, u) == u;
  }
}

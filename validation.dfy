/**
 * Declarative field rules, as the activity form hands them to the
 * validation library when it registers the `activityName` field.
 */
module Validation {
  import opened Wrappers

  /** Message constants of the form; their texts are not part of this model. */
  datatype Msg = NameRequired | NameMaxLength

  /** One validation rule with the message it reports when it fails. */
  datatype Rule =
    | Required(msg: Msg)
    | MinLength(bound: nat, msg: Msg)
    | MaxLength(bound: nat, msg: Msg)

  /**
   * Whether the text `s` breaks rule `r`. The library judges an empty text
   * only by `Required`; the length rules look at non-empty texts only.
   * No trimming takes place.
   */
  predicate Violates(r: Rule, s: string) {
    match r
    case Required(_) => s == ""
    case MinLength(n, _) => s != "" && |s| < n
    case MaxLength(n, _) => |s| > n
  }

  /**
   * The message of the first rule, in list order, that `s` breaks; `None` when
   * it breaks none. The library itself checks `Required` first and then the
   * length rules, preferring the maximum-length message; the two orders agree
   * on lists like `NameRules`, whose minimum does not exceed its maximum.
   */
  function FirstError(rules: seq<Rule>, s: string): (r: Option<Msg>)
    ensures r == None <==> forall i :: 0 <= i < |rules| ==> !Violates(rules[i], s)
    ensures r != None ==>
      exists i :: 0 <= i < |rules| && Violates(rules[i], s) && r == Some(rules[i].msg) &&
        forall j :: 0 <= j < i ==> !Violates(rules[j], s)
  {
    if rules == [] then None
    else if Violates(rules[0], s) then Some(rules[0].msg)
    else
      var rest := FirstError(rules[1..], s);
      assert forall i :: 1 <= i < |rules| ==> rules[i] == rules[1..][i - 1];
      rest
  }

  /** Upper bound on the length of an activity name. */
  const NameMaxLen: nat := 15

  /** The rules registered for `activityName`: required, minimum length 1, maximum length 15. */
  const NameRules: seq<Rule> :=
    [Required(NameRequired), MinLength(1, NameRequired), MaxLength(NameMaxLen, NameMaxLength)]

  /** The validation library's verdict on an activity name. */
  function ValidateName(s: string): (r: Option<Msg>)
    ensures r == None <==> 1 <= |s| <= NameMaxLen
    ensures s == "" ==> r == Some(NameRequired)
    ensures |s| > NameMaxLen ==> r == Some(NameMaxLength)
  {
    assert NameRules[0] == Required(NameRequired) && NameRules[1] == MinLength(1, NameRequired);
    assert NameRules[2] == MaxLength(NameMaxLen, NameMaxLength);
    FirstError(NameRules, s)
  }
}

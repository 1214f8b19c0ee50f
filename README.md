# Activity entry form — a Dafny model

This project models the state logic of the trip planner's activity entry form
(`ActivityForm`): the draft activity record it edits, the shallow merge through
which every input reports its value, the validation library's state for the two
fields registered with it (`activityName` and `detail`), the Save gate that is
derived from that state, and the Save/Cancel hand-off to the parent list.

Modules:

- `Wrappers` — `Option`, standing for JavaScript's `undefined`/`null`.
- `Validation` — the declarative rules on `activityName` (required, minimum
  length 1, maximum length 15). The library checks "required" first and then the length
  rules, preferring the maximum-length message; `FirstError` takes the first broken rule in
  list order, which gives the same verdict for the name's rule list, whose minimum does not
  exceed its maximum.
  Messages are opaque constants (`NameRequired`, `NameMaxLength`).
- `Draft` — the record (`Payload`), the empty template, partial updates and
  `Merge` (`{...draft, ...partial}`), with its field-wise contract and merge laws.
- `ActivityForm` — the form state as a value (`FormState`), mounting, one event
  (`Step`) and event sequences (`Replay`), the two gates, lemmas, and the class
  `Form` whose methods are the component's event handlers and buttons, each
  proved to perform exactly `Step` on its fields.

The validation library's state is explicit: `bound` holds the values it keeps for the
registered fields, `nameError` is `errors.activityName`, and `dirty` is `isDirty`.
Two assumptions about the library are built in:

- It validates on change, and only the field that changed (`mode: 'onChange'`). No
  validation runs at mount, so `nameError` starts empty.
- `dirty` holds exactly when a registered field (name or memo) differs from its default
  value. Category and location never reach the library, so they never make the form dirty.

The name is not trimmed before validation, because the form does not trim it. A
"required" rule that trims would reject a name made only of spaces; this model follows the
code, which accepts it. The length rules judge only non-empty text, as the library does.
So the minimum-length rule never fires; it stays in the rule list as registered.

## Model

| member | source | states |
|---|---|---|
| Validation.FirstError | frontend/src/components/planDetail/activity/ActivityForm.tsx:76-88 | no message exactly when no rule is broken; otherwise the message of the first broken rule, all earlier rules passing |
| Validation.ValidateName | frontend/src/components/planDetail/activity/ActivityForm.tsx:76-88 | no error exactly when 1 <= length <= 15; empty name gives the required message, longer than 15 gives the max-length message |
| Draft.StartingDraft | frontend/src/components/planDetail/activity/ActivityForm.tsx:20-36 | the draft starts as the default values exactly, or else as "" for the four text fields and null for the expense |
| Draft.Merge | frontend/src/components/planDetail/activity/ActivityForm.tsx:52-57 | each field present in the update is overwritten with the update's value, every other field keeps its value |
| Draft.MergeUnique | frontend/src/components/planDetail/activity/ActivityForm.tsx:52-57 | any record meeting the field-wise merge contract is the merge, so the contract fully determines the update |
| Draft.MergeNoChange | frontend/src/components/planDetail/activity/ActivityForm.tsx:52-57 | an update with no fields leaves the draft unchanged |
| Draft.MergeThen | frontend/src/components/planDetail/activity/ActivityForm.tsx:52-57 | two successive updates equal one update in which the later fields win |
| Draft.MergeIdempotent | frontend/src/components/planDetail/activity/ActivityForm.tsx:52-57 | repeating an update changes nothing more |
| ActivityForm.DirtyFor | frontend/src/components/planDetail/activity/ActivityForm.tsx:39-43 | the library's dirty flag: clean exactly when the registered values (name, memo) equal their defaults |
| ActivityForm.Mount | frontend/src/components/planDetail/activity/ActivityForm.tsx:34-43 | edit mode exactly when default values are given; draft and library defaults are the starting draft; no error, not dirty; the state invariant holds |
| ActivityForm.Step | frontend/src/components/planDetail/activity/ActivityForm.tsx:52-115 | every event keeps mode, defaults and expense, and preserves the invariant that library values equal the draft, dirty is the library's verdict and any name error is the verdict on the draft's name |
| ActivityForm.IsValidAsWritten | frontend/src/components/planDetail/activity/ActivityForm.tsx:45-51 | the gate as the form computes it: open only with no recorded name error and a category, and in create mode only when dirty; in edit mode no error and a category suffice |
| ActivityForm.Submittable | frontend/src/components/planDetail/activity/ActivityForm.tsx:45-51 | the corrected gate: open only when the draft's current name has 1 to 15 characters and a category is chosen, and in create mode only when dirty |
| ActivityForm.ReplayKeepsCoherent | frontend/src/components/planDetail/activity/ActivityForm.tsx:52-121 | any event sequence preserves the invariant, the mode and the defaults, and never changes the expense |
| ActivityForm.ReplayUnregisteredKeepsBinding | frontend/src/components/planDetail/activity/ActivityForm.tsx:64-107 | category and location events, in any number, leave the library's values, error and dirty flag as they were |
| ActivityForm.UnregisteredEventIsLocal | frontend/src/components/planDetail/activity/ActivityForm.tsx:64-107 | a category or location event merges only its own field into the draft and leaves error and dirty flag alone |
| ActivityForm.NameInputDualWrite | frontend/src/components/planDetail/activity/ActivityForm.tsx:89-90 | after a name change both the draft and the library hold the typed text and the error is the validator's verdict on it |
| ActivityForm.BadNameInputCloses | frontend/src/components/planDetail/activity/ActivityForm.tsx:76-95 | typing an empty or over-long name records the matching message and closes the Save gate |
| ActivityForm.CreateUntouchedNeverValid | frontend/src/components/planDetail/activity/ActivityForm.tsx:45-51 | a create-mode form on which name and memo were never changed is never valid, whatever category and location events occur |
| ActivityForm.CreateBlankNeverValid | frontend/src/components/planDetail/activity/ActivityForm.tsx:45-51 | a create-mode form with empty name and memo is never valid |
| ActivityForm.CreateGateNeedsDirty | frontend/src/components/planDetail/activity/ActivityForm.tsx:49 | in create mode a clean form is never valid |
| ActivityForm.EditGateIgnoresDirty | frontend/src/components/planDetail/activity/ActivityForm.tsx:47-48 | in edit mode validity does not depend on the dirty flag |
| ActivityForm.EditValidDefaultsReady | frontend/src/components/planDetail/activity/ActivityForm.tsx:45-48 | an edit-mode form mounted with a valid record is valid before any edit |
| ActivityForm.SubmittableImpliesValidAsWritten | frontend/src/components/planDetail/activity/ActivityForm.tsx:45-51 | on every reachable state the intended gate implies the gate as written |
| ActivityForm.GatesAgreeOnceNameJudged | frontend/src/components/planDetail/activity/ActivityForm.tsx:45-51 | once the library has validated the current name, the two gates agree |
| ActivityForm.SubmittableRecordIsComplete | frontend/src/components/planDetail/activity/ActivityForm.tsx:45-51 | a record passing the intended gate has a name of length 1 to 15 and a non-empty category |
| ActivityForm.EmptyNameSavableAsWritten | frontend/src/components/planDetail/activity/ActivityForm.tsx:45-51 | create mode, category "SIGHT" then memo "bring camera": the written gate is open with an empty name, the intended gate is closed |
| ActivityForm.EditLongDefaultNameSavableAsWritten | frontend/src/components/planDetail/activity/ActivityForm.tsx:45-48 | edit mode with a default name over 15 characters and a category: the written gate is open at mount, the intended gate is closed |
| ActivityForm.MuseumScenario | frontend/src/components/planDetail/activity/ActivityForm.tsx:52-90 | create mode, name "Museum" then category "SIGHT": the gate is open and the draft is {"Museum", "", "", null, "SIGHT"} |
| ActivityForm.MemoOnlyScenario | frontend/src/components/planDetail/activity/ActivityForm.tsx:45-51 | create mode, memo only: the form is dirty and the gate is closed |
| ActivityForm.Form.constructor | frontend/src/components/planDetail/activity/ActivityForm.tsx:34-43 | the mounted form is in the state Mount describes, its draft the default values or the empty template |
| ActivityForm.Form.ChangeName | frontend/src/components/planDetail/activity/ActivityForm.tsx:89-90 | performs the name event: draft and library both get the text, the error becomes its verdict |
| ActivityForm.Form.ChangeDetail | frontend/src/components/planDetail/activity/ActivityForm.tsx:113-115 | performs the memo event: draft and library both get the text, the name error is untouched |
| ActivityForm.Form.SelectCategory | frontend/src/components/planDetail/activity/ActivityForm.tsx:64-67 | performs the category event: only the draft's category changes |
| ActivityForm.Form.SetLocation | frontend/src/components/planDetail/activity/ActivityForm.tsx:103-106 | performs the location event: only the draft's location changes |
| ActivityForm.Form.EnabledAsWritten | frontend/src/components/planDetail/activity/ActivityForm.tsx:45-51 | whether the Save button is enabled as the form computes it: exactly the written gate on the form's state |
| ActivityForm.Form.SaveAsWritten | frontend/src/components/planDetail/activity/ActivityForm.tsx:131-138 | the Save button as wired: emits exactly the current draft whenever the written gate is open, and nothing otherwise |
| ActivityForm.Form.IsValid | frontend/src/components/planDetail/activity/ActivityForm.tsx:45-51 | the corrected Save gate; open only with a name of 1 to 15 characters and a category, and never on a clean create-mode form |
| ActivityForm.Form.Save | frontend/src/components/planDetail/activity/ActivityForm.tsx:131-138 | under the corrected gate: emits exactly the current draft when that gate is open, and nothing otherwise |
| ActivityForm.Form.Cancel | frontend/src/components/planDetail/activity/ActivityForm.tsx:124-127 | signals cancellation, emits no record and changes nothing |

## Findings

| source | as written | input that shows it | evidently intended | confidence | as-written member | corrected member |
|---|---|---|---|---|---|---|
| frontend/src/components/planDetail/activity/ActivityForm.tsx:45-51 | the gate reads the library's name error, which exists only once the name field has changed | create mode: choose category "SIGHT", type memo "bring camera", never touch the name; the gate opens and Save emits an empty `activityName` | the gate judges the draft's current name, so an empty or over-long name is never saved | not executed; the library validates only the changed field in onChange mode | ActivityForm.EmptyNameSavableAsWritten | ActivityForm.SubmittableRecordIsComplete |

`IsValidAsWritten` is the gate as the form computes it, and the class's `EnabledAsWritten` and
`SaveAsWritten` behave as the form's button does. `Submittable` is the corrected gate, used by
the class's `IsValid` and `Save`. The same gap shows in edit mode when the default values carry
a name of more than 15 characters: the written gate opens without any edit
(`EditLongDefaultNameSavableAsWritten`).

## Left out

- ActivityForm.Form.IsValid: opens on the corrected gate `Submittable`; the form's button is also enabled on states where only `IsValidAsWritten` holds (a never-changed empty or over-long name). `Form.EnabledAsWritten` models the button as written.
- ActivityForm.Form.Save: emits only under `Submittable`; the form's button also emits the draft on states where only `IsValidAsWritten` holds. `Form.SaveAsWritten` models the button as written.

- Rendering, class names, labels and the `Button`/`Field`/`Input` components: display only.
- `currentTab` and the category enumeration of `CategoryList`: that component is not part of this model. Any category text can be chosen, and the gate only requires it to be non-empty.
- `LocationInput` is not part of this model. It is assumed to report `{activityLocation}` only, as its prop is meant for.
- `ExpenseInput` gets no callback, so the form never changes `activityExpenses`. The amount (a JavaScript number) is modelled as an integer.
- Texts of the error messages: not part of this model. They are opaque constants.
- React mechanics: re-render scheduling, memoisation of the gate, and the stale closure of `updatePayload` when several updates happen in one render. Each event here sees the latest draft.
- Name length is counted in Dafny characters. JavaScript counts UTF-16 code units, so the two differ on characters outside the Basic Multilingual Plane.
- Unmounting after Save or Cancel belongs to the parent page. Nothing here stops a second button press.
- frontend/src/components/addPlan/SetInfoForm.tsx and frontend/src/pages/PlanDetailPage.tsx: store wiring, data fetching and display. They are not modelled. Note that the plan-name input shows its error only when `errors.name` is set, for a field registered as `planName` (SetInfoForm.tsx:36).

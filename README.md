# Pursuit board and forms of pro-decider-front, in Dafny

This project models the logic at the core of the pro-decider front end, a
React application where sales pursuits are tracked as kanban cards:

- **The pursuits board** (`Pursuits.tsx`). Loaded projects are kept only
  if their trimmed status is one of the six columns (Open, Preanalysis,
  Engineering Review, In Validation, Execution, Cancelled). A search by
  name and BU owner narrows them. The visible projects are then grouped
  into the columns, with Open as the fallback. On the board that fallback
  is never reached: the load keeps only column statuses, and every applied
  move and confirmed cancellation writes one (`AppliedStaysOnBoard`,
  `CancelledOnBoard`, `ReplaceKeepsOnBoard`).
- **Dropping a card**:
  - The drop is resolved to a target status: a column id, or the trimmed
    status of the card dropped onto.
  - A move to Execution or Cancelled is checked against the project's
    five dimension statuses. Execution is refused while some dimension is
    "Bad". Cancelled with no "Bad" dimension opens a confirmation dialog.
    Cancelled with some "Bad" dimension proceeds at once. A failed lookup
    refuses either.
  - A move that is allowed rewrites the card's status in the local list
    before the update is sent. A failed save does not roll it back.
  - The confirmation dialog is confirmed or aborted.

  The board is a class, `Pursuits.Board`, with three fields: the project
  list, the dragged card's id and the project pending confirmation. Its
  handlers are methods. Each is proved against pure decision functions
  (`PlanDragEnd`, `PlanMove`, `Guard`, `ResolveTarget`), and the business
  rules are lemmas about those functions.
- **The chip editor `TagInput`**, as a class: Enter appends the trimmed
  text, and a chip's button splices out its tag. `SpliceOut` copies the
  list into an array and shifts the later elements down, as
  `Array.prototype.splice` does.
- **The ", " tag codec of the pursuit forms**: a store joins the tags and
  a read splits them. The model proves the two round trips and the two
  ways the second one loses information: a list `[""]`, and a tag that
  holds ", ".
- **The create and edit details forms**:
  - a field update changes exactly that field;
  - the project record assembled on submit, including the financial
    fields that are always blank;
  - the name lookups of the create form, where the first match wins and
    an unknown id gives "".
- **The edit wizard's container**:
  - the initial form records;
  - the Project→DetailsData load mapping;
  - the tab derived from the location path;
  - the route a tab click navigates to.

  Together with the edit form's submit, the load mapping gives the
  save→load and load→save round trips. Both are partial, and the model
  says exactly where.
- **The accounts page** (`Account.tsx`):
  - the case-insensitive filter on name, BU owner and key people;
  - the key-people cell;
  - the portfolio header.

Some behaviour of the code is kept as written and stated explicitly:

- A second Cancelled request overwrites the pending one silently. The
  `Board.DragEnd` contract shows this. `PendingIsOverwritten` proves it
  on a board with two requests: the confirmation then cancels only the
  second project.
- The pending project is cleared only after the save, whatever the save's
  outcome.
- With the real dimension provider, which maps every failure to
  "Not Defined", the "could not validate" refusal is unreachable
  (`ValidationFailureUnreachable`).
- Saving an edit blanks the four financial fields, so a load followed by
  a save is not the identity (`LoadThenSaveBlanksFinancials`).

The nondeterministic inputs are parameters:

- the dimension lookup's answer and `updateProject`'s success;
- the generated id (`uuidv4()`) and the submit time;
- the fetched project and the logged-in portfolio.

## Model

| member | source | states |
|---|---|---|
| Text.Trim | src/pages/pursuits/Pursuits.tsx:51 | it is "" exactly when the input is all whitespace, and otherwise starts and ends with a non-blank |
| Text.TrimIsInnerSlice | src/pages/pursuits/Pursuits.tsx:51 | the trimmed string is a slice of the input with only whitespace before and after it |
| Text.TrimIdempotent | src/components/TagInput/TagInput.tsx:25-27 | trimming a trimmed string changes nothing |
| Text.ToLower | src/pages/account/Account.tsx:43-44 | lower-casing keeps the length and maps each character on its own |
| Text.ToLowerIdempotent | src/pages/account/Account.tsx:43-44 | lower-casing twice is lower-casing once |
| Text.Contains | src/pages/account/Account.tsx:43-44 | `includes`, defined by recursion on the text; what it means is stated by `Text.ContainsIffOccurs` |
| Text.ContainsIffOccurs | src/pages/account/Account.tsx:43-44 | `includes` holds exactly when the search text occurs at some position |
| Text.Split | src/pages/pursuits/edit-pursuit/EditPursuitPageContainer.tsx:142 | a split never gives an empty result, and its first piece is a prefix of the string |
| Text.Join | src/pages/pursuits/create-pursuit/NewPursuitDetailsForm.tsx:198 | `join`: no pieces give "" and one piece gives itself; `Text.JoinSplit` makes it the inverse of `Text.Split` |
| Text.JoinSplit | src/pages/pursuits/create-pursuit/NewPursuitDetailsForm.tsx:197-198 | joining the pieces of a split with the separator gives back the string, for every string |
| Text.SplitLastIsSuffix | src/pages/pursuits/edit-pursuit/EditPursuitPageContainer.tsx:142-143 | the last piece of a split is a suffix of the string |
| Text.SplitLastPiece | src/pages/pursuits/edit-pursuit/EditPursuitPageContainer.tsx:142-143 | for a one-character separator, the last piece of `x + sep + t` is `t` when `t` holds no separator |
| Lists.Filter | src/pages/pursuits/Pursuits.tsx:62-69 | the result is no longer than the input, and an element is in it exactly when it is in the input and passes the test |
| Lists.FilterAppend | src/pages/account/Account.tsx:41-53 | filtering a concatenation filters each part, so relative order is kept |
| Lists.FindFirst | src/pages/pursuits/Pursuits.tsx:102 | nothing is found exactly when no element has the key; otherwise it is the first element that has it |
| Types.HandleChange | src/pages/pursuits/create-pursuit/NewPursuitDetailsForm.tsx:41-43 | the changed field takes the new value, and every other field keeps its value |
| Types.HandleChangeSameValue | src/pages/pursuits/edit-pursuit/EditPursuitDetailsForm.tsx:22-24 | writing a field's own value back leaves the form state as it was |
| Types.HandleChangeOverwrites | src/pages/pursuits/edit-pursuit/EditPursuitDetailsForm.tsx:22-24 | the last change to a field wins |
| TagCodec.Encode | src/pages/pursuits/create-pursuit/NewPursuitDetailsForm.tsx:198 | a write stores "" for the empty list; `TagCodec.EncodeDecode` and `TagCodec.DecodeEncode` relate it to the read |
| TagCodec.Decode | src/pages/pursuits/create-pursuit/NewPursuitDetailsForm.tsx:197 | a read gives the empty list exactly for the empty string |
| TagCodec.EncodeDecode | src/pages/pursuits/create-pursuit/NewPursuitDetailsForm.tsx:197-198 | every stored string survives a read followed by a store |
| TagCodec.DecodeEncode | src/pages/pursuits/create-pursuit/NewPursuitDetailsForm.tsx:197-198 | a list of tags without ", " survives a store followed by a read, unless it is `[""]` |
| TagCodec.DecodedTagsClean | src/pages/pursuits/create-pursuit/NewPursuitDetailsForm.tsx:217 | no tag read back from a string holds ", " |
| TagCodec.RoundTripLosses | src/pages/pursuits/create-pursuit/NewPursuitDetailsForm.tsx:217-218 | `[""]` reads back as `[]`, and the tag "a, b" reads back as two tags |
| TagInputs.AddTag | src/components/TagInput/TagInput.tsx:32-34 | the new tag is last, the old tags come before it unchanged, and the length grows by one |
| TagInputs.SpliceOut | src/components/TagInput/TagInput.tsx:36-40 | the copy with element `index` spliced out: earlier tags in place, later ones shifted down one, one fewer; nothing is removed past the end |
| TagInputs.KeyboardTagIsTrimmed | src/components/TagInput/TagInput.tsx:25-27 | a tag added by Enter is non-empty and has no leading or trailing whitespace |
| TagInputs.TagInput.constructor | src/components/TagInput/TagInput.tsx:15-21 | the widget starts with the parent's tags and an empty text field |
| TagInputs.TagInput.OnChange | src/components/TagInput/TagInput.tsx:65 | the text field holds the typed value |
| TagInputs.TagInput.HandleKeyDown | src/components/TagInput/TagInput.tsx:24-30 | Enter with non-blank text appends its trim and clears the field; any other key, or Enter on blank text, changes neither the tags nor the text |
| TagInputs.TagInput.RemoveTag | src/components/TagInput/TagInput.tsx:36-40 | the tag list becomes the old one with element `index` removed |
| NewPursuitForm.AssembleProject | src/pages/pursuits/create-pursuit/NewPursuitDetailsForm.tsx:59-101 | the submitted record: the thirteen form fields copied as they are (`CopiesFormFields`), the account status "Activo" with the fixed Salesforce and PCS links and the default strategy, the four financial fields "", the submit time as the status date, and responsibles decoded (`[]` exactly for "") |
| NewPursuitForm.SelectedAccountName | src/pages/pursuits/create-pursuit/NewPursuitDetailsForm.tsx:56 | the name of the first loaded account with the selected id, or "" when none has it |
| NewPursuitForm.SelectedBuOwnerName | src/pages/pursuits/create-pursuit/NewPursuitDetailsForm.tsx:57 | the name of the first loaded BU owner with the selected id, or "" when none has it |
| NewPursuitForm.BuildNewProject | src/pages/pursuits/create-pursuit/NewPursuitDetailsForm.tsx:49-101 | nothing is built without a portfolio; the ids, the form fields and the fixed account fields are copied; a name is that of the first loaded entry with the id, or "" when there is none |
| NewPursuitForm.FieldTags | src/pages/pursuits/create-pursuit/NewPursuitDetailsForm.tsx:197 | the widget's `tags` prop, the field's stored string decoded; `NewPursuitForm.WriteBackUnchanged`, `NewPursuitForm.AddedTagReadBack` and `NewPursuitForm.RemovedTagReadBack` relate it to `SetFieldTags` |
| NewPursuitForm.SetFieldTags | src/pages/pursuits/create-pursuit/NewPursuitDetailsForm.tsx:198 | storing a tag list puts its ", " join in the edited field and leaves every other field unchanged |
| NewPursuitForm.WriteBackUnchanged | src/pages/pursuits/create-pursuit/NewPursuitDetailsForm.tsx:197-198 | writing back the list the widget was given leaves the form state exactly as it was |
| NewPursuitForm.AddedTagReadBack | src/pages/pursuits/create-pursuit/NewPursuitDetailsForm.tsx:195-198 | a non-empty tag without ", " added through the widget reads back after the unchanged old tags |
| NewPursuitForm.RemovedTagReadBack | src/pages/pursuits/create-pursuit/NewPursuitDetailsForm.tsx:215-218 | removing a chip reads back as exactly that removal, unless only `[""]` is left |
| NewPursuitForm.TypedSeparatorSplitsChip | src/pages/pursuits/create-pursuit/NewPursuitDetailsForm.tsx:197-198 | one chip typed as "a, b" reads back as the two chips "a" and "b" |
| EditPursuitContainer.OrNull | src/pages/pursuits/edit-pursuit/EditPursuitPageContainer.tsx:35 | the route id is kept exactly when it is present and non-empty |
| EditPursuitContainer.Initial | src/pages/pursuits/edit-pursuit/EditPursuitPageContainer.tsx:35-103 | every details field starts as "", every step's status as "Not Defined", and the two QA flags as false |
| EditPursuitContainer.ToDetails | src/pages/pursuits/edit-pursuit/EditPursuitPageContainer.tsx:110-133 | name, status, and account and BU ids and names are copied; absent optional fields become ""; responsibles are joined with ", " ("" when absent); the two fields a project lacks are "" |
| EditPursuitContainer.AfterLoad | src/pages/pursuits/edit-pursuit/EditPursuitPageContainer.tsx:105-139 | only a non-empty route id with a fetched project changes the state: the id and the details; the other steps' records never change |
| EditPursuitContainer.ShowTabs | src/pages/pursuits/edit-pursuit/EditPursuitPageContainer.tsx:141 | `!!projectId`: tabs only for a present, non-empty id; `EditPursuitContainer.LoadShowsTabs` states when a load sets it |
| EditPursuitContainer.LoadShowsTabs | src/pages/pursuits/edit-pursuit/EditPursuitPageContainer.tsx:141 | after a load the tabs are shown exactly when the project's id is non-empty |
| EditPursuitContainer.CurrentTab | src/pages/pursuits/edit-pursuit/EditPursuitPageContainer.tsx:142-143 | the tab is never empty, and it is either "details" or a suffix of the path |
| EditPursuitContainer.TrailingSlashShowsDetails | src/pages/pursuits/edit-pursuit/EditPursuitPageContainer.tsx:143 | a path ending in "/", and the empty path, show "details" |
| EditPursuitContainer.LastSegmentIsTab | src/pages/pursuits/edit-pursuit/EditPursuitPageContainer.tsx:142-143 | a path whose last segment is a non-empty name without "/" shows that name |
| EditPursuitContainer.TabClick | src/pages/pursuits/edit-pursuit/EditPursuitPageContainer.tsx:145-151 | without a project id, replace the location with the route id's details route; with one, push the tab's route of that id and pass the id as state (the contract follows the two branches; `EditPursuitContainer.TabClickReadBack` states what the route means) |
| EditPursuitContainer.TabClickReadBack | src/pages/pursuits/edit-pursuit/EditPursuitPageContainer.tsx:141-151 | after a click the derived tab is the clicked one when the tabs are shown, and "details" otherwise |
| EditPursuitForm.BuildUpdatedProject | src/pages/pursuits/edit-pursuit/EditPursuitDetailsForm.tsx:30-76 | nothing is built without a portfolio or a non-empty project id; otherwise the id is the project id, the form's thirteen fields, names and status are copied, the account status and links are the fixed ones, the financial fields are "" and responsibles are decoded |
| EditPursuitForm.AssembledLoadsBack | src/pages/pursuits/edit-pursuit/EditPursuitDetailsForm.tsx:35-76 | loading an assembled record gives back the form state, except the names used and the two fields a project lacks |
| EditPursuitForm.SaveThenLoad | src/pages/pursuits/edit-pursuit/EditPursuitDetailsForm.tsx:35-76 | the saved form state loads back whole, except `primarySalesBU` and `pursuitKind` |
| EditPursuitForm.CreateThenLoad | src/pages/pursuits/create-pursuit/NewPursuitDetailsForm.tsx:54-101 | a created record loads back as the form state with the looked-up names |
| EditPursuitForm.LoadThenSaveKeepsIdentity | src/pages/pursuits/edit-pursuit/EditPursuitDetailsForm.tsx:35-53 | a load followed by a save keeps the id, the name, the status, the account and BU ids and names |
| EditPursuitForm.LoadThenSaveRefills | src/pages/pursuits/edit-pursuit/EditPursuitDetailsForm.tsx:54-72 | a load followed by a save keeps every present optional field the form carries, and turns absent ones into "" |
| EditPursuitForm.LoadThenSaveResponsibles | src/pages/pursuits/edit-pursuit/EditPursuitDetailsForm.tsx:73-75 | a load followed by a save keeps the responsibles when no name holds ", " and the list is not `[""]`; an absent list comes back empty |
| EditPursuitForm.LoadThenSaveBlanksFinancials | src/pages/pursuits/edit-pursuit/EditPursuitDetailsForm.tsx:59-62 | a project with a closing probability other than "" does not survive a load followed by a save |
| Accounts.MatchesKey | src/pages/account/Account.tsx:45-50 | the key-people test; `Accounts.EmptySearchKeepsAll` and `Accounts.KeySearchNeedsKeyPeople` state its two cases |
| Accounts.FilterAccounts | src/pages/account/Account.tsx:41-53 | an account is listed exactly when it is loaded and passes all three searches |
| Accounts.FilterAccountsKeepsOrder | src/pages/account/Account.tsx:41-53 | the filter keeps the loaded order |
| Accounts.EmptySearchKeepsAll | src/pages/account/Account.tsx:43-46 | with all three searches empty, every account is listed, in order |
| Accounts.KeySearchNeedsKeyPeople | src/pages/account/Account.tsx:45-50 | a non-empty key-people search lists only accounts with a matching key person |
| Accounts.LoweredSearchMatches | src/pages/account/Account.tsx:43 | lower-casing the search first does not change a match |
| Accounts.SearchIgnoresCase | src/pages/account/Account.tsx:43-49 | the case of the search texts does not matter |
| Accounts.KeyPeopleCell | src/pages/account/Account.tsx:67-68 | the cell is the names joined with ", ", or "—" for an absent or empty list (the contract follows the branches; `Accounts.KeyPeopleCellReadBack` states that the names can be read back) |
| Accounts.KeyPeopleCellReadBack | src/pages/account/Account.tsx:67-68 | a non-empty list of names without ", " reads back from its cell |
| Accounts.PortfolioName | src/pages/account/Account.tsx:107 | the first loaded account's portfolio name, or "No Portfolio" for no accounts (the contract follows the branches; `Accounts.SharedPortfolioNamed` states the shared-portfolio case) |
| Accounts.SharedPortfolioNamed | src/pages/account/Account.tsx:106-107 | when the loaded accounts share a portfolio, the header names it |
| Pursuits.StatusTrimmed | src/pages/pursuits/Pursuits.tsx:23-30 | every column status is its own trim |
| Pursuits.StatusesDistinct | src/types/Project.ts:31-38 | the six column statuses are distinct |
| Pursuits.KanbanOnly | src/pages/pursuits/Pursuits.tsx:50-52 | a project is kept exactly when it was loaded and its trimmed status is a column |
| Pursuits.FilteredProjects | src/pages/pursuits/Pursuits.tsx:61-70 | a project is shown exactly when its name and BU owner both contain their search, ignoring case |
| Pursuits.EmptySearchShowsAll | src/pages/pursuits/Pursuits.tsx:61-70 | with both searches empty, every project is shown, in order |
| Pursuits.ColumnOf | src/pages/pursuits/Pursuits.tsx:82-83 | every project is drawn in a column |
| Pursuits.ColumnsKeepOrder | src/pages/pursuits/Pursuits.tsx:81-84 | each column lists its projects in the order of the list |
| Pursuits.ColumnsData | src/pages/pursuits/Pursuits.tsx:72-86 | the loop gives exactly the six columns, each holding, in list order, the projects whose column it is |
| Pursuits.PushOntoColumn | src/pages/pursuits/Pursuits.tsx:81-84 | one `push` extends the grouping of the scanned prefix by one project |
| Pursuits.ColumnsPartition | src/pages/pursuits/Pursuits.tsx:72-86 | the six columns together hold exactly as many cards as there are visible projects |
| Pursuits.ColumnMembership | src/pages/pursuits/Pursuits.tsx:81-84 | a project is in a column exactly when that column is its own |
| Pursuits.FetchAllDimensionStatuses | src/pages/pursuits/Pursuits.tsx:91-92 | with a provider that never fails, the lookup gives the five statuses in dimension order |
| Pursuits.SomeBad | src/pages/pursuits/Pursuits.tsx:94 | `someBad`: some status is "Bad"; `Pursuits.ExecutionRule` and `Pursuits.CancelRule` state what it decides |
| Pursuits.NoneBad | src/pages/pursuits/Pursuits.tsx:95 | `noneBad`: the negation of `SomeBad` |
| Pursuits.Message | src/pages/pursuits/Pursuits.tsx:126-142 | the two refusal texts: some dimension "Bad" on a move to Execution, and a failed lookup |
| Pursuits.Guard | src/pages/pursuits/Pursuits.tsx:118-145 | other targets are allowed; Execution is allowed exactly when the lookup succeeded with no "Bad"; Cancelled asks for confirmation exactly on no "Bad" and proceeds exactly on some "Bad"; a failed lookup refuses |
| Pursuits.PlanDragEnd | src/pages/pursuits/Pursuits.tsx:97-148 | `handleDragEnd`'s decision; `Pursuits.UnresolvedIgnored`, `Pursuits.ExecutionRule`, `Pursuits.CancelRule` and `Pursuits.ApplyChangesOnlyDragged` state what it does |
| Pursuits.PlanMove | src/pages/pursuits/Pursuits.tsx:115-148 | the guard-and-apply part of the drop; `Pursuits.PlanMoveVerdict` ties each step kind to the guard's verdict |
| Pursuits.ResolveTarget | src/pages/pursuits/Pursuits.tsx:105-114 | a trimmed drop id that names a column is the target; otherwise the target is the trimmed status of the first project with that id; nothing exactly when neither exists |
| Pursuits.DragTarget | src/pages/pursuits/Pursuits.tsx:98-114 | a drop resolves exactly when it has a target other than the card itself, the card is known and the target resolves |
| Pursuits.PlanViaTarget | src/pages/pursuits/Pursuits.tsx:97-148 | an unresolved drop is ignored, and a resolved one is decided by the move rules alone |
| Pursuits.PlanMoveVerdict | src/pages/pursuits/Pursuits.tsx:115-148 | a move is ignored exactly on the same trimmed status; a refusal, a confirmation or an application each comes from the matching verdict |
| Pursuits.PlanResolved | src/pages/pursuits/Pursuits.tsx:102-115 | once the card and the target are resolved, the move rules decide |
| Pursuits.PlanMoveOfVerdict | src/pages/pursuits/Pursuits.tsx:118-148 | a real move follows the guard's verdict |
| Pursuits.ReplaceById | src/pages/pursuits/Pursuits.tsx:149-151 | a project with the id is replaced, every other project stays, and the length is kept |
| Pursuits.DropOnNothingOrSelfIgnored | src/pages/pursuits/Pursuits.tsx:100 | a drop with no target, or on the card itself, is ignored without a lookup |
| Pursuits.SameStageIgnored | src/pages/pursuits/Pursuits.tsx:115 | a drop onto the card's own trimmed status is ignored without a lookup |
| Pursuits.UnresolvedIgnored | src/pages/pursuits/Pursuits.tsx:102-112 | an unknown card or an unknown target is ignored |
| Pursuits.LookupOnlyWhenGuarded | src/pages/pursuits/Pursuits.tsx:119-124 | when no real move to Execution or Cancelled is made, the dimensions cannot change the outcome |
| Pursuits.ExecutionRule | src/pages/pursuits/Pursuits.tsx:119-130 | a real move to Execution is applied exactly when the lookup succeeded with no "Bad", and is refused otherwise |
| Pursuits.CancelRule | src/pages/pursuits/Pursuits.tsx:131-143 | a real move to Cancelled asks for confirmation on no "Bad", is applied on some "Bad", and is refused on a failed lookup |
| Pursuits.ValidationFailureUnreachable | src/pages/pursuits/Pursuits.tsx:139-143 | with the real provider the "could not validate" refusal never happens |
| Pursuits.AppliedIsResolvedMove | src/pages/pursuits/Pursuits.tsx:148 | an applied move is the dragged project with only its status set to the resolved target, which differs from its own |
| Pursuits.FindProject | src/pages/pursuits/Pursuits.tsx:102-111 | `projects.find` by id: `Lists.FindFirst` on the ids, so the first project with the id; `Pursuits.FindProjectById` restates this for projects |
| Pursuits.FindProjectById | src/pages/pursuits/Pursuits.tsx:102 | `find` by id gives nothing exactly when no project has the id, and otherwise a listed project with that id |
| Pursuits.AppliedStaysOnBoard | src/pages/pursuits/Pursuits.tsx:147-151 | on a board whose cards all sit on columns, an applied move gives the card a column status |
| Pursuits.CancelledOnBoard | src/pages/pursuits/Pursuits.tsx:160-166 | the confirmed cancellation's record sits on the Cancelled column |
| Pursuits.ReplaceKeepsOnBoard | src/pages/pursuits/Pursuits.tsx:148-151 | replacing cards by id with a card on a column keeps every card on a column |
| Pursuits.FindUnique | src/pages/pursuits/Pursuits.tsx:102 | with unique ids, looking up a project's id finds that project |
| Pursuits.ReplaceByIdUnique | src/pages/pursuits/Pursuits.tsx:149-151 | with unique ids, replacing by id updates exactly one position |
| Pursuits.ApplyChangesOnlyDragged | src/pages/pursuits/Pursuits.tsx:148-151 | an applied move changes only the dragged project, and only its status |
| Pursuits.PlanOnColumn | src/pages/pursuits/Pursuits.tsx:108-109 | a drop on a column header targets that column |
| Pursuits.ScenarioExecutionAllowed | src/pages/pursuits/Pursuits.tsx:119-130 | an Open project with all dimensions Good moves to Execution |
| Pursuits.ScenarioExecutionDenied | src/pages/pursuits/Pursuits.tsx:126-129 | a project with a Bad dimension is kept out of Execution |
| Pursuits.ScenarioCancelConfirm | src/pages/pursuits/Pursuits.tsx:131-136 | with every dimension "Not Defined", a move to Cancelled asks for confirmation |
| Pursuits.ScenarioCancelWithBad | src/pages/pursuits/Pursuits.tsx:137 | with a Bad dimension, a move to Cancelled is applied without a prompt |
| Pursuits.ResolveDrop | src/pages/pursuits/Pursuits.tsx:98-114 | the handler's early returns and lookups compute exactly the resolved drop |
| Pursuits.GuardDrop | src/pages/pursuits/Pursuits.tsx:115-148 | the handler's `allowed` flag and early returns compute exactly the move rules' decision |
| Pursuits.Decide | src/pages/pursuits/Pursuits.tsx:97-148 | resolving and then guarding computes exactly the drag-end decision |
| Pursuits.Board.constructor | src/pages/pursuits/Pursuits.tsx:36-42 | the board starts with no projects, no dragged card and no pending project |
| Pursuits.Board.DraggedProject | src/pages/pursuits/Pursuits.tsx:182 | the overlay's project is the first loaded project with the dragged id, and is absent only with no drag or an unknown id |
| Pursuits.Board.Load | src/pages/pursuits/Pursuits.tsx:46-59 | a fetch keeps the projects on a column; a failed fetch leaves the list |
| Pursuits.Board.DragStart | src/pages/pursuits/Pursuits.tsx:88-89 | the dragged id is recorded |
| Pursuits.Board.DragEnd | src/pages/pursuits/Pursuits.tsx:97-158 | the dragged id is cleared on every path; the step is the drag-end decision; only an applied move changes the list, and a failed save does not undo it; a confirmation request replaces any pending one |
| Pursuits.Board.Commit | src/pages/pursuits/Pursuits.tsx:131-157 | a confirmation request sets the pending project; an application replaces the project by id and reports a failed save |
| Pursuits.Board.ConfirmCancel | src/pages/pursuits/Pursuits.tsx:160-175 | with no pending project nothing happens; otherwise it is sent with status Cancelled, replaced in the list, and the pending project is cleared whatever the save's outcome |
| Pursuits.Board.AbortCancel | src/pages/pursuits/Pursuits.tsx:177-179 | the pending project is cleared and the list is untouched |
| Pursuits.OpenCancelAsksConfirm | src/pages/pursuits/Pursuits.tsx:131-136 | an Open project with all dimensions Good asks for confirmation before Cancelled |
| Pursuits.ScenarioLoadKeepsBoth | src/pages/pursuits/Pursuits.tsx:50-52 | two Open projects both survive the load filter |
| Pursuits.ScenarioFirstCancelRequest | src/pages/pursuits/Pursuits.tsx:134 | dropping the first Open project on Cancelled asks for confirmation |
| Pursuits.ScenarioSecondCancelRequest | src/pages/pursuits/Pursuits.tsx:134 | so does dropping the second |
| Pursuits.ScenarioConfirmSecond | src/pages/pursuits/Pursuits.tsx:162-167 | confirming the second request rewrites only the second project |

## Left out

- Network I/O: the project, account and BU-owner services and the
  `fetch` calls behind them are not part of this model. Their answers are
  parameters: the fetched lists, the dimension statuses, and whether
  the board's `updateProject` call succeeds.
- The two details forms are modelled up to the record they send. What
  follows the save is not: the create form's `setProjectId`, the
  navigation to the team step and its `setError`, and the edit form's
  success `alert` and `setError`.
- Asynchrony. Each handler is one atomic step, given the answers of its
  awaits. Stale responses, interleaved drags and a drop that arrives
  while the dimension lookup is pending are not modelled.
- Rendering and libraries: JSX, the dnd-kit drag library, toasts (only
  their refusal texts, `Pursuits.Message`), the modal markup, the card
  component, react-table pagination, and the side effects of a
  react-router navigation. A tab click is modelled as the route and
  options it passes to `navigate`.
- The other wizard steps and pages (team, plan, process, QA and gut
  dimension pages, the account create and edit pages, the create
  wizard's container). They only check that fields are present and
  assemble a request.
- Text.Trim: only the ASCII whitespace characters are stripped, not the
  rest of the Unicode set that `String.prototype.trim` uses.
- Text.ToLower: only A-Z are mapped, not the full Unicode case mapping.
- `uuidv4()` and `new Date().toISOString()` are parameters (`generatedId`,
  `now`).
- The source of the `TeamData` and `GutDimension` types is not part of
  this model. Their records follow the literals the container
  initialises.
- Account key people are typed `any[]` in the source. The model takes
  them to be strings, as the filter and the cell use them.
- TagInputs.SpliceOut: the index is a natural number, because the
  widget passes only valid chip positions. The negative indices that
  `splice` counts from the end are not modelled.
- Within `handleDragEnd` the local change comes before the save call.
  The atomic step does not show this order: it shows only that a failed
  save leaves the change in place.
- Console logging of failed fetches and saves.
- Pursuits.ColumnOf: a status that trims to a key of `Object.prototype`
  (such as "constructor" or "toString") makes the source's grouping
  throw a TypeError, where the model draws that card in Open. The board
  never holds such a status, since it keeps only column statuses.

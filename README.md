# Project board core, modelled in Dafny

This project models `src/app.ts` of a small browser project board. Users fill in a form with a
title, a description and a number of people. The form validates the three fields. On success it
hands them to a store. The store appends an Active project and pushes a copy of the whole project
list to every subscribed list widget. Each list widget keeps the projects whose status name matches
its own type ('active' or 'finished') and re-renders their titles.

The model has four modules:

- `Wrappers` (`wrappers.dfy`): `Option`, standing for TypeScript's optional members and `??`.
- `Validation` (`validation.dfy`): `validateInputString`, `validateInputNumber`, and a predicate
  that says when `parseInt` returns a number rather than NaN. These are pure functions.
- `Projects` (`projects.dfy`): the `ProjectStatus` enum, spelt `Fininshed` as in the source; the
  `Project` record; and the status filter a list applies to each snapshot.
- `App` (`app.dfy`): the classes whose fields the source updates in place.
  - `ProjectState` is `State<Project>` and `ProjectState` together. It has a `listeners` sequence
    (duplicates allowed), a `projects` sequence, and a ghost log of every listener call as a
    (listener, snapshot) pair.
  - `ProjectList` holds the assigned projects and the rendered `li` texts.
  - `ProjectInput` holds the three field values.
  - `addProject`'s notification loop, `renderProjects`' append loop and the submit handler are
    methods with loops and frames.

The source has several quirks; the model keeps them:

- The enum member is `Fininshed`. The 'finished' list compares against "finished", so it always
  receives the empty sequence (`Projects.FinishedListAlwaysEmpty`).
- `validateInputNumber` compares the *length* of the text with `min`/`max`, not the parsed number.
  So "0" and "-5" pass with `min: 1` (`Validation.NumberMinIsOnLength`).
- `getInstance` never assigns the static `instance` field. Every call builds a new store
  (`App.GetInstanceTwice`). The page calls it once, so the page still has one store.
- A project id is `Date.now.toString()`: the source text of the function, the same for every
  project. It is not unique and is not a time stamp. `ProjectState.Valid` records that every stored
  id equals that one constant.
- `people` is passed to `addProject` as `+text`, a JavaScript number, not a checked positive integer.
- A list renders only each project's title (src/app.ts:128-132); the people count and the
  description are never shown.
- Every length check uses JavaScript's `length`, which counts UTF-16 code units. A character
  outside the Basic Multilingual Plane (an emoji, say) counts twice (`Validation.JsLength`).

Snapshots are Dafny sequence values. A listener therefore cannot alias the store's own list, which
is what the source gets from `[...this.projects]`.

## Model

| member | source | states |
|---|---|---|
| `Wrappers.Option.GetOr` | src/app.ts:224 | `x ?? default`: the present value, or the default when absent |
| `Validation.CodeUnits` | src/app.ts:224-232 | a character takes one UTF-16 code unit below U+10000 and two (a surrogate pair) from U+10000 up |
| `Validation.JsLength` | src/app.ts:224-232 | `value.length`: at least the number of characters and at most twice it, and 0 exactly for the empty text |
| `Validation.JsLengthOfBmp` | src/app.ts:224-232 | text without characters above U+FFFF has one code unit per character |
| `Validation.JsLengthOfAstral` | src/app.ts:224-232 | text made only of characters from U+10000 up has two code units per character |
| `Validation.ValidateInputString` | src/app.ts:219-234 | accepts exactly when all three hold: not (value empty and `required`, default false); `minLength` (default 1) ≤ UTF-16 length; UTF-16 length ≤ `maxLength` (default 1000) |
| `Validation.ValidateInputNumber` | src/app.ts:235-254 | rejects every text parseInt turns into NaN; otherwise accepts exactly when `min` (default 1) ≤ the text's UTF-16 length ≤ `max` (default 1000) |
| `Validation.LeadingSpaces` | src/app.ts:243 | the white-space run parseInt skips is never longer than the text |
| `Validation.LeadingSpacesRun` | src/app.ts:243 | every skipped character is white space, and the character after the run is not |
| `Validation.DigitsStart` | src/app.ts:243 | digits start right after the leading white space, or one character later exactly when the character there is `+` or `-` |
| `Validation.ParseIntIsNumber` | src/app.ts:243-244 | when parseInt yields a number, a decimal digit stands where the digits start (the `0` of a `0x` prefix included) |
| `Validation.ParsableIsNonEmpty` | src/app.ts:243-246 | a text parseInt accepts has at least one character |
| `Validation.LeadingDigitParses` | src/app.ts:243-246 | a text that starts with a decimal digit and has no `0x` prefix parses, whatever follows |
| `Validation.NoDigitIsNaN` | src/app.ts:243-246 | a text with no decimal digit is NaN |
| `Validation.ParseIntAcceptsDigits` | src/app.ts:243-246 | "3" and "3abc" parse |
| `Validation.ParseIntAcceptsSignAndHex` | src/app.ts:243-246 | " -7" and "0x1f" parse |
| `Validation.ParseIntRejectsExamples` | src/app.ts:243-246 | "", "abc" and "0x" are NaN |
| `Validation.RequiredRedundantForString` | src/app.ts:224-229 | when the effective `minLength` is at least 1, the `required` flag never changes the string check's result |
| `Validation.RequiredRedundantForNumber` | src/app.ts:240-246 | the `required` flag never changes the number check's result, because parseInt already rejects "" |
| `Validation.NumberCheckSeesOnlyLength` | src/app.ts:247-252 | two parsable texts of equal UTF-16 length with the same bounds get the same verdict: the parsed value plays no part |
| `Validation.NumberMinIsOnLength` | src/app.ts:247-249 | with `min: 1`, "0" and "-5" pass, though both are below 1 as numbers |
| `Validation.NumberMaxIsOnLength` | src/app.ts:250-252 | with `max: 2`, "100" fails and "99" passes: the lengths are compared |
| `Validation.StringCheckMonotone` | src/app.ts:227-232 | loosening `minLength`/`maxLength` never rejects a value that was accepted |
| `Validation.StringCheckCountsCodeUnits` | src/app.ts:227-232 | two emoji pass `minLength: 3` and fail `maxLength: 3` (four code units), while "ab" fails `minLength: 3` |
| `Projects.NewProject` | src/app.ts:8-18 | the project carries the given title, description, people and status, and the id text of `Date.now` |
| `Projects.StatusName` | src/app.ts:109 | `ProjectStatus[status]`: a capitalised name, "Active" exactly for the Active member |
| `Projects.LowerChar` | src/app.ts:109 | upper-case ASCII letters move to lower case; every other character is kept |
| `Projects.ToLower` | src/app.ts:109 | same length as the input, each character lower-cased on its own |
| `Projects.LowerCharWise` | src/app.ts:109 | a text equal, character by character, to the lower-cased input is the lower-cased input |
| `Projects.StatusKey` | src/app.ts:109 | the key a list compares with is "active" exactly for Active projects, and is never "finished" |
| `Projects.StatusKeyIsLowerName` | src/app.ts:109 | the key a list compares with is the lower-cased enum name: "active" or "fininshed" |
| `Projects.Matches` | src/app.ts:107-110 | a project matches a list type exactly when the type is "active" and the project Active, or the type is "fininshed" and the project Fininshed |
| `Projects.MatchesExactly` | src/app.ts:107-110 | a project matches the 'active' list exactly when it is Active; nothing matches the 'finished' list (enum spelt `Fininshed`, line 5) |
| `Projects.Relevant` | src/app.ts:107-110 | the filtered list is no longer than the snapshot |
| `Projects.RelevantMembers` | src/app.ts:107-110 | a project is in the filtered list exactly when it is in the snapshot and matches the list's type |
| `Projects.RelevantAppend` | src/app.ts:107-110 | filtering distributes over concatenation, so it keeps the snapshot's order |
| `Projects.RelevantSnoc` | src/app.ts:107-110 | appending a project to the snapshot appends it to the filtered list exactly when it matches |
| `Projects.RelevantAllMatch` | src/app.ts:107-110 | a snapshot whose projects all match is kept whole |
| `Projects.FinishedListAlwaysEmpty` | src/app.ts:106-111 | the 'finished' list receives the empty sequence from every snapshot |
| `Projects.ActiveListGetsAllActive` | src/app.ts:106-111 | when every project is Active, the 'active' list receives the whole snapshot |
| `App.Fanout` | src/app.ts:46-48 | a notification round makes one call per registration |
| `App.FanoutAt` | src/app.ts:46-48 | call i of a round goes to registration i and carries the round's snapshot |
| `App.FanoutSnoc` | src/app.ts:46-48 | one more registration adds one call at the end of the round |
| `App.CallsPerRegistration` | src/app.ts:28-48 | in one round a listener is called exactly as many times as it was registered (no de-duplication) |
| `App.Titles` | src/app.ts:128-132 | one rendered item per project |
| `App.TitlesAt` | src/app.ts:128-132 | item k is the title of project k |
| `App.TitlesSnoc` | src/app.ts:128-132 | appending a project appends its title |
| `App.ProjectState.constructor` | src/app.ts:26-34 | a new store has no listeners, no projects and no calls, and satisfies the store invariant |
| `App.ProjectState.GetInstance` | src/app.ts:37-40 | returns the cached instance if there is one; otherwise a fresh, empty store |
| `App.ProjectState.AddListener` | src/app.ts:28-30 | the listener is appended to the registry; projects and the call log are unchanged |
| `App.ProjectState.AddProject` | src/app.ts:42-49 | `projects` grows by exactly one Active project at the end, and earlier entries are unchanged. The listeners are unchanged. The log gains one call per registration, in order, each carrying the new full project list. Every listening list then shows that list. The store invariant (all Active, one id) is kept |
| `App.ProjectState.NotifyListeners` | src/app.ts:46-48 | the log gains exactly one round of calls in registration order, and every listening list shows the snapshot |
| `App.ValidStoreLists` | src/app.ts:106-111 | a list showing a valid store's projects lists every project's title when its type is 'active', and nothing when it is 'finished' |
| `App.ProjectList.Shows` | src/app.ts:106-113 | a list reflecting a snapshot has one item per assigned project and never more assigned projects than the snapshot has |
| `App.ProjectList.constructor` | src/app.ts:96-103 | a new list of the given type is empty and is appended to the store's listeners; the store's projects are unchanged |
| `App.ProjectList.Notify` | src/app.ts:106-113 | afterwards the assigned projects are the matching sub-sequence of the snapshot, and the items are their titles |
| `App.ProjectList.RenderProjects` | src/app.ts:123-133 | the items become exactly the titles of the assigned projects, in order, whatever was rendered before |
| `App.ValidateUserInput` | src/app.ts:164-181 | accepts exactly when the title's UTF-16 length is in 3..20, the description's is in 5..1000, and people parses with a UTF-16 length in 1..1000 |
| `App.FormBoundaries` | src/app.ts:164-181 | for text without characters above U+FFFF and people "3": accepted exactly when the title has 3 to 20 characters and the description 5 to 1000 |
| `App.FormCountsCodeUnits` | src/app.ts:164-181 | a title made only of characters from U+10000 up (emoji) passes with 2 to 10 characters, not 3 to 20 |
| `App.FormPeopleField` | src/app.ts:176-179 | "" and "abc" fail as the people field |
| `App.WebsiteFormIsValid` | src/app.ts:164-181 | "Website" / "Build site" / "3" passes validation |
| `App.ProjectInput.constructor` | src/app.ts:141-156 | the form starts with three empty fields, bound to the given store |
| `App.ProjectInput.SubmitHandler` | src/app.ts:184-196 | on failed validation the fields, the store, the log and every listening list are unchanged. On success exactly one Active project is added with the field values, one round of calls is logged, every list shows the new projects, and the three fields are "" |
| `App.ProjectInput.ClearInputs` | src/app.ts:198-202 | all three fields are "" |
| `App.GetInstanceTwice` | src/app.ts:37-40 | two `getInstance` calls with the static field unassigned return two different stores |
| `App.SubmitScenario` | src/app.ts:270-272 | after the page bootstrap and one submission: if the fields are valid, the store holds exactly the Active project made from them, the 'active' list shows its title and the 'finished' list nothing; otherwise the store and both lists are empty |

## Left out

- The `Component` base constructor and `attach` (src/app.ts:54-91): DOM lookups, `importNode` and
  `insertAdjacentElement` are browser calls. `renderContent`'s heading and id writes (src/app.ts:116-121)
  are left out for the same reason.
- The `Autobind` decorator (src/app.ts:258-266): JavaScript `this`-binding only.
  `ProjectInput.configure`'s `addEventListener` is left out too. `SubmitHandler` is called directly.
- `event.preventDefault()` and `alert(...)` in the submit handler (src/app.ts:185, 187): browser I/O.
  The failing branch is modelled as "nothing changes".
- The unary `+` conversion of the people text (src/app.ts:193): JavaScript float conversion.
  `PeopleCount.UnaryPlus(text)` keeps the text it is computed from. The number itself, and its NaN
  case (for "3abc"), are not modelled.
- `parseInt`'s numeric value: only whether it returns NaN is modelled. The white-space set is
  ECMAScript's WhiteSpace and LineTerminator characters. The sign, the `0x` prefix and the first
  digit are modelled.
- The `minLength`, `maxLength`, `min` and `max` bounds are integers in the model. The source types
  them as JavaScript numbers, which could be fractional; every call site passes an integer literal.
- `toLowerCase` is modelled for ASCII letters only. It is only applied to the enum names.
- Listeners other than a project list's closure: the source registers no others. The registry holds
  `ProjectList` references, and a call is `ProjectList.Notify`.
- The initial values of the three input fields come from the page's HTML template, which is not
  part of this model. They are taken to be empty.
- The exact text of `Date.now.toString()` is engine-defined. `PROJECT_ID` uses V8's text. The model
  only relies on it being the same for every project.
- The static field `ProjectState.instance`: Dafny classes have no mutable static fields, so
  `GetInstance` takes the field's value as a parameter. Nothing in the source assigns the field, so
  every caller passes null.
- `App.ProjectList.RenderProjects`: each list writes into its own `items`. The source looks the
  `ul` up by the page-wide id `${type}-projects-list` (src/app.ts:117, 124-126), so two lists of the
  same type would both render into the first such element. The page creates one list of each type
  (src/app.ts:271-272), so the difference is not visible there.
- `Projects.Relevant`: its own contract only bounds the length. Membership and order are stated by
  `RelevantMembers` and `RelevantAppend`, as separate lemmas, to keep the proofs about the store's
  notification loop small.

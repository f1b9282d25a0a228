# FlowerWork task board: a Dafny model of its client-side logic

FlowerWork is a browser task board written with Next.js and React. It has
sign-up and password-reset forms, and a drag-and-drop kanban dashboard whose
task cards show labels, members, a due date and a checklist bar. This project
models the logic behind those screens and proves what it guarantees.

- **Kanban move** (`kanban.dfy`). The board has three buckets: to do, in
  progress and completed. `moveTask(id, currentContainer, newContainer)` finds
  the first task with that id in the current bucket. If there is none, or if
  both buckets are the same, the board is returned unchanged. Otherwise every
  task with that id is filtered out of the current bucket, and the found task
  is appended to the new bucket. The move builds a new board, so it is a
  function.
- **Dashboard state** (`dashboard.dfy`). This is a class holding the board,
  the sidebar-retracted flag and the project progress. Its methods are the
  move, the sidebar toggle and the resize rule (retract below 1400 pixels). It
  also draws the 6-segment progress bar.
- **Password rules** (`password_rules.dfy`, with the character classes shared
  with the task card in `chars.dfy`). Each form's password regular
  expression is written as a predicate over characters. There is an allowed
  alphabet: ASCII letters, digits and `!@#$%^&*(),.?":{}|<>`. A password needs
  at least 8 characters. Each look-ahead becomes a "contains one of" test. The
  sign-up rule adds a special-character test to the reset rule. Both forms
  show the same message. That message does not mention the special character,
  so a sign-up password such as `Abcdefg1` is rejected even though it meets
  every requirement the message lists (`PasswordRules.ResetAcceptsMore`).
- **Sign-up form** (`sign_up_form.dfy`). This is a class holding `formData`,
  `passwordError`, `generalError` and the visibility flag. `formData` is a map
  from field name to value, so `{...formData, [name]: v}` is a map update.
  `handleInputChange` validates only the `password` field. `handleSignUp` is
  blocked by a pending password error; otherwise it clears the general error
  and resets the form. The e-mail warning is modelled as a predicate: a match
  of `\S+@\S+\.\S+` anywhere in the address. The catch branch of `handleSignUp`
  cannot be reached, so `generalError` only ever holds `""`.
- **Reset-password form** (`reset_password_form.dfy`). This is a class with
  the two password fields, `passwordMatch`, `passwordError` and two visibility
  flags. `handleSubmit` reads `passwordError` as it was before the submit,
  because React state setters take effect only at the next render. The model
  keeps that value before calling `validatePassword`. When the passwords
  differ, only `passwordMatch` changes, to false. It becomes true again only
  on a successful submit.
- **Task card** (`task_card.dfy`, `segment_bar.dfy`). Labels and member badges
  cycle through 10-colour palettes. Initials are the upper-cased first
  characters of the space-separated pieces of a name. The due-date line pads
  the minutes to two digits and keeps the last two characters of the year. The
  checklist bar has 10 segments and treats a `null` count as 0. The segment
  rule (fill below a threshold, round the two ends) is shared with the
  dashboard's progress bar.

Browser state is handled as follows:

- React `setX` calls become field assignments. Each handler reads the state
  as it was when its event arrived.
- `window.innerWidth` is a parameter of `HandleResize`.
- The snapshot read from local storage is a parameter of the dashboard
  constructor, already decoded.
- The `Date` fields and the locale's month name are fields of `DueDate`.

## Model

| member | source | states |
|---|---|---|
| `Kanban.Find` | frontend/app/task-management-dashboard/page.tsx:66-68 | `find` returns nothing exactly when no task has the id; otherwise it returns the first task with that id |
| `Kanban.RemoveId` | frontend/app/task-management-dashboard/page.tsx:77-79 | the filtered bucket holds exactly the tasks of the old bucket whose id differs, and none with the id; its length drops by the number of copies of the id |
| `Kanban.RemoveIdAppend` | frontend/app/task-management-dashboard/page.tsx:77-79 | filtering distributes over concatenation, so the remaining tasks keep their relative order |
| `Kanban.RemoveAbsentId` | frontend/app/task-management-dashboard/page.tsx:77-79 | filtering out an id that does not occur leaves the bucket as it was |
| `Kanban.RemoveIdKeepsOtherCounts` | frontend/app/task-management-dashboard/page.tsx:77-79 | filtering one id leaves the number of tasks with any other id unchanged |
| `Kanban.RemoveUniqueId` | frontend/app/task-management-dashboard/page.tsx:66-79 | if the id occurs once, the filter removes exactly the task `find` returned (multiset difference) |
| `Kanban.Board.Put` | frontend/app/task-management-dashboard/page.tsx:82-86 | `{...prevTasks, [bucket]: tasks}` replaces that bucket and no other |
| `Kanban.MoveTask` | frontend/app/task-management-dashboard/page.tsx:60-88 | if the id is absent from the source bucket, or source equals target, the board is unchanged. Otherwise no task with the id is left in the source, which keeps exactly its other tasks. The target becomes the old target followed by the found task, and the third bucket is unchanged |
| `Kanban.RemoveSingleId` | frontend/app/task-management-dashboard/page.tsx:77-79 | filtering out an id that occurs once, as t in a + [t] + b, leaves exactly a + b |
| `Kanban.FindAfterAbsent` | frontend/app/task-management-dashboard/page.tsx:66-68 | `find` on a + [t] + b returns t when no task of a has t's id |
| `Kanban.MoveKeepsSourceOrder` | frontend/app/task-management-dashboard/page.tsx:66-86 | moving the only task t with the id out of a source a + [t] + b leaves a + b there, the other tasks in their relative order, and appends t itself to the target |
| `Kanban.MovedBuckets` | frontend/app/task-management-dashboard/page.tsx:77-86 | after a real move the three buckets are the filtered source, the target with the found task appended, and the third bucket as it was |
| `Kanban.MoveCountsPerId` | frontend/app/task-management-dashboard/page.tsx:66-86 | after a real move the moved id's board count becomes its old count minus its count in the source, plus one (exactly once when ids are unique, see `Kanban.MovePreservesUniqueIds`); every other id keeps its count |
| `Kanban.MovePreservesUniqueIds` | frontend/app/task-management-dashboard/page.tsx:66-86 | a move keeps ids unique across the whole board |
| `Kanban.MoveConservesTasks` | frontend/app/task-management-dashboard/page.tsx:66-86 | if the id occurs at most once in the source bucket, the board holds the same multiset of tasks afterwards, so the total count is conserved |
| `Kanban.UniqueBoardMoveConservesTasks` | frontend/app/task-management-dashboard/page.tsx:66-86 | on a board with unique ids every move conserves the tasks |
| `Kanban.MoveDropsDuplicates` | frontend/app/task-management-dashboard/page.tsx:77-80 | with two or more copies of the id in the source, a move loses tasks: the total falls by the number of copies minus one |
| `Dashboard.ProgressBar` | frontend/app/task-management-dashboard/page.tsx:150-173 | six segments. Segment i has its own colour iff i < progress and is grey otherwise; segment 0 is rounded left and segment 5 rounded right |
| `Dashboard.ProgressFilledCount` | frontend/app/task-management-dashboard/page.tsx:150-166 | the number of coloured progress segments is the progress clamped to [0, 6] |
| `Dashboard.DashboardState.constructor` | frontend/app/task-management-dashboard/page.tsx:52-57 | the board is the saved board if there is one, else the seed; the sidebar is not retracted; the progress is 5 |
| `Dashboard.DashboardState.MoveTask` | frontend/app/task-management-dashboard/page.tsx:60-88 | the board becomes the moved board. Unique ids stay unique and the tasks are conserved; the total is conserved when the id occurs at most once in the source |
| `Dashboard.DashboardState.ToggleLeftDiv` | frontend/app/task-management-dashboard/page.tsx:91-93 | the retracted flag is negated |
| `Dashboard.DashboardState.HandleResize` | frontend/app/task-management-dashboard/page.tsx:96-102 | retracted iff the window width is below 1400 |
| `Dashboard.DashboardState.ProgressSegments` | frontend/app/task-management-dashboard/page.tsx:150-175 | the drawn bar colours the stored progress, clamped to [0, 6], segments |
| `SegmentBar.FilledBelowCount` | frontend/app/components/ui/taskCard.tsx:160-165 | a bar whose segment i is filled iff i < k shows k clamped to [0, length] filled segments |
| `PasswordRules.SignUpStrongerThanReset` | frontend/app/components/popup/ResetPasswordForm.tsx:24-25 | every password the sign-up rule (SignUpForm.tsx:61-62) accepts, the reset rule accepts. A reset-accepted password containing a special character is sign-up-accepted |
| `PasswordRules.ResetAcceptsMore` | frontend/app/components/popup/ResetPasswordForm.tsx:24-25 | the inclusion is strict: `Abcdefg1` passes the reset rule and fails the sign-up rule |
| `PasswordRules.OutsideAlphabetRejected` | frontend/app/components/popup/SignUpForm.tsx:61-62 | one character outside the allowed alphabet makes both rules reject |
| `PasswordRules.ShortRejected` | frontend/app/components/popup/SignUpForm.tsx:61-62 | passwords shorter than 8 characters are rejected by both rules |
| `SignUpForm.SignUpPasswordError` | frontend/app/components/popup/SignUpForm.tsx:60-71 | the error is `""` exactly when the sign-up rule accepts the password, and the fixed message otherwise |
| `SignUpForm.ShowsEmailWarning` | frontend/app/components/popup/SignUpForm.tsx:198 | the warning shows iff the e-mail is non-empty and contains no match of `\S+@\S+\.\S+` |
| `SignUpForm.EmailShapeMatches` | frontend/app/components/popup/SignUpForm.tsx:198 | every `local@domain.tld` with non-empty, white-space-free parts passes, so it shows no warning |
| `SignUpForm.EmailMatchHasShape` | frontend/app/components/popup/SignUpForm.tsx:198 | a match splits the string into text before, a non-empty white-space-free `local@domain.tld`, and text after |
| `SignUpForm.EmailTextMatches` | frontend/app/components/popup/SignUpForm.tsx:198 | any text containing a `local@domain.tld` with non-empty, white-space-free parts passes |
| `SignUpForm.EmailPatternIffShape` | frontend/app/components/popup/SignUpForm.tsx:198 | the test passes exactly on the strings that contain some `local@domain.tld` with non-empty, white-space-free parts, in both directions |
| `SignUpForm.EmailMatchInContext` | frontend/app/components/popup/SignUpForm.tsx:198 | the test is unanchored: text around a matching string keeps it matching |
| `SignUpForm.EmailNeedsAt` | frontend/app/components/popup/SignUpForm.tsx:198 | a string without `@` never passes |
| `SignUpForm.EmailTestIsLoose` | frontend/app/components/popup/SignUpForm.tsx:198 | `a@@..` passes the test |
| `SignUpForm.SignUpFormState.constructor` | frontend/app/components/popup/SignUpForm.tsx:21-30 | empty text fields, false flags, no errors, password hidden; the error is in sync with the password |
| `SignUpForm.SignUpFormState.ValidatePassword` | frontend/app/components/popup/SignUpForm.tsx:60-71 | `passwordError` becomes `""` iff the sign-up rule accepts the password |
| `SignUpForm.SignUpFormState.HandleInputChange` | frontend/app/components/popup/SignUpForm.tsx:40-50 | only the field named `name` changes: to `checked` for a checkbox, to `value` otherwise. The password error is recomputed only for `password` and is unchanged otherwise; the error stays in sync with the password |
| `SignUpForm.SignUpFormState.HandleSignUp` | frontend/app/components/popup/SignUpForm.tsx:83-107 | a non-empty password error blocks the submit and changes nothing. Otherwise the form data is reset and the general error cleared. A submitted password was empty or accepted by the sign-up rule |
| `SignUpForm.SignUpFormState.TogglePasswordVisibility` | frontend/app/components/popup/SignUpForm.tsx:122-124 | the visibility flag is negated |
| `ResetPasswordForm.ResetPasswordError` | frontend/app/components/popup/ResetPasswordForm.tsx:23-34 | the error is `""` exactly when the reset rule accepts the password, and the fixed message otherwise |
| `ResetPasswordForm.ResetPasswordFormState.constructor` | frontend/app/components/popup/ResetPasswordForm.tsx:13-19 | empty fields, `passwordMatch` true, no error, both fields hidden |
| `ResetPasswordForm.ResetPasswordFormState.ValidatePassword` | frontend/app/components/popup/ResetPasswordForm.tsx:23-34 | `passwordError` becomes `""` iff the reset rule accepts the password |
| `ResetPasswordForm.ResetPasswordFormState.HandleSubmit` | frontend/app/components/popup/ResetPasswordForm.tsx:36-61 | on a mismatch only `passwordMatch` changes, to false. An error present before the submit blocks it: the fields stay and the error is recomputed. Success empties both fields and the error and sets `passwordMatch`. A false `passwordMatch` stays false unless the submit succeeds. An updated password was empty or reset-accepted |
| `ResetPasswordForm.ResetPasswordFormState.OnPasswordChange` | frontend/app/components/popup/ResetPasswordForm.tsx:116-119 | sets the password and recomputes the error from the new value |
| `ResetPasswordForm.ResetPasswordFormState.OnConfirmPasswordChange` | frontend/app/components/popup/ResetPasswordForm.tsx:154 | changes only the confirmation field |
| `ResetPasswordForm.ResetPasswordFormState.TogglePasswordVisibility` | frontend/app/components/popup/ResetPasswordForm.tsx:63-65 | the password visibility flag is negated |
| `ResetPasswordForm.ResetPasswordFormState.ToggleConfirmPasswordVisibility` | frontend/app/components/popup/ResetPasswordForm.tsx:67-69 | the confirmation visibility flag is negated |
| `TaskCard.LabelColor` | frontend/app/components/ui/taskCard.tsx:95 | `labelColors[index % 10]` is always a palette colour (the index is in range) |
| `TaskCard.MemberColor` | frontend/app/components/ui/taskCard.tsx:122 | `colors[index % 10]` is always a palette colour (the index is in range) |
| `TaskCard.ColorsCycle` | frontend/app/components/ui/taskCard.tsx:95 | label and member colours repeat with period 10 and follow palette order for the first ten |
| `TaskCard.LabelBar` | frontend/app/components/ui/taskCard.tsx:91-97 | one stripe per label, stripe i in `LabelColor(i)` |
| `TaskCard.MemberBadges` | frontend/app/components/ui/taskCard.tsx:118-132 | one badge per member; badge i has `MemberColor(i)` and the initials of member i's name |
| `TaskCard.SplitJoin` | frontend/app/components/ui/taskCard.tsx:127 | `split(" ")` yields one more piece than there are spaces; no piece holds a space; joining with spaces gives the name back |
| `TaskCard.SplitAtSpace` | frontend/app/components/ui/taskCard.tsx:127 | the pieces of `a + " " + b` are the pieces of `a` followed by those of `b` |
| `TaskCard.InitialsOfLength` | frontend/app/components/ui/taskCard.tsx:128-129 | each non-empty piece contributes exactly one character and empty pieces none, so the initials are no longer than the pieces |
| `TaskCard.InitialsOfAppend` | frontend/app/components/ui/taskCard.tsx:128-129 | the initials follow piece order: initials of concatenated pieces are concatenated initials |
| `TaskCard.InitialsBound` | frontend/app/components/ui/taskCard.tsx:126-129 | a name's initials are at most its number of spaces plus one |
| `TaskCard.InitialsOfFullName` | frontend/app/components/ui/taskCard.tsx:126-129 | the initials of `first + " " + last` are the initials of `first` followed by those of `last` |
| `TaskCard.SingleWordInitials` | frontend/app/components/ui/taskCard.tsx:126-129 | a name without spaces gives its upper-cased first character, or nothing if empty |
| `TaskCard.ToUpper` | frontend/app/components/ui/taskCard.tsx:128 | each lower-case ASCII letter maps to the upper-case letter at the same alphabet position, and every other character is unchanged |
| `TaskCard.NatToDecimal` | frontend/app/components/ui/taskCard.tsx:148-150 | `toString()` of a non-negative number is a non-empty digit string ending in the units digit, one digit long exactly below 10, and starting with `0` only for 0 itself (no leading zeros) |
| `TaskCard.DecimalRoundTrip` | frontend/app/components/ui/taskCard.tsx:148-150 | reading the decimal digits of n back gives n |
| `TaskCard.MinuteFieldTwoDigits` | frontend/app/components/ui/taskCard.tsx:148-151 | minutes 0..59 render as exactly two digits that read back as the minutes, with a leading zero exactly below 10 |
| `TaskCard.YearFieldLastTwoDigits` | frontend/app/components/ui/taskCard.tsx:145-147 | from year 10 on, the year field is two digits reading back as the year modulo 100 |
| `TaskCard.YearFieldShortYear` | frontend/app/components/ui/taskCard.tsx:145-147 | a year below 10 renders whole, as one digit |
| `TaskCard.DateLineEndsWithMinutes` | frontend/app/components/ui/taskCard.tsx:143-151 | the date line ends with `:` and the two-digit minutes |
| `TaskCard.ChecklistBar` | frontend/app/components/ui/taskCard.tsx:160-172 | exactly 10 segments; segment i is filled iff i < count (null read as 0) and grey otherwise. Only segment 0 is rounded left and only segment 9 rounded right |
| `TaskCard.ChecklistFilledCount` | frontend/app/components/ui/taskCard.tsx:160-165 | the number of filled segments is the count clamped to [0, 10], and 0 for a null count |
| `TaskCard.Render` | frontend/app/components/ui/taskCard.tsx:47-178 | one stripe per label and one badge per member; the checklist shows the `checklist` property clamped to [0, 10] |

## Left out

- JSX markup, styling beyond the segment classes, `next/image`, `next/link`,
  and react-dnd's `DndProvider` and `HTML5Backend`. These are presentation and
  library glue.
- Local storage and JSON (page.tsx:53-56, 118-120). The constructor receives
  the snapshot already decoded, as `Option<Board>`. So an empty stored string
  (falsy, so the seed is used) is not distinguished from an absent one, and a
  malformed one (which makes `JSON.parse` throw) is not modelled. Saving after
  every change is not modelled.
- The window resize listener's registration and cleanup, and the initial
  `handleResize()` call on mount (page.tsx:104-115). Only the width rule is
  kept.
- `mockTasks`, `TaskContainer`, `TaskManagementSidebar` and
  `DropTaskContainer`, with its `TaskList` type, are not part of this model.
  `Task` carries the properties the card shows.
- `console.log`, `alert`, `router.push("/login")` and the Google sign-up stub
  (SignUpForm.tsx:113-115). The `submitted`/`updated` results of the two submit
  handlers stand for the "submission happened" path those calls mark.
- The unreachable `catch` branch of `handleSignUp`.
- The browser's own form validation (`required`, `type="email"`), which can
  stop a submit before the handlers run.
- `Date` methods and `toLocaleString` (taskCard.tsx:143-151). Day, month name,
  year, hours and minutes are inputs.
- TaskCard.ToUpper: models `toUpperCase` for ASCII only. Non-ASCII case
  mapping, which can change a string's length (`ß` becomes `SS`), is not
  modelled, and `TaskCard.InitialsOfLength` relies on this.
- TaskCard.Split: characters are Unicode scalar values, not UTF-16 code units,
  so `charAt(0)` on a name starting with an astral-plane character differs.
- Number-valued state (`checklist`, `projectProgressBar`, minutes, years) is
  modelled as integers. Fractional values, `NaN` and the floating-point
  comparison `index < 2.5` are not modelled.

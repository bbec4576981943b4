# Task board components: detail sheet, card and top bar

A model of the logic inside three React components of a team task manager:

- the **task detail sheet** (`client/components/task/task-detail-sheet.tsx`): a
  viewing/editing flag, a five-field form draft with its defaults, Save and Cancel, and
  the subtask checklist toggle; only Save and the toggle write through the `updateTask`
  mutation;
- the **task card** (`client/components/task/task-card.tsx`): the assignee's initials
  capped at two characters, the due-date formatter's empty case and the priority colour
  table;
- the **top bar** (`client/components/layout/topbar.tsx`): the signed-in user's
  uncapped initials and the early return when no user is signed in.

Modules: `Options` (optional values), `JsStrings` (the JavaScript string built-ins the
initials use: `split`, `join`, ASCII `toUpperCase`, `slice`), `Entities` (the task record;
subtasks are objects because the sheet assigns to one in place), `NameInitials` (words of a
name and their first characters, with an independent reference definition `WordStarts`),
`TaskCard`, `TopBar`, `InitialsAgreement` (card versus top bar) and `TaskDetail` (the sheet
as a class, the mutation as a class that records every call it receives).

The remote `updateTask.mutateAsync({ id, data })` is modelled by
`UpdateTaskMutation.MutateAsync`: it appends the `(id, data)` pair to `calls` and returns
the store's answer, which is a parameter (`outcome`). Each handler runs to completion.

Behaviour as coded, which differs from a fully optimistic editor:

- Save leaves editing mode only after the update succeeds; on failure it stays in editing
  mode and the error is only logged.
- Cancel only clears the flag; the draft keeps whatever was typed.
- Edit only sets the flag; it does not refresh the draft from the task.
- The toggle sends the entire subtask list, not the one changed entry.

## Model

| member | source | states |
|---|---|---|
| `JsStrings.Split` | client/components/task/task-card.tsx:47 | `split(" ")` yields one more piece than there are separators, and no piece contains the separator |
| `JsStrings.JoinSplit` | client/components/task/task-card.tsx:47 | joining the pieces of a split with the separator gives back the original string |
| `JsStrings.SplitJoin` | client/components/task/task-card.tsx:47 | splitting the join of separator-free pieces gives back exactly those pieces |
| `JsStrings.UpperChar` | client/components/task/task-card.tsx:50 | a lower-case ASCII letter becomes the matching capital, every other character is kept, and the result is never lower-case |
| `JsStrings.ToUpperCase` | client/components/task/task-card.tsx:50 | upper-casing keeps the length, works character by character and leaves no lower-case letter |
| `JsStrings.Slice` | client/components/task/task-card.tsx:51 | `slice(0, n)` is a prefix of length `min(n, length)` |
| `JsStrings.SliceToUpperCase` | client/components/task/task-card.tsx:50-51 | upper-casing then slicing equals slicing then upper-casing (used to relate the card's initials to the top bar's) |
| `NameInitials.FirstLetters` | client/components/task/task-card.tsx:48-49 | `map(n => n[0]).join("")` has at most one character per piece |
| `NameInitials.WordStarts` | client/components/task/task-card.tsx:46-49 | the reference initials are characters of the name and never a space |
| `NameInitials.FirstLettersPerWord` | client/components/task/task-card.tsx:48-49 | exactly one character per non-empty word, the word's first, in word order |
| `NameInitials.FirstLettersOfSplit` | client/components/task/task-card.tsx:46-49 | the first letters of the pieces of `split(" ")` are exactly the characters that start a run of non-spaces |
| `NameInitials.SingleWord` | client/components/task/task-card.tsx:46-49 | a non-empty name without a space is one word and yields its first character |
| `NameInitials.EmptyName` | client/components/task/task-card.tsx:46-49 | the empty name has no words and no first letters |
| `TaskCard.PriorityColor` | client/components/task/task-card.tsx:14-19 | looking up a priority always yields one of the table's classes |
| `TaskCard.PriorityColorsTotal` | client/components/task/task-card.tsx:14-19 | the table has a key for every priority and no key that is not a priority |
| `TaskCard.PriorityColorsDistinct` | client/components/task/task-card.tsx:14-19 | different priorities get different colours |
| `TaskCard.FormatDate` | client/components/task/task-card.tsx:37-43 | the result is `null` exactly when the date is absent or empty; otherwise it is the locale rendering of the date |
| `TaskCard.GetInitials` | client/components/task/task-card.tsx:45-52 | at most two characters, none lower-case, equal to the first two upper-cased word starts of the name |
| `TaskCard.GetInitialsOfWords` | client/components/task/task-card.tsx:45-52 | length is `min(2, number of words)` and character `k` is the upper-cased first character of word `k` |
| `TaskCard.GetInitialsEdgeCases` | client/components/task/task-card.tsx:45-52 | an empty name gives `""`; a single word gives exactly its upper-cased first character |
| `TopBar.Initials` | client/components/layout/topbar.tsx:21-25 | the initials are the upper-cased word starts of the name, none lower-case |
| `TopBar.InitialsPerWord` | client/components/layout/topbar.tsx:21-25 | exactly one initial per non-empty word, in word order, with no length cap |
| `TopBar.InitialsOfEmptyName` | client/components/layout/topbar.tsx:21-25 | an empty name gives empty initials |
| `TopBar.Render` | client/components/layout/topbar.tsx:17-25 | nothing is rendered exactly when there is no user; otherwise the user's name, e-mail and the avatar initials `Initials(name)`, one per word |
| `InitialsAgreement.CardInitialsArePrefix` | client/components/layout/topbar.tsx:21-25 | the card's initials are the first two of the top bar's; for names of at most two words they are equal |
| `TaskDetail.StatusLabel` | client/components/task/task-detail-sheet.tsx:87-91 | looking up a status always yields one of the table's labels |
| `TaskDetail.StatusLabelsTotal` | client/components/task/task-detail-sheet.tsx:87-91 | the table has a key for every status and no other key, and no two statuses share a label |
| `TaskDetail.PriorityColorsMatchCard` | client/components/task/task-detail-sheet.tsx:80-85 | the sheet's priority table equals the card's, so both show a priority in the same colour |
| `TaskDetail.DraftDefaults` | client/components/task/task-detail-sheet.tsx:41-48 | without a task the draft is `"", "", todo, medium, ""`; with one, each field is the task's and a missing description or due date becomes `""` |
| `TaskDetail.Flip` | client/components/task/task-detail-sheet.tsx:66-68 | same length and titles; only the flag at `index` is inverted |
| `TaskDetail.FlipTwice` | client/components/task/task-detail-sheet.tsx:66-68 | toggling the same index twice restores the list |
| `TaskDetail.UpdateTaskMutation.MutateAsync` | client/components/task/task-detail-sheet.tsx:56-59 | each call is recorded once, in order, and the store's answer is returned |
| `TaskDetail.TaskDetailSheet.constructor` | client/components/task/task-detail-sheet.tsx:38-48 | the sheet starts in viewing mode with the draft defaults of its task and no update issued |
| `TaskDetail.TaskDetailSheet.Edit` | client/components/task/task-detail-sheet.tsx:127-128 | Edit enters editing mode and changes nothing else: no update, draft kept |
| `TaskDetail.TaskDetailSheet.Cancel` | client/components/task/task-detail-sheet.tsx:118-119 | Cancel returns to viewing and changes nothing else: no update, draft not reset |
| `TaskDetail.TaskDetailSheet.ChangeDraft` | client/components/task/task-detail-sheet.tsx:99-227 | typing in editing mode replaces the draft and nothing else |
| `TaskDetail.TaskDetailSheet.Save` | client/components/task/task-detail-sheet.tsx:53-64 | exactly one update for the task's id carrying all five draft fields; viewing mode afterwards only if it succeeded, and a failure changes nothing else |
| `TaskDetail.TaskDetailSheet.ToggleSubtask` | client/components/task/task-detail-sheet.tsx:66-78 | exactly one update for the task's id whose patch is the entire flipped list; the task's own subtask at `index` is flipped in place, whatever the outcome |
| `TaskDetail.TaskDetailSheet.ToggleSubtaskCopying` | client/components/task/task-detail-sheet.tsx:66-78 | the same single update with the entire flipped list, while the task's own subtasks are left unchanged |
| `TaskDetail.FailedToggleAsWritten` | client/components/task/task-detail-sheet.tsx:66-78 | a failed toggle of an open subtask still leaves the task showing it completed |
| `TaskDetail.FailedToggleCopying` | client/components/task/task-detail-sheet.tsx:66-78 | with the copying toggle, the same failed update leaves the subtask open |

## Left out

- Rendering: JSX, CSS classes and the UI widgets (Sheet, Select, Badge, Avatar, Card, Checkbox) are presentation only.
- The board columns, drag-and-drop and any optimistic update, coalescing or rollback live in `lib/hooks/useTasks` and in dnd-kit; `lib/hooks/useTasks` is not part of this model, and `useUpdateTask` is reduced to a recorded call with a given outcome.
- `TaskDetail.TaskDetailSheet.constructor`: react-hook-form reads `defaultValues` once, on the first render; a later change of the `task` prop refreshes neither the draft nor the `isEditing` flag, and this model does not follow a sheet across such a change.
- The sheet's early return when `task` is null (line 51): its handlers exist only with a task, so the class is built from a task; the null case appears only in `DraftDefaults(None)`.
- The form library's `register`, `getValues` and `setValue` are reduced to replacing a plain five-field draft (`ChangeDraft`).
- `TaskDetail.TaskDetailSheet.ToggleSubtask`: requires the task's subtask objects to be distinct (only the toggle needs it; any sheet can be built), as they are when the list comes from a parsed response; with a shared object one toggle would flip several entries.
- Error logging with `console.error` is output only; failures are otherwise swallowed, which the model keeps.
- `TaskCard.FormatDate`: the locale is fixed to "en-US" (short month, numeric day), but `new Date(date)` and `toLocaleDateString` depend on the time zone and the engine's formatting (a date-only string is read as UTC midnight, so west of UTC it can show the previous day); that rendering is the parameter `localeDate`, and only the null case is modelled exactly.
- `JsStrings.ToUpperCase`: only ASCII letters are upper-cased; full Unicode case mapping (which can change the length, as "ß" to "SS") is not modelled.
- `NameInitials.FirstLetters`: `n[0]` picks a UTF-16 code unit in JavaScript and a whole character here; names outside the Basic Multilingual Plane are not modelled.
- The dnd-kit sortable hook, drag transform and the dragging opacity are library code and floating point.
- The top bar's `handleLogout` (logout and navigation) is a side effect and is left out.
- `client/components/project/project-card.tsx` holds only navigation, locale date formatting and a badge choice.
- Interleaving of asynchronous handlers: each handler is modelled as running to completion.

## Findings

| source | as written | input that shows it | evidently intended | confidence | as-written member | corrected member |
|---|---|---|---|---|---|---|
| client/components/task/task-detail-sheet.tsx:67-68 | `[...task.subtasks]` copies only the array, so line 68 assigns `isCompleted` on the subtask object that the task itself holds, before the update is sent | task "T1" with one open subtask "A"; toggle index 0; the update fails: the task now shows "A" completed although the store rejected the change | only the copy sent in the update is flipped; the task's own subtasks change when the store answers | medium, not executed | `TaskDetail.TaskDetailSheet.ToggleSubtask`, exhibited by `TaskDetail.FailedToggleAsWritten` | `TaskDetail.TaskDetailSheet.ToggleSubtaskCopying`, exhibited by `TaskDetail.FailedToggleCopying` |

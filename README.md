# ProblemShare client core in Dafny

ProblemShare is a web application where people post problems they want solved.
Each problem has a title, a description, optional requirements, tags and contact
details. This project models the client-side core of the application:

- the Redux store for problems: its state, its reducers, and the decision logic of its
  six async thunks (fetch all, fetch the user's, fetch one, create, update, delete);
- the authentication store and the UI store, with their reducers;
- the problem list view: the search and tag filter, the tag chips, and chip toggling;
- the create/edit form: the tag editor, the contact-info record it builds, and what
  submitting dispatches;
- the card's "Contact available" test;
- the dashboard's problem count and its five most recent problems.

Code that mutates state is modelled imperatively. Each store is a `class` whose fields
are the slice's state. Each reducer case is a method with a `modifies` clause, and its
postcondition gives the whole new state as a function of the old one. The thunks'
decision logic is pure, so it is modelled as functions. Every backend call becomes an
input:

- `Reply<T>` is the call's `{ data }`, its `{ error }` (code and message), or a thrown
  exception.
- `Outcome<T, E>` is how a thunk settles: fulfilled or rejected.
- A "whole dispatch" method runs `pending` and then the `fulfilled` or `rejected` case
  the thunk picks.

The view and form logic that only computes values is modelled as functions and lemmas.
`allTags` keeps its loops, as a method proved against a specification function.

Modules, one per core file plus three shared ones:

| file | module | models |
|---|---|---|
| `seqs.dfy` | `Seqs` | `Array.prototype.filter` and element removal |
| `text.dfy` | `Text` | `trim`, `toLowerCase`, `includes` |
| `domain.dfy` | `Domain` | problem row, contact info, user, backend reply, thunk outcome |
| `problems_slice.dfy` | `ProblemsSlice` | `lib/redux/slices/problemsSlice.ts` |
| `auth_slice.dfy` | `AuthSlice` | `lib/redux/slices/authSlice.ts` |
| `ui_slice.dfy` | `UiSlice` | `lib/redux/slices/uiSlice.ts` |
| `problem_list.dfy` | `ProblemList` | `components/problems/problem-list.tsx` |
| `problem_form.dfy` | `ProblemForm` | `components/problems/problem-form.tsx` |
| `problem_card.dfy` | `ProblemCard` | `components/problems/problem-card.tsx` |
| `manage_problems.dfy` | `ManageProblems` | `app/manage-problems/page.tsx` |

Points where the code behaves in a way one might not expect; the model follows the code:

- `updateProblem.fulfilled` always makes the updated record the current one. It does
  not first check whether the current record has the same id.
- No id is treated as reserved: no thunk refuses an id such as "new" before calling
  the backend.
- `fetchUserProblems` does not refuse an empty user id. The query is sent and the
  backend's answer is taken as it is.
- Toggling a selected tag twice does not give back the same sequence. The tag is
  removed and then pushed again, so it moves to the end. The set of selected tags is
  the same, and so is the filtered list (`ProblemList.ToggleTwice`).
- Because the form always writes `preferred_method`, any problem saved through the form
  shows "Contact available". This holds even when no contact channel was filled in
  (`ProblemForm.FormContactAlwaysShown`).
- `ProblemList` never reads its `initialProblems` prop. It shows the store's
  `userProblems` or `allProblems`. So the "Recently Added" tab of the manage page, which
  passes the five newest problems, shows all of the user's problems, like the "All"
  tab. The five newest are computed (`ManageProblems.RecentProblemsSpec`) but never
  reach the screen.

## Model

| member | source | states |
|---|---|---|
| `Text.Trim` | components/problems/problem-form.tsx:49 | the result is the input with its leading and trailing whitespace cut off (a slice of it with only whitespace before and after); it is empty exactly when the input is all whitespace, and otherwise neither starts nor ends with whitespace (the ECMAScript whitespace and line-terminator set) |
| `Text.TrimIdempotent` | components/problems/problem-form.tsx:49-50 | trimming an already trimmed tag changes nothing |
| `Text.ToLower` | components/problems/problem-list.tsx:65-68 | same length; each character lower-cased independently |
| `Text.IncludesAt` | components/problems/problem-list.tsx:67-68 | `includes` holds exactly when the term is the slice of the text at some position |
| `ProblemsSlice.ReplaceById` | lib/redux/slices/problemsSlice.ts:315-316 | same length; every record with the updated id is replaced, every other record kept in place |
| `ProblemsSlice.ReplaceByIdKeepsIds` | lib/redux/slices/problemsSlice.ts:315-316 | an update changes no id and no position, so unique ids stay unique |
| `ProblemsSlice.ReplaceByIdInstalls` | lib/redux/slices/problemsSlice.ts:313-317 | afterwards every record with the id is the updated one, and it is in the list exactly when its id was |
| `ProblemsSlice.IdsAfterRemove` | lib/redux/slices/problemsSlice.ts:332-333 | the ids after a delete are the old ids with the deleted one filtered out |
| `ProblemsSlice.RemoveByIdPurges` | lib/redux/slices/problemsSlice.ts:330-338 | no record keeps the deleted id; every other record stays, in its old order; unique ids stay unique |
| `ProblemsSlice.PrependFreshKeepsUnique` | lib/redux/slices/problemsSlice.ts:296-298 | prepending a record with a new id keeps ids unique |
| `ProblemsSlice.WithTagNoDuplicates` | lib/redux/slices/problemsSlice.ts:232-236 | adding a selected tag never creates a duplicate; the selection becomes the old one plus the tag |
| `ProblemsSlice.AddThenRemoveTag` | lib/redux/slices/problemsSlice.ts:232-239 | adding an absent tag and removing it restores the selection exactly |
| `ProblemsSlice.TableMissingEveryThunk` | lib/redux/slices/problemsSlice.ts:36-38 | a backend error with code 42P01 rejects every thunk with the same fixed setup message (also 63-65, 85-87, 141-143, 182-184, 208-210) |
| `ProblemsSlice.OtherErrorsPassThrough` | lib/redux/slices/problemsSlice.ts:35-41 | any other backend error rejects with its own message; create prefixes "Failed to create problem: " (also 140-146) |
| `ProblemsSlice.CreateChecksInOrder` | lib/redux/slices/problemsSlice.ts:117-154 | create rejects on a failed session lookup, then on a missing user, then on an owner mismatch, in that order; it inserts exactly when all three pass, and it inserts the normalised draft; it fulfils only with the returned row |
| `ProblemsSlice.CreateRejectsBeforeInsert` | lib/redux/slices/problemsSlice.ts:119-135 | a run stopped by a check rejects, whatever the insert would have replied |
| `ProblemsSlice.NormaliseDraftDefaults` | lib/redux/slices/problemsSlice.ts:108-115 | empty requirements become null, absent tags `[]`, absent contact `{}`; other columns kept; normalising twice changes nothing |
| `ProblemsSlice.UpdateFieldsAgreeWithInsert` | lib/redux/slices/problemsSlice.ts:170-177 | the update applies the insert's defaults, carries no owner column, and is stamped with the current time |
| `ProblemsSlice.ProblemsStore.constructor` | lib/redux/slices/problemsSlice.ts:17-25 | the initial state; ids trivially unique |
| `ProblemsSlice.ProblemsStore.SetSearchTerm` | lib/redux/slices/problemsSlice.ts:226-228 | only the search term changes |
| `ProblemsSlice.ProblemsStore.SetSelectedTags` | lib/redux/slices/problemsSlice.ts:229-231 | only the selection changes |
| `ProblemsSlice.ProblemsStore.AddSelectedTag` | lib/redux/slices/problemsSlice.ts:232-236 | the tag is pushed unless already selected; a duplicate-free selection stays duplicate-free |
| `ProblemsSlice.ProblemsStore.RemoveSelectedTag` | lib/redux/slices/problemsSlice.ts:237-239 | every occurrence of the tag is removed; nothing else changes |
| `ProblemsSlice.ProblemsStore.ClearFilters` | lib/redux/slices/problemsSlice.ts:240-243 | search term and selection emptied |
| `ProblemsSlice.ProblemsStore.ClearError` | lib/redux/slices/problemsSlice.ts:244-246 | only the error is cleared |
| `ProblemsSlice.ProblemsStore.Pending` | lib/redux/slices/problemsSlice.ts:250-253 | loading set, error cleared (the same for all six thunks) |
| `ProblemsSlice.ProblemsStore.Rejected` | lib/redux/slices/problemsSlice.ts:258-261 | loading cleared; the error is the payload or the operation's fallback, and never empty (all six thunks) |
| `ProblemsSlice.ProblemsStore.FetchAllFulfilled` | lib/redux/slices/problemsSlice.ts:254-257 | the list of all problems is replaced |
| `ProblemsSlice.ProblemsStore.FetchUserFulfilled` | lib/redux/slices/problemsSlice.ts:268-271 | the user's list is replaced |
| `ProblemsSlice.ProblemsStore.FetchByIdFulfilled` | lib/redux/slices/problemsSlice.ts:282-285 | the current record is replaced (possibly by null) |
| `ProblemsSlice.ProblemsStore.CreateFulfilled` | lib/redux/slices/problemsSlice.ts:296-301 | the new record goes in front of both lists; unique ids stay unique when its id is new |
| `ProblemsSlice.ProblemsStore.UpdateFulfilled` | lib/redux/slices/problemsSlice.ts:313-319 | both lists replace the id, the record becomes current; unique ids stay unique |
| `ProblemsSlice.ProblemsStore.DeleteFulfilled` | lib/redux/slices/problemsSlice.ts:330-338 | the id leaves both lists; the current record is cleared only if it had that id; unique ids stay unique |
| `ProblemsSlice.ProblemsStore.FetchAllProblems` | lib/redux/slices/problemsSlice.ts:28-48 | a whole dispatch: null data gives `[]`, a failure keeps the old list and sets the error |
| `ProblemsSlice.ProblemsStore.FetchUserProblems` | lib/redux/slices/problemsSlice.ts:50-76 | the same for the user's list |
| `ProblemsSlice.ProblemsStore.FetchProblemById` | lib/redux/slices/problemsSlice.ts:78-97 | the returned row becomes current, or the error is set |
| `ProblemsSlice.ProblemsStore.CreateProblem` | lib/redux/slices/problemsSlice.ts:100-160 | the run is the create thunk's; on success the row is prepended to both lists, otherwise only loading and error change |
| `ProblemsSlice.ProblemsStore.UpdateProblem` | lib/redux/slices/problemsSlice.ts:163-199 | sends the normalised columns; on success replaces the id in both lists and sets the current record; on null data rejects with "Failed to update problem" |
| `ProblemsSlice.ProblemsStore.DeleteProblem` | lib/redux/slices/problemsSlice.ts:201-220 | on success the id leaves both lists and possibly the current record; otherwise only loading and error change |
| `AuthSlice.ThunkOutcomes` | lib/redux/slices/authSlice.ts:18-93 | restoring the session fulfils exactly on data and rejects otherwise with no payload; the credential thunks fulfil exactly on data, pass the backend's message through, and never reject with an empty payload for an exception |
| `AuthSlice.AuthStore.constructor` | lib/redux/slices/authSlice.ts:11-15 | nobody signed in, not loading, no error |
| `AuthSlice.AuthStore.SetUser` | lib/redux/slices/authSlice.ts:99-102 | the user is replaced and loading cleared |
| `AuthSlice.AuthStore.ClearError` | lib/redux/slices/authSlice.ts:103-105 | only the error is cleared |
| `AuthSlice.AuthStore.StartLoading` | lib/redux/slices/authSlice.ts:106-108 | only loading is set |
| `AuthSlice.AuthStore.StopLoading` | lib/redux/slices/authSlice.ts:109-111 | only loading is cleared |
| `AuthSlice.AuthStore.Pending` | lib/redux/slices/authSlice.ts:115-118 | loading set, error cleared (all four thunks) |
| `AuthSlice.AuthStore.UserFulfilled` | lib/redux/slices/authSlice.ts:119-122 | the returned user replaces the signed-in one (also 135-138, 149-152) |
| `AuthSlice.AuthStore.FetchUserRejected` | lib/redux/slices/authSlice.ts:123-128 | a missing session signs out without an error |
| `AuthSlice.AuthStore.SignOutFulfilled` | lib/redux/slices/authSlice.ts:163-166 | nobody is signed in |
| `AuthSlice.AuthStore.CredentialRejected` | lib/redux/slices/authSlice.ts:139-142 | the payload becomes the error; the user is kept (also 153-156, 167-170) |
| `AuthSlice.AuthStore.FetchUser` | lib/redux/slices/authSlice.ts:18-33 | a whole dispatch ends holding the backend's user or nobody, never an error |
| `AuthSlice.AuthStore.SignInOrUp` | lib/redux/slices/authSlice.ts:35-78 | success installs the returned user; failure shows the error and keeps the previous user |
| `AuthSlice.AuthStore.SignOutUser` | lib/redux/slices/authSlice.ts:80-93 | success leaves nobody signed in; failure keeps the user and shows the error |
| `UiSlice.WithoutNotificationSpec` | lib/redux/slices/uiSlice.ts:49-51 | removal drops every notification with the id and keeps the rest in order; removing the id of one just added (and new) restores the queue |
| `UiSlice.UiStore.constructor` | lib/redux/slices/uiSlice.ts:14-25 | drawer closed, dark mode from the system preference (off where there is none), no notifications |
| `UiSlice.UiStore.ToggleNav` | lib/redux/slices/uiSlice.ts:31-33 | the drawer flag is negated, so two toggles restore it |
| `UiSlice.UiStore.SetNavOpen` | lib/redux/slices/uiSlice.ts:34-36 | only the drawer flag is set |
| `UiSlice.UiStore.ToggleDarkMode` | lib/redux/slices/uiSlice.ts:37-39 | the dark-mode flag is negated |
| `UiSlice.UiStore.SetDarkMode` | lib/redux/slices/uiSlice.ts:40-42 | only the dark-mode flag is set |
| `UiSlice.UiStore.AddNotification` | lib/redux/slices/uiSlice.ts:43-48 | the notification is appended at the end; a payload id overrides the clock's |
| `UiSlice.UiStore.RemoveNotification` | lib/redux/slices/uiSlice.ts:49-51 | exactly the notifications with other ids remain |
| `UiSlice.UiStore.ClearNotifications` | lib/redux/slices/uiSlice.ts:52-54 | the queue is emptied |
| `ProblemList.PassesMeans` | components/problems/problem-list.tsx:62-80 | the search and tag criteria are AND-ed; a problem with null tags fails any tag criterion |
| `ProblemList.FilteredProblemsAre` | components/problems/problem-list.tsx:40-80 | the shown list holds exactly the passing problems of the base list, in its order |
| `ProblemList.DeleteLeavesView` | components/problems/problem-list.tsx:40-80 | after `deleteProblem.fulfilled`, on either base list (the user's problems or all of them) and under any criteria, the view shows what it showed before less the records with the deleted id |
| `ProblemList.NoCriteriaShowsAll` | components/problems/problem-list.tsx:62-80 | with no term and no tag every problem is shown |
| `ProblemList.FilterIgnoresTagOrder` | components/problems/problem-list.tsx:75-77 | the result depends only on which tags are selected |
| `ProblemList.SearchAndTagScenario` | components/problems/problem-list.tsx:62-80 | "auth" with tag backend keeps "Auth bug" tagged backend and drops it tagged frontend |
| `ProblemList.TagOccurrencesAre` | components/problems/problem-list.tsx:55-57 | the collected tags are exactly those of some problem |
| `ProblemList.FirstOccurrences` | components/problems/problem-list.tsx:54-58 | each value once, the same values as the input |
| `ProblemList.FirstOccurrencesOrdered` | components/problems/problem-list.tsx:54-58 | the values come out in the order of their first occurrences in the input |
| `ProblemList.AllTags` | components/problems/problem-list.tsx:53-59 | the loops compute the distinct tags, each once, ordered by where each first occurs among the problems' tags; exactly the tags some problem carries |
| `ProblemList.ToggleTag` | components/problems/problem-list.tsx:82-88 | the chip is removed if selected and added otherwise; only the selection changes |
| `ProblemList.ToggleTwice` | components/problems/problem-list.tsx:82-88 | two clicks on an unselected chip restore the selection exactly; on a selected one the same tags come back; the filtered list is unchanged either way |
| `ProblemForm.InitialPreferredMethod` | components/problems/problem-form.tsx:27-41 | the preferred method starts as the stored non-empty one or "email", never empty; a new form starts blank |
| `ProblemForm.AddTagSpec` | components/problems/problem-form.tsx:48-53 | the trimmed input is appended and the input cleared exactly when it is non-blank and new; otherwise nothing changes; no duplicates are created |
| `ProblemForm.RemoveTagSpec` | components/problems/problem-form.tsx:55-57 | removes every occurrence and keeps the rest in order; removing a just-added tag restores the list |
| `ProblemForm.BuildContactInfo` | components/problems/problem-form.tsx:78-86 | the preferred method is always written; each other key is present exactly when its input is non-empty |
| `ProblemForm.EditKeepsContact` | components/problems/problem-form.tsx:36-41 | opening a problem and saving it unchanged writes back the same contact record (also 78-86), provided the record has a non-empty `preferred_method` and no empty-string channel; a problem with no contact record, or none with a `preferred_method`, is written back with `preferred_method` "email" (`ProblemForm.EditDefaultsPreferredMethod`) |
| `ProblemForm.EditDefaultsPreferredMethod` | components/problems/problem-form.tsx:41 | with no contact record, or one whose `preferred_method` is missing or empty, saving the opened problem unchanged writes `preferred_method` "email" |
| `ProblemForm.FormContactAlwaysShown` | components/problems/problem-card.tsx:21-22 | every record the form builds passes the card's contact test (also problem-form.tsx:78-80) |
| `ProblemForm.SubmitRequestSpec` | components/problems/problem-form.tsx:89-130 | an edit updates the edited id with no owner; a create is owned by the signed-in user, so the create thunk reaches its insert for that session |
| `ProblemForm.ProblemFormView.constructor` | components/problems/problem-form.tsx:27-41 | the initial form values |
| `ProblemForm.ProblemFormView.HandleAddTag` | components/problems/problem-form.tsx:48-53 | tags and input follow the add-tag rule; nothing else changes |
| `ProblemForm.ProblemFormView.HandleRemoveTag` | components/problems/problem-form.tsx:55-57 | only the tags change |
| `ProblemForm.ProblemFormView.HandleSubmit` | components/problems/problem-form.tsx:66-145 | no user: only the error is set and nothing is dispatched; otherwise the request is dispatched; success navigates, failure shows the payload (create) or the error message (update) with a fallback; submitting ends cleared |
| `ProblemCard.HasContactInfoMeans` | components/problems/problem-card.tsx:21-22 | the test holds exactly when some key, preferred method included, holds a non-empty string; null, `{}` and all-empty records fail |
| `ProblemCard.AddingFieldKeepsContact` | components/problems/problem-card.tsx:21-22 | a non-empty value under any key makes the test hold |
| `ManageProblems.SortNewestFirst` | app/manage-problems/page.tsx:51 | the result is a permutation of the input with creation instants never increasing |
| `ManageProblems.RecentProblemsSpec` | app/manage-problems/page.tsx:49-52 | min(5, total) problems, newest first, drawn from the user's problems, none left out newer than one kept; all of them when there are at most five |

## Left out

- The network, the hosted backend and the browser are not modelled. Every backend
  reply is an input (`Reply`). The `user_id` and `id` query filters run in the backend,
  and so does per-owner access control.
- `createProblem` builds its backend client outside its `try`. A failure there is not
  modelled.
- The debounce of the search term is not modelled. The filter takes the term after the
  delay as an input.
- `Text.ToLower`: `toLowerCase` is modelled for ASCII letters only. Other scripts'
  case mappings are not modelled.
- `ProblemForm.ProblemFormView.HandleSubmit`: on an update failure the form shows the
  message of the serialized error the Redux Toolkit attaches to the rejected action.
  That message is taken as an input (`Settled.errorMessage`), because the library is
  not part of this model.
- `ProblemForm.ProblemFormView.HandleSubmit`: the `catch` branch is not modelled,
  because a dispatched thunk settles rather than throws. Routing is reduced to a
  `navigate` flag.
- `handleKeyDown` only calls the add-tag handler on Enter. Its keyboard event is not
  modelled.
- Rendering, icons, the loading skeletons, `isLoading` selectors and the confirmation
  dialogs are not modelled.
- `UiSlice.UiStore.AddNotification`: `Date.now().toString()` is taken as an input
  (`stamp`). The clock is not modelled.
- `UiSlice.UiStore.constructor`: the `prefers-color-scheme` query is taken as an input.
  It is `None` where there is no window.
- `ManageProblems.SortNewestFirst`: the sort keeps problems with equal creation times in
  their input order, as the engine's stable sort does. This stability is not stated in
  a contract.
- Concurrency between overlapping dispatches is not modelled. Each whole-dispatch
  method runs one thunk from `pending` to settlement.
- Timestamps are integers (instants). Date parsing is not modelled.

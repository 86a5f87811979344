# Serapeu front end — a Dafny model

Serapeu is a community site for step-by-step tutorials. Readers browse approved tutorials, save
them, ask for new tutorials on a request board and vote on those requests, and report problems with
a tutorial's steps. Authors submit tutorials, which need moderation unless the author is an
administrator. Administrators work in a panel where every action is written to an audit log.

This project models the client side of that behaviour:

- the shared entities and seeded constants (`Types`);
- the client store every page reads and writes, with its optimistic bookmark toggle and rollback,
  its audit log, the moderation transforms and the mapping of fetched rows (`AuthContext`);
- the moderation panel: its admin gate, ten handlers, dashboard counters and tab filters (`AdminPage`);
- the request board: vote toggling, the popularity listing and request creation (`RequestsPage`);
- device-local bookmark folders kept in browser storage (`SavedFolders`);
- the sign-up form's strength score and ordered checks (`RegisterPage`);
- the tutorial editor's step list and the insert it sends (`CreateTutorialPage`);
- the public listing and category toggle (`HomePage`);
- the saved-tutorials page (`SavedPage`);
- the tutorial page's bookmark marker, problem list and report form (`TutorialTemplate`).

Three helper modules stand for JavaScript library behaviour:

- `Wrappers` holds `Option`.
- `Seqs` holds `Array.prototype.filter`/`find` and the subsequence facts about them.
- `Text` holds `trim`, ASCII/Latin-1 `toLowerCase`, `includes`, `substring(0, 50) + "..."`, `split('@')[0]` and `x || fallback`.
- JavaScript measures strings in UTF-16 code units. `Text.Utf16Length` gives that measure, and the password's minimum length and the log snippet's cut use it.

Where the source mutates state, the model does too:

- The store, the storage, and the four forms (sign-up, editor, problem report and new request) are classes.
- Each of their methods states its whole new state, either against a pure function of the old state or with `State() == old(State()).(field := ...)`.
- The filters and derivations the pages compute with `filter`/`map` are pure functions.

Remote calls are not modelled; their outcomes are parameters instead:

- Supabase queries, inserts and auth calls: the outcome is a boolean such as `writeSucceeds` or `insertSucceeds`, or the fetched rows as an `Option`. So every possible remote answer is covered.
- Clocks and id generation: the audit log's id and time are parameters (`logId`, `now`).
- The admin handlers require `IsAdmin` of the store's user, because the page only renders them behind its gate. `AdminPage.Dispatch` models the gate itself: without an administrator the page shows the restricted view and nothing changes.

Behaviour worth noting in the code:

- An admin handler logs only when its target is found. Comment deletion is the exception and always logs.
- Comment and problem log names always get "..." appended, even to a text shorter than 50 characters.
- The handlers change only the client store and issue no remote write.

## Model

| member | source | states |
|---|---|---|
| Types.RoleHasTwoValues | lib/types.ts:1 | a role is `USER` or `ADMIN`, nothing else |
| Types.CategoriesAreFour | lib/types.ts:72 | the closed category list has four distinct entries |
| Types.SeededCommentsBelong | lib/types.ts:74-136 | every seeded comment's `tutorialId` is the id of the tutorial listing it |
| Types.SeededCategoriesListed | lib/types.ts:74-163 | every seeded tutorial and request uses a category from the closed list |
| Text.SkipWhitespace | app/perguntas/page.tsx:38 | the leading scan of `trim`: every skipped character is whitespace and the scan stops at a non-whitespace character or the end |
| Text.BackOverWhitespace | components/tutorial-template.tsx:157 | the trailing scan of `trim`: every character passed over is whitespace and the scan stops after a non-whitespace character or at its lower bound |
| Text.Trim | app/perguntas/page.tsx:38-46 | result is a slice of the input with only whitespace around it, starting and ending with non-whitespace |
| Text.BlankIffAllWhitespace | app/criar/page.tsx:38 | `!s.trim()` holds exactly when every character is whitespace |
| Text.ToLower | app/page.tsx:20-21 | same length, character-wise lowering; no ASCII capital survives |
| Text.Contains | app/page.tsx:20-21 | `includes` is true exactly when the needle occurs at some index |
| Text.ContainsEmpty | app/page.tsx:12 | the empty string is included in every string |
| Text.EmptyQueryMatches | app/page.tsx:12 | an empty search term matches every text case-insensitively |
| Text.Utf16Length | app/registrar/page.tsx:25 | `length` in UTF-16 code units: between the character count and twice it, and equal to the character count exactly when no character lies outside the Basic Multilingual Plane |
| Text.Utf16Prefix | app/admin/page.tsx:138 | the longest prefix fitting in the unit budget: it fits, the next character would not, and a text that fits is kept whole |
| Text.Utf16LengthAppend | app/admin/page.tsx:138 | code units add up over concatenation |
| Text.Snippet | app/admin/page.tsx:138 | a prefix of the text followed by "...", at most 53 code units in all; the whole text plus "..." when it fits in 50 units, otherwise at least 52 units |
| Text.LocalPart | lib/auth-context.tsx:157 | the prefix before the first '@' (the whole text when there is none) |
| Text.OrIfEmpty | lib/auth-context.tsx:157 | `x \|\| fallback`: the value when present and non-empty, else the fallback |
| Seqs.Filter | app/salvos/page.tsx:15 | `filter`: an order-preserving subsequence holding an input element exactly when it satisfies the predicate |
| Seqs.FilterKeepsAll | app/admin/page.tsx:248-257 | filtering with a predicate every element meets returns the input |
| Seqs.FilterEmptyIff | app/admin/page.tsx:88-96 | a filter is empty exactly when no element passes |
| Seqs.FilterPartition | app/admin/page.tsx:88-89 | filtering by a predicate and by its negation splits the length exactly |
| Seqs.FilterIdempotent | lib/saved-folders.ts:45-49 | filtering twice by one predicate is filtering once |
| Seqs.SubsequenceTransitive | app/page.tsx:16-24 | a subsequence of a subsequence is a subsequence |
| Seqs.Without | lib/saved-folders.ts:47 | `filter(id => id !== x)`: subsequence of the input holding every element except `x` |
| Seqs.WithoutUnique | app/perguntas/page.tsx:70-71 | removing a value held once from a duplicate-free sequence shortens it by one |
| Seqs.WithoutIdempotent | lib/saved-folders.ts:47 | removing a value twice is removing it once |
| Seqs.WithoutAppended | lib/auth-context.tsx:263-268 | appending a missing value and then removing it gives the original sequence |
| Seqs.SubsequenceNoDuplicates | app/perguntas/page.tsx:71 | a subsequence of a duplicate-free sequence is duplicate-free |
| Seqs.Find | app/admin/page.tsx:101 | `find`: None exactly when no element matches, otherwise the first matching element |
| AuthContext.ToggledSaved | lib/auth-context.tsx:257-268 | the toggled id's membership flips; other ids keep theirs; an absent id is appended, a present one is removed keeping order |
| AuthContext.ToggleParity | lib/auth-context.tsx:251-306 | after n successful toggles the tutorial is saved iff it was saved and n is even, or was not and n is odd; other ids unchanged |
| AuthContext.ToggleTwiceFromUnsaved | lib/auth-context.tsx:251-306 | saving then unsaving a tutorial restores the saved list |
| AuthContext.DeleteCommentIn | lib/auth-context.tsx:317-329 | only the matching tutorial's comments change; that tutorial loses exactly the comments with the id |
| AuthContext.WithBanned | lib/auth-context.tsx:331-337 | only `banned` changes, and only on the users with the id |
| AuthContext.WithRole | lib/auth-context.tsx:339-345 | only `role` changes, and only on the users with the id |
| AuthContext.BanThenUnban | lib/auth-context.tsx:331-337 | ban followed by unban leaves the target unbanned and every other user as before |
| AuthContext.WithRoleIdempotent | lib/auth-context.tsx:339-345 | setting a role twice is setting it once |
| AuthContext.WithBannedIdempotent | lib/auth-context.tsx:331-337 | setting the ban flag twice is setting it once |
| AuthContext.UserFromSession | lib/auth-context.tsx:153-161 | id, email, creation time from the session; name from metadata or the e-mail's local part; role from metadata or USER; not banned; saved list is the fetched ids or empty |
| AuthContext.TutorialFromRow | lib/auth-context.tsx:81-93 | row fields carried over; author name falls back to "Usuário"; comments start empty |
| AuthContext.RequestFromRow | lib/auth-context.tsx:104-116 | row fields carried over; user name falls back to "Usuário"; missing voter list reads as empty |
| AuthContext.UserFromRow | lib/auth-context.tsx:127-134 | profile fields carried over; no saved list |
| AuthContext.MapRows | lib/auth-context.tsx:81 | `map`: same length, each element the mapped row |
| AuthContext.ClientStore.constructor | lib/auth-context.tsx:54-60 | no user and every collection empty |
| AuthContext.ClientStore.ToggleSaveTutorial | lib/auth-context.tsx:251-306 | no user: nothing changes and login is required; otherwise the optimistic list is installed and the link is inserted or deleted; on failure the whole store is back to its old state |
| AuthContext.ClientStore.AddAdminLog | lib/auth-context.tsx:308-315 | one stamped entry is prepended; older entries keep their order; nothing else changes |
| AuthContext.ClientStore.DeleteComment | lib/auth-context.tsx:317-329 | tutorials become `DeleteCommentIn` of the old ones; nothing else changes |
| AuthContext.ClientStore.BanUser | lib/auth-context.tsx:331-333 | users become `WithBanned(.., true)`; nothing else changes |
| AuthContext.ClientStore.UnbanUser | lib/auth-context.tsx:335-337 | users become `WithBanned(.., false)`; nothing else changes |
| AuthContext.ClientStore.PromoteToAdmin | lib/auth-context.tsx:339-341 | users become `WithRole(.., ADMIN)`; nothing else changes |
| AuthContext.ClientStore.DemoteFromAdmin | lib/auth-context.tsx:343-345 | users become `WithRole(.., USER)`; nothing else changes |
| AuthContext.ClientStore.UpdateProfile | lib/auth-context.tsx:224-244 | no user: "No user" and no change; write succeeds: only the user's name changes; write fails: no change and the error is returned |
| AuthContext.ClientStore.Logout | lib/auth-context.tsx:246-249 | the user becomes null; nothing else changes |
| AuthContext.ClientStore.OnAuthStateChange | lib/auth-context.tsx:166-188 | a session installs the mapped user, no session clears it; nothing else changes |
| AuthContext.ClientStore.RefreshData | lib/auth-context.tsx:73-137 | each collection whose fetch returned rows becomes the mapped rows; the others, the user, problems and logs stay |
| AdminPage.ApproveIn | app/admin/page.tsx:100-113 | only `approved` changes, and it becomes true exactly on the tutorials with the id |
| AdminPage.ResolveIn | app/admin/page.tsx:202-215 | only `resolved` changes, and it becomes true exactly on the problems with the id |
| AdminPage.Handle | app/admin/page.tsx:100-245 | the current user never changes; the log is unchanged or gains one entry in front; only the collection the action is about can change |
| AdminPage.LogIffTargetFound | app/admin/page.tsx:100-245 | a handler logs exactly when its target was found before the change; comment deletion always logs |
| AdminPage.HandleLogs | app/admin/page.tsx:100-245 | the log after a handler is its stamped entry in front of the old log when it logs, else the old log |
| AdminPage.LoggedEntry | app/admin/page.tsx:100-245 | a logging handler's entry carries the given id and time, the acting admin's id and name, the action's fixed label and target type, and the target's id |
| AdminPage.LoggedNameFound | app/admin/page.tsx:100-245 | the logged name is the found target's title, name or description snippet, or the comment's snippet; snippets are at most 53 UTF-16 code units |
| AdminPage.LoggedTargetName | app/admin/page.tsx:130-140 | the entry's target name is that logged name; a deleted comment's is the snippet of its text |
| AdminPage.DeletionRemovesExactlyTarget | app/admin/page.tsx:115-128 | a deletion removes exactly the elements with the target id and keeps the rest in order |
| AdminPage.HandleApproveTutorial | app/admin/page.tsx:100-113 | the store becomes `Handle(old, ApproveTutorial(id))` |
| AdminPage.HandleDeleteTutorial | app/admin/page.tsx:115-128 | the store becomes `Handle(old, DeleteTutorial(id))` |
| AdminPage.HandleDeleteComment | app/admin/page.tsx:130-140 | the store becomes `Handle(old, DeleteComment(..))` |
| AdminPage.HandleBanUser | app/admin/page.tsx:142-155 | the store becomes `Handle(old, BanUser(id))` |
| AdminPage.HandleUnbanUser | app/admin/page.tsx:157-170 | the store becomes `Handle(old, UnbanUser(id))` |
| AdminPage.HandlePromoteUser | app/admin/page.tsx:172-185 | the store becomes `Handle(old, PromoteUser(id))` |
| AdminPage.HandleDemoteUser | app/admin/page.tsx:187-200 | the store becomes `Handle(old, DemoteUser(id))` |
| AdminPage.HandleResolveProblem | app/admin/page.tsx:202-215 | the store becomes `Handle(old, ResolveProblem(id))` |
| AdminPage.HandleDeleteProblem | app/admin/page.tsx:217-230 | the store becomes `Handle(old, DeleteProblem(id))` |
| AdminPage.HandleDeleteRequest | app/admin/page.tsx:232-245 | the store becomes `Handle(old, DeleteRequest(id))` |
| AdminPage.Dispatch | app/admin/page.tsx:60-83 | a non-administrator sees the restricted view and nothing changes; an administrator's action is handled |
| AdminPage.TotalComments | app/admin/page.tsx:92 | every tutorial's comment count is part of the total, which is zero exactly when no tutorial has a comment |
| AdminPage.Stats | app/admin/page.tsx:86-97 | totals are the collection sizes; pending, approved, banned, unresolved and unanswered are the counts of the elements in that state; pending plus approved is the total; the other partial counts never exceed their totals |
| AdminPage.StatsZeroExactlyWhenNone | app/admin/page.tsx:88-96 | each partial counter is zero exactly when no tutorial, user, problem or request is in its state |
| AdminPage.DeleteCommentNeverAddsComments | app/admin/page.tsx:92 | deleting a comment never raises the comment total |
| AdminPage.FilteredTutorials | app/admin/page.tsx:248-257 | a subsequence of the tutorials matching title or author and the status; "pending" lists only unapproved ones, "approved" only approved ones |
| AdminPage.UnfilteredTutorialsTab | app/admin/page.tsx:248-257 | an empty search with status "all" lists every tutorial |
| AdminPage.FilteredUsers | app/admin/page.tsx:259-263 | a subsequence of the users whose name or e-mail matches, with every matching user present |
| RequestsPage.SeededRequestsConsistent | lib/types.ts:138-163 | every seeded request's vote count equals its duplicate-free voter list's length |
| RequestsPage.ToggleVote | app/perguntas/page.tsx:66-72 | a voter is removed and the count drops by one, or appended and the count rises by one; other voters and other fields unchanged |
| RequestsPage.ToggleVoteKeepsConsistent | app/perguntas/page.tsx:66-72 | toggling a vote keeps the count equal to the voter list's length and the list duplicate-free |
| RequestsPage.ToggleVoteTwice | app/perguntas/page.tsx:66-72 | voting and un-voting restores the count and the voter set |
| RequestsPage.Upvote | app/perguntas/page.tsx:64-76 | only the request with the id changes, by `ToggleVote` |
| RequestsPage.UpvoteKeepsConsistent | app/perguntas/page.tsx:61-77 | vote consistency of every request is preserved |
| RequestsPage.HandleUpvote | app/perguntas/page.tsx:61-77 | no user: nothing changes; otherwise the requests become `Upvote(old, id, user)` and nothing else changes |
| RequestsPage.InsertByVotes | app/perguntas/page.tsx:32-35 | inserts one request, keeping the multiset and the decreasing vote order |
| RequestsPage.SortByPopularity | app/perguntas/page.tsx:32-35 | a permutation of the input in decreasing vote order |
| RequestsPage.FilteredRequests | app/perguntas/page.tsx:24-35 | a permutation of the matching requests, most votes first, holding every matching request and only those |
| RequestsPage.UnfilteredRequests | app/perguntas/page.tsx:24-35 | with an empty search and no category every request is listed |
| RequestsPage.CreateRequestPayload | app/perguntas/page.tsx:37-47 | no insert without a user or with a blank title or description; otherwise the trimmed, non-empty values |
| RequestsPage.NewRequestForm.constructor | app/perguntas/page.tsx:14-22 | empty fields, the first category, closed |
| RequestsPage.NewRequestForm.Submit | app/perguntas/page.tsx:37-59 | sends `CreateRequestPayload`; a successful insert resets the fields and closes the form; otherwise nothing changes |
| SavedFolders.StorageKey | lib/saved-folders.ts:7 | the prefix "saved-folders-" followed by the user id |
| SavedFolders.StorageKeyInjective | lib/saved-folders.ts:7 | distinct users have distinct storage keys |
| SavedFolders.StoredFolders | lib/saved-folders.ts:9-18 | a missing, empty or unparsable entry reads as no folders |
| SavedFolders.SaveThenRead | lib/saved-folders.ts:9-23 | folders saved for a user read back unchanged, and other users read what they read before |
| SavedFolders.AddToFolder | lib/saved-folders.ts:31-35 | same folders, ids and names; only the matching folder changes, gaining the id at the end when it lacked it |
| SavedFolders.RemoveFromFolder | lib/saved-folders.ts:45-49 | same folders, ids and names; the matching folder loses exactly the id, keeping order |
| SavedFolders.AddKeepsNoDuplicates | lib/saved-folders.ts:32 | adding never creates a duplicate id in a folder |
| SavedFolders.RemoveKeepsNoDuplicates | lib/saved-folders.ts:47 | removing never creates a duplicate id in a folder |
| SavedFolders.AddIdempotent | lib/saved-folders.ts:31-35 | adding twice is adding once |
| SavedFolders.RemoveIdempotent | lib/saved-folders.ts:45-49 | removing twice is removing once |
| SavedFolders.AddThenRemoveRestores | lib/saved-folders.ts:25-51 | adding a missing id and removing it restores the folders |
| SavedFolders.FolderStorage.constructor | lib/saved-folders.ts:12-13 | storage starts with no keys, so every user's folders read as none |
| SavedFolders.FolderStorage.GetUserFolders | lib/saved-folders.ts:9-18 | returns `StoredFolders` of the user |
| SavedFolders.FolderStorage.SaveUserFolders | lib/saved-folders.ts:20-23 | only the user's key changes, to the serialized folders |
| SavedFolders.FolderStorage.AddTutorialToFolder | lib/saved-folders.ts:25-37 | the user's folders become `AddToFolder` of the old ones; every other user's folders read the same |
| SavedFolders.FolderStorage.RemoveTutorialFromFolder | lib/saved-folders.ts:39-51 | the user's folders become `RemoveFromFolder` of the old ones; every other user's folders read the same |
| RegisterPage.StrengthScore | app/registrar/page.tsx:24-29 | between 0 and 3; 0 exactly when no criterion holds, 3 exactly when all do |
| RegisterPage.AstralCharactersCountTwice | app/registrar/page.tsx:24-29 | four characters outside the Basic Multilingual Plane and "Ab" meet the minimum length, and score 2 |
| RegisterPage.StrongEnoughIffTwoCriteria | app/registrar/page.tsx:29 | a score of at least 2 holds exactly when two of the criteria do |
| RegisterPage.ValidationError | app/registrar/page.tsx:36-58 | each message is produced exactly when its check is the first to fail, in the form's order; None exactly when all pass |
| RegisterPage.FailureText | app/registrar/page.tsx:63 | the service's message, or "Erro ao criar conta" when it is empty |
| RegisterPage.RouteAfter | app/registrar/page.tsx:68-73 | a user without a session goes to e-mail verification, anything else to the home page |
| RegisterPage.RegisterForm.constructor | app/registrar/page.tsx:14-21 | empty fields, terms not accepted, no error, not loading |
| RegisterPage.RegisterForm.Submit | app/registrar/page.tsx:31-74 | the service is called exactly when validation passes; a failed check or a service error sets the message and stops loading; a success navigates by `RouteAfter` |
| CreateTutorialPage.RemoveStepAt | app/criar/page.tsx:30-34 | one step or an out-of-range index: unchanged; otherwise exactly that index is removed; never empties a non-empty list |
| CreateTutorialPage.AddThenRemoveStep | app/criar/page.tsx:24-34 | adding a step and removing it restores the steps |
| CreateTutorialPage.NonBlankSteps | app/criar/page.tsx:47 | the non-blank steps, untrimmed, in order |
| CreateTutorialPage.NoStepsIffAllBlank | app/criar/page.tsx:38 | no step survives exactly when every step is blank |
| CreateTutorialPage.InsertPayload | app/criar/page.tsx:38-51 | nothing without a user, title, description or non-blank step; otherwise the form's values, the non-blank steps, the author's id, and `approved` exactly for administrators |
| CreateTutorialPage.TutorialDraft.constructor | app/criar/page.tsx:18-22 | empty title and description, "Tecnologia", one empty step |
| CreateTutorialPage.TutorialDraft.AddStep | app/criar/page.tsx:24 | one empty step appended; the list stays non-empty |
| CreateTutorialPage.TutorialDraft.UpdateStep | app/criar/page.tsx:25-29 | only index `i` is replaced |
| CreateTutorialPage.TutorialDraft.RemoveStep | app/criar/page.tsx:30-34 | steps become `RemoveStepAt`; the list stays non-empty |
| CreateTutorialPage.TutorialDraft.Submit | app/criar/page.tsx:36-61 | sends `InsertPayload`; a failed insert clears `isSubmitting`; a successful one navigates home |
| HomePage.SearchQuery | app/page.tsx:12 | the `search` parameter, or "" |
| HomePage.ApprovedTutorials | app/page.tsx:16 | a subsequence holding exactly the approved tutorials |
| HomePage.FilteredTutorials | app/page.tsx:16-24 | a subsequence of the store's tutorials holding a tutorial exactly when it is approved, matches the query on title or description, and matches the category |
| HomePage.UnfilteredListing | app/page.tsx:12-24 | an empty query with no category lists every approved tutorial |
| HomePage.TrendingClearsCategory | app/page.tsx:35-44 | after "Em Alta" a tutorial is listed exactly when it is approved and matches the query, so every tutorial listed before stays listed; with an empty query every approved tutorial is listed |
| HomePage.ToggleCategory | app/page.tsx:74 | the clicked category becomes selected, unless it already was, which clears the selection |
| HomePage.ToggleCategoryTwice | app/page.tsx:74 | clicking a category twice from no selection returns to no selection |
| SavedPage.SavedList | app/salvos/page.tsx:13-20 | empty without a saved list or tutorials; otherwise a subsequence of the tutorials holding exactly those whose id is saved |
| SavedPage.SavedListFollowsStoreOrder | app/salvos/page.tsx:15 | saving "2" before "1" still lists the seeded tutorials in store order |
| SavedPage.View | app/salvos/page.tsx:22-39 | no user: the access-required view; otherwise the saved list |
| TutorialTemplate.TutorialProblems | components/tutorial-template.tsx:154 | a subsequence holding exactly the problems of the tutorial |
| TutorialTemplate.IsSaved | components/tutorial-template.tsx:54 | the tutorial shows as saved exactly when there is a user whose saved list holds its id |
| TutorialTemplate.ToggleFlipsIsSaved | components/tutorial-template.tsx:54 | a toggle flips the tutorial's bookmark and leaves every other bookmark as it was |
| TutorialTemplate.StepChoices | components/tutorial-template.tsx:209-221 | the general option followed by steps 1 to n |
| TutorialTemplate.StepChoicesAreValidSteps | components/tutorial-template.tsx:209-221 | an option is offered exactly when it is null or a step number 1..n |
| TutorialTemplate.ReportFor | components/tutorial-template.tsx:156-165 | nothing without a user or with a blank description; otherwise the tutorial id, the user's id and name, the step, and the trimmed description |
| TutorialTemplate.ReportForm.constructor | components/tutorial-template.tsx:150-152 | the dialog starts closed, with no step selected and an empty description |
| TutorialTemplate.ReportForm.ToggleOpen | components/tutorial-template.tsx:186 | the dialog's open flag flips; the selection and description stay |
| TutorialTemplate.ReportForm.SelectStep | components/tutorial-template.tsx:210-212 | the selection becomes the chosen option, which is a valid step |
| TutorialTemplate.ReportForm.Submit | components/tutorial-template.tsx:156-170 | sends `ReportFor`; after a report the description is empty, no step is selected and the form is closed; otherwise nothing changes |

## Left out

- Supabase queries, inserts, deletes, auth, OAuth, password reset and session refresh are network I/O. Their outcomes are parameters.
- Toast notifications are not modelled. `ToggleSaveTutorial` returns which notice it would show.
- Date formatting (`toLocaleDateString`) is not modelled. The "recent" sort of the request board parses such dates, so it is not modelled either; only the "popular" order is.
- Dark mode, the OAuth `code` redirect and the `typeof window` guard are not modelled: they are presentation or environment checks.
- Overlapping asynchronous toggles are not modelled. Each toggle runs to completion before the next one starts.
- JSON encoding is not modelled. Browser storage holds an abstract serialized folder list, an empty text or an unparsable text. A stored text that parses to something other than a folder array is not modelled.
- `UserFromSession` and `UserFromRow` do not validate the `role` and `banned` values. The rows are assumed to hold a `Role` and a boolean.
- The tutorial upvote and the `onReportProblem` insert belong to app/tutorial/[id]/page.tsx, which is not part of this model. `ReportFor` gives the problem it would receive.
- `CreateTutorialPage.TutorialDraft.UpdateStep`: requires an index inside the list, because the editor only calls it for an existing step. An out-of-range index in JavaScript would leave holes in the array.
- `CreateTutorialPage.TutorialDraft.Submit`: the `refreshData` call after a successful insert is not repeated here. It is modelled as `AuthContext.ClientStore.RefreshData`.
- `RequestsPage.NewRequestForm.Submit`: the `refreshData` call after a successful insert is not repeated here. It is modelled as `AuthContext.ClientStore.RefreshData`.
- `RequestsPage.SortByPopularity`: the stability of the order among requests with equal votes is not stated.
- `Text.Snippet`: when the 50th UTF-16 code unit is the first half of a surrogate pair, JavaScript keeps that lone high surrogate. A Dafny `char` cannot hold a lone surrogate, so the model drops it and the snippet's prefix is one unit shorter, 49 units.
- `Text.ToLower`: lowers ASCII and Latin-1 letters only, not the whole of Unicode.
- `RegisterPage.HasUppercase`: tests A-Z only, exactly like the source's regular expression.

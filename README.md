# dentsu-prompt-compass: the client-side stores, identities and page logic in Dafny

This project models the state logic of the dentsu-prompt-compass web client and proves properties about it. The client is a React app. All of its state lives in the browser.

- **Directory store** (`Directory`). Teams and users, with create, merge-update and delete operations. Deleting a team unassigns its users. Both collections are mirrored under the storage keys `dentsu_teams` and `dentsu_users`.
- **Submissions store** (`Submissions`). Prompts and files submitted for review. Each record starts `pending` and is then approved or denied by an admin. The store offers views by submitter, by status, or the whole list, and mirrors the list under `submissions`.
- **Three identity variants**:
  - the mock login against the stored directory, with hard-coded fallback accounts (`MockAuth`);
  - the two-account login (`BasicAuth`);
  - the delegated identity, adopted from a platform principal through an allow-list (`DelegatedAuth`).
- **Access gate** (`RouteGate`). Chooses between the spinner, a redirect to login, a redirect to chat, or the page itself.
- **Pages**:
  - the admin review pages, both the one over the store and the standalone one with its own list (`AdminReview`, `LocalReview`);
  - user administration (`UserAdmin`);
  - the PowerPoint upload (`PptxUpload`);
  - the prompt drafts (`PromptDrafts`).

Shared vocabulary sits in `Common`. It holds:
- `Option` for JavaScript `null`/`undefined`;
- `Field` for one property of an object-spread patch;
- `OrElse` for `x || d`, where `''` is falsy;
- `filter`, `find`, and a `map` that rewrites matching records.

`Strings` holds `toLowerCase`, `includes`, `endsWith`, and `replace` with a string pattern.

Pure logic is written as functions, each with lemmas about it. State that the source updates in place is written as classes:
- React state and the storage copy of it become fields;
- handlers and store operations become methods whose `ensures` give the new state in terms of those functions.

## Model

| member | source | states |
|---|---|---|
| Common.OrElse | src/contexts/SubmissionsContext.jsx:39-41 | `v \|\| d`: the value when present and non-empty, otherwise the default |
| Common.NonEmpty | src/pages/admin/AdminSubmissions.jsx:27 | `s \|\| undefined`: absent exactly when the string is empty, otherwise the string |
| Common.Find | src/contexts/TeamContext.jsx:129-131 | `find`: absent iff no element passes; otherwise the first passing element, i.e. the one at the first index that passes, which is also the head of what `filter` keeps |
| Common.FilterMultiplicity | src/contexts/TeamContext.jsx:133-135 | `filter` keeps every passing element exactly as often as it occurs in the list, and no other element |
| Strings.Lower | src/pages/admin/UserManagement.jsx:65-68 | `toLowerCase`: same length, every ASCII capital lowered and every other character kept |
| Strings.LowerIdempotent | src/pages/admin/UserManagement.jsx:65-68 | lowering twice equals lowering once |
| Strings.Contains | src/pages/admin/UserManagement.jsx:65-68 | `includes` holds iff the needle occurs at some index |
| Strings.ContainsEmpty | src/pages/admin/UserManagement.jsx:65-68 | every string includes the empty string |
| Strings.ReplaceFirst | src/pages/user/PowerPointUpload.jsx:35 | `replace` with a string pattern: unchanged without an occurrence; otherwise the text before the first occurrence, then the replacement, then the text after that occurrence |
| Directory.AssignPatch | src/contexts/TeamContext.jsx:121-123 | merging the assign patch into any user changes only `teamId`, which becomes the given team |
| Directory.UnassignPatch | src/contexts/TeamContext.jsx:125-127 | merging the unassign patch into any user changes only `teamId`, which becomes null |
| Directory.MergeUserIdempotent | src/contexts/TeamContext.jsx:109-114 | merging the same patch twice equals merging it once |
| Directory.NewTeam | src/contexts/TeamContext.jsx:68-73 | the new team takes the draft's id when it has one, else the generated id; it has the draft's fields and the creation time |
| Directory.NewUser | src/contexts/TeamContext.jsx:97-103 | the new user is always `active`, whatever the draft says; the id is the draft's or the generated one, and the fields are the draft's |
| Directory.SeedIsConsistent | src/contexts/TeamContext.jsx:15-55 | the seed has 4 teams and 2 active users, the admin is in team '4', and every seeded user's team exists |
| Directory.TeamsAfterUpdate | src/contexts/TeamContext.jsx:79-84 | same length; every team with the id gets the patch merged in; every other team is unchanged in place |
| Directory.TeamsAfterDelete | src/contexts/TeamContext.jsx:86-88 | keeps exactly the teams whose id differs |
| Directory.UsersAfterTeamDelete | src/contexts/TeamContext.jsx:90-94 | same length; users of the deleted team get `teamId` null and the others are unchanged; afterwards no user points to the team |
| Directory.UsersAfterUpdate | src/contexts/TeamContext.jsx:109-114 | same length; every user with the id gets the patch merged in; every other user is unchanged in place |
| Directory.UsersAfterDelete | src/contexts/TeamContext.jsx:116-119 | keeps exactly the users whose id differs |
| Directory.FindTeam | src/contexts/TeamContext.jsx:129-131 | nothing exactly when no team has the id; otherwise the team at the first index whose id matches, as `find` returns it when ids repeat |
| Directory.UsersByTeam | src/contexts/TeamContext.jsx:133-135 | exactly the users whose `teamId` equals the argument |
| Directory.DeleteTeamCascade | src/contexts/TeamContext.jsx:86-95 | after a team delete, no team has the id and no user points to it; users of other teams are unchanged; any team with that id appended to the list disappears too |
| Directory.DeleteTeamKeepsRefs | src/contexts/TeamContext.jsx:86-95 | if every user's team existed before a team delete, every user's team exists afterwards |
| Directory.UpdateUserIdempotent | src/contexts/TeamContext.jsx:109-114 | the same user update applied twice equals applying it once |
| Directory.UnknownIdIsNoOp | src/contexts/TeamContext.jsx:79-119 | a team update, team delete, user update or user delete naming an id no record has leaves the list unchanged |
| Directory.AssignmentAndLookup | src/contexts/TeamContext.jsx:121-135 | after unassigning, no team's listing contains the user; after assigning, the new team's listing contains it |
| Directory.FindAfterCreate | src/contexts/TeamContext.jsx:68-131 | right after a create, `getTeamById` finds the new team, unless an older team already has that id |
| Directory.ByTeamAfterCreate | src/contexts/TeamContext.jsx:97-135 | a created user joins the end of its team's listing, and other teams' listings are unchanged |
| Directory.DirectoryStore.Load | src/contexts/TeamContext.jsx:10-56 | loads what storage holds and seeds each absent key; storage then mirrors both collections |
| Directory.DirectoryStore.SaveTeams | src/contexts/TeamContext.jsx:58-61 | replaces the teams and their storage copy and nothing else |
| Directory.DirectoryStore.SaveUsers | src/contexts/TeamContext.jsx:63-66 | replaces the users and their storage copy and nothing else |
| Directory.DirectoryStore.CreateTeam | src/contexts/TeamContext.jsx:68-77 | appends and returns the new team; users are unchanged and storage stays mirrored |
| Directory.DirectoryStore.UpdateTeam | src/contexts/TeamContext.jsx:79-84 | teams become the merge-updated list; users are unchanged and storage stays mirrored |
| Directory.DirectoryStore.DeleteTeam | src/contexts/TeamContext.jsx:86-95 | removes the team and unassigns its users; both collections are saved |
| Directory.DirectoryStore.CreateUser | src/contexts/TeamContext.jsx:97-107 | appends and returns an active user; teams are unchanged and storage stays mirrored |
| Directory.DirectoryStore.UpdateUser | src/contexts/TeamContext.jsx:109-114 | users become the merge-updated list; teams are unchanged |
| Directory.DirectoryStore.DeleteUser | src/contexts/TeamContext.jsx:116-119 | removes every user with the id; teams are unchanged |
| Directory.DirectoryStore.AssignUserToTeam | src/contexts/TeamContext.jsx:121-123 | sets `teamId` on the matching users without checking that the team exists |
| Directory.DirectoryStore.RemoveUserFromTeam | src/contexts/TeamContext.jsx:125-127 | sets `teamId` to null on the matching users |
| Directory.DirectoryStore.GetTeamById | src/contexts/TeamContext.jsx:129-131 | nothing exactly when no stored team has the id; otherwise the first stored team with that id |
| Directory.DirectoryStore.GetUsersByTeam | src/contexts/TeamContext.jsx:133-135 | exactly the stored users of that team |
| Submissions.FromDelegated | src/contexts/AzureAuthContext.jsx:28-33 | the delegated identity offers a name and no team |
| Submissions.SnapshotName | src/contexts/SubmissionsContext.jsx:40 | the user's non-empty name, else 'Unknown User' |
| Submissions.SnapshotTeam | src/contexts/SubmissionsContext.jsx:41 | the user's non-empty team, else 'No Team' |
| Submissions.DelegatedTeamIsNoTeam | src/contexts/SubmissionsContext.jsx:16-41 | under the delegated identity, records are always filed under 'No Team' and under the user's name |
| Submissions.NewPrompt | src/contexts/SubmissionsContext.jsx:32-44 | a pending 'prompt' record: title = name, content = question, team documents default to '', submitter snapshot, no file fields, no review yet |
| Submissions.NewFile | src/contexts/SubmissionsContext.jsx:50-62 | a pending record of the caller's type, with title, file name and size; description defaults to ''; no prompt fields |
| Submissions.Reviewed | src/contexts/SubmissionsContext.jsx:71 | the record with status, comment (possibly absent) and review time overwritten, everything else kept |
| Submissions.UpdateStatus | src/contexts/SubmissionsContext.jsx:68-74 | same length; every record with the id is reviewed whatever its status, and the others are unchanged in place |
| Submissions.UserSubmissions | src/contexts/SubmissionsContext.jsx:76-79 | empty without a user; otherwise exactly the records filed under the user's name |
| Submissions.PendingSubmissions | src/contexts/SubmissionsContext.jsx:81-83 | exactly the pending records |
| Submissions.MineAfterSubmit | src/contexts/SubmissionsContext.jsx:32-79 | a user with a non-empty name finds a new submission at the end of their own list |
| Submissions.EmptyNameNotListed | src/contexts/SubmissionsContext.jsx:40-78 | a user whose name is '' never sees their own submissions |
| Submissions.ReviewLeavesPending | src/contexts/SubmissionsContext.jsx:68-83 | a review to a non-pending status removes exactly that id from the pending view and keeps the rest in order |
| Submissions.RunOnlyGrows | src/contexts/SubmissionsContext.jsx:46-74 | over any run of operations the list grows by one per submission, and existing records keep their place and id |
| Submissions.NeverBackToPending | src/contexts/SubmissionsContext.jsx:68-74 | when no review passes 'pending', a reviewed record never returns to pending |
| Submissions.SubmissionsStore.Load | src/contexts/SubmissionsContext.jsx:20-30 | adopts the saved list or starts empty; storage mirrors the list |
| Submissions.SubmissionsStore.Persist | src/contexts/SubmissionsContext.jsx:28-30 | storage becomes the list, and the list itself is unchanged |
| Submissions.SubmissionsStore.SubmitPrompt | src/contexts/SubmissionsContext.jsx:32-48 | appends and returns the pending prompt record; storage stays mirrored |
| Submissions.SubmissionsStore.SubmitFile | src/contexts/SubmissionsContext.jsx:50-66 | appends and returns the pending file record; storage stays mirrored |
| Submissions.SubmissionsStore.UpdateSubmissionStatus | src/contexts/SubmissionsContext.jsx:68-74 | the list becomes the reviewed list with the same length; storage stays mirrored |
| Submissions.SubmissionsStore.GetUserSubmissions | src/contexts/SubmissionsContext.jsx:76-79 | exactly the stored records filed under the user's name |
| Submissions.SubmissionsStore.GetPendingSubmissions | src/contexts/SubmissionsContext.jsx:81-83 | exactly the stored pending records |
| Submissions.SubmissionsStore.GetAllSubmissions | src/contexts/SubmissionsContext.jsx:85-87 | the whole list |
| DelegatedAuth.Adopt | src/contexts/AzureAuthContext.jsx:27-33 | adopted iff a principal is present and its address is allow-listed; id = userId, name = email = userDetails; role is admin iff the address is the admin one |
| DelegatedAuth.AllowListAdopted | src/contexts/AzureAuthContext.jsx:5-33 | both allow-listed addresses are adopted, as admin and as user; every address outside the allow-list, the development identity's included, is rejected |
| DelegatedAuth.AfterFetch | src/contexts/AzureAuthContext.jsx:21-53 | an answer adopts per the allow-list; a failure installs the development admin only in development; `isAdmin` iff the user is an admin |
| DelegatedAuth.DelegatedSession.constructor | src/contexts/AzureAuthContext.jsx:12-14 | starts with no user, not admin, loading |
| DelegatedAuth.DelegatedSession.FetchUserInfo | src/contexts/AzureAuthContext.jsx:21-53 | loading ends in every case; adoption sets user and `isAdmin`; a rejected principal or a failure outside development changes nothing |
| DelegatedAuth.DelegatedSession.ToggleAdminMode | src/contexts/AzureAuthContext.jsx:55-59 | flips `isAdmin` for the admin address or in development; otherwise nothing changes |
| DelegatedAuth.MountSession | src/contexts/AzureAuthContext.jsx:16-19 | a fresh session after its fetch holds exactly `AfterFetch` of the outcome, and has stopped loading |
| MockAuth.PasswordAccepted | src/contexts/AuthContext.jsx:35-44 | accepted iff one of the two hard-coded pairs, or the shared password 'password123' |
| MockAuth.FindActive | src/contexts/AuthContext.jsx:30 | nothing exactly when no active user has the address; otherwise the first active user with that address in directory order |
| MockAuth.WithTeam | src/contexts/AuthContext.jsx:48-56 | the directory record (id, name, email, role, team id, status, creation time) plus the name and instance of the first team whose id equals the user's `teamId`; both null exactly when no team has it |
| MockAuth.CheckCredentials | src/contexts/AuthContext.jsx:26-89 | with an active account for the address: success iff the password chain accepts, as that record with its team; without one: success iff a hard-coded pair, as the matching fallback record |
| MockAuth.AcceptanceSet | src/contexts/AuthContext.jsx:30-89 | with an active account: success iff a hard-coded pair or the shared password; without one: success iff a hard-coded pair |
| MockAuth.DirectorySignIn | src/contexts/AuthContext.jsx:46-59 | a directory sign-in yields the whole directory record spread with its team's name and instance, the team present exactly when the team lookup finds one |
| MockAuth.SeededAccounts | src/contexts/AuthContext.jsx:30-59 | the seeded admin signs in with 'admin123' and with 'password123', with the same record, role admin and the Admin Team attached |
| MockAuth.InactiveAdminFallsBack | src/contexts/AuthContext.jsx:30-75 | with the admin account inactive, 'admin123' still signs in as the fixed fallback admin and 'password123' fails |
| MockAuth.EmptyStorageFallback | src/contexts/AuthContext.jsx:26-89 | with empty storage only the hard-coded pairs sign in, as the fixed fallback records |
| MockAuth.MockSession.Restore | src/contexts/AuthContext.jsx:10-17 | adopts the saved session if any and stops loading |
| MockAuth.MockSession.Login | src/contexts/AuthContext.jsx:19-92 | returns the credential decision; success sets and persists the user and stops loading; failure leaves user and storage alone and loading set |
| MockAuth.MockSession.Logout | src/contexts/AuthContext.jsx:94-97 | clears the user and the stored session |
| BasicAuth.BasicSession.Restore | src/contexts/AuthContext.tsx:25-32 | adopts the saved session if any and stops loading |
| BasicAuth.BasicSession.Login | src/contexts/AuthContext.tsx:34-64 | succeeds iff one of the two pairs, as the admin or the regular account; success persists and stops loading; failure changes nothing but leaves loading set |
| BasicAuth.BasicSession.Logout | src/contexts/AuthContext.tsx:66-69 | clears the user and the stored session |
| RouteGate.Decide | src/components/ui/ProtectedRoute.jsx:6-25 | spinner while loading; login iff loaded with no user; chat iff loaded, an admin route and a non-admin; the page otherwise |
| RouteGate.RolesAndRoutes | src/components/ui/ProtectedRoute.jsx:17-25 | once loaded, an admin is always rendered, and a non-admin is rendered iff the route does not require admin |
| RouteGate.GateAfterLogin | src/components/ui/ProtectedRoute.jsx:21-25 | after a successful sign-in, the admin routes open iff the record is an admin; the fallback admin passes and the fallback user goes to chat |
| RouteGate.AttemptThenVisit | src/components/ui/ProtectedRoute.jsx:9-25 | after a rejected sign-in the route shows the spinner; after a successful one it renders iff the route is open to the user's role |
| AdminReview.ActionStatus | src/pages/admin/AdminSubmissions.jsx:26 | 'approved' iff the action is 'approve', and 'denied' otherwise |
| AdminReview.FilterByType | src/pages/admin/AdminSubmissions.jsx:62-65 | a missing or empty type keeps the whole list; otherwise exactly the records of that type |
| AdminReview.TabCountsAddUp | src/pages/admin/AdminSubmissions.jsx:174-177 | the three kind tabs sum to at most the All tab, and to exactly it when every record is a prompt, pptx or csv |
| AdminReview.ReviewClosesItem | src/pages/admin/AdminSubmissions.jsx:23-147 | after a review, no record with the id offers Review, and every other record is unchanged |
| AdminReview.PrefillRoundTrip | src/pages/admin/AdminSubmissions.jsx:27-41 | confirming a prefilled comment stores the old comment, except that '' becomes absent; a typed comment survives the round trip |
| AdminReview.ReviewPage.constructor | src/pages/admin/AdminSubmissions.jsx:19-21 | no selection, an empty comment, the dialog closed |
| AdminReview.ReviewPage.OpenReviewDialog | src/pages/admin/AdminSubmissions.jsx:39-43 | selects the record, prefills its comment or '', opens the dialog |
| AdminReview.ReviewPage.HandleReview | src/pages/admin/AdminSubmissions.jsx:23-37 | the store gets the mapped status and the comment (absent when blank); then the dialog closes and resets |
| AdminReview.ReviewAsPrefilled | src/pages/admin/AdminSubmissions.jsx:23-43 | opening then confirming at once keeps the record's comment, unless it was '' |
| LocalReview.Seed | src/pages/admin/AdminSubmissions.tsx:29-61 | the page starts with three records |
| LocalReview.LocallyReviewed | src/pages/admin/AdminSubmissions.tsx:70-74 | sets the mapped status and the comment-or-absent; every other field is kept |
| LocalReview.ReviewLocal | src/pages/admin/AdminSubmissions.tsx:67-76 | same length; records with the id are reviewed, others are unchanged in place |
| LocalReview.SameAsStoreButUnstamped | src/pages/admin/AdminSubmissions.tsx:67-76 | each record equals the store's review of it, except that its review time is left as it was |
| LocalReview.LocalReviewLeavesPending | src/pages/admin/AdminSubmissions.tsx:67-163 | a local review removes exactly that id from the pending records and keeps the rest in order |
| LocalReview.SeedFacts | src/pages/admin/AdminSubmissions.tsx:29-61 | ids 1 and 2 are pending and offer Review; id 3 is approved and carries its comment |
| LocalReview.SeedPending | src/pages/admin/AdminSubmissions.tsx:29-61 | the pending records of the seed are exactly its first two, in order |
| LocalReview.SeedTabCounts | src/pages/admin/AdminSubmissions.tsx:29-61 | each of the prompt, pptx and csv tabs counts one seeded record |
| LocalReview.LocalReviewPage.constructor | src/pages/admin/AdminSubmissions.tsx:29-65 | starts with the seeded list and a closed, empty dialog |
| LocalReview.LocalReviewPage.OpenReviewDialog | src/pages/admin/AdminSubmissions.tsx:87-91 | selects the record, prefills its comment or '', opens the dialog; the list is unchanged |
| LocalReview.LocalReviewPage.HandleReview | src/pages/admin/AdminSubmissions.tsx:67-85 | the list becomes the locally reviewed list; then the dialog closes and resets |
| LocalReview.LocalReviewPage.FilterSubmissions | src/pages/admin/AdminSubmissions.tsx:110-113 | all records for no type; otherwise exactly the records of that type |
| UserAdmin.ToggledStatus | src/pages/admin/UserManagement.jsx:50 | 'inactive' iff the status was 'active'; always one of the two |
| UserAdmin.ToggleTwice | src/pages/admin/UserManagement.jsx:49-52 | toggling always changes the status, and toggling twice restores 'active' or 'inactive' |
| UserAdmin.StatusPatch | src/pages/admin/UserManagement.jsx:51 | merging it changes only `status` |
| UserAdmin.ActiveCount | src/pages/admin/UserManagement.jsx:175 | the Active card never exceeds the user total |
| UserAdmin.ActiveAndTotal | src/pages/admin/UserManagement.jsx:169-175 | active plus non-active users equal the total card |
| UserAdmin.ToggleActiveCount | src/pages/admin/UserManagement.jsx:49-52 | after a toggle, the Active card counts the toggled users that became active plus the untouched active ones |
| UserAdmin.FilteredUsers | src/pages/admin/UserManagement.jsx:65-68 | exactly the users whose lowercased name or email includes the lowercased term |
| UserAdmin.EmptySearchKeepsAll | src/pages/admin/UserManagement.jsx:65-68 | an empty search lists every user, in order |
| UserAdmin.SearchIgnoresCase | src/pages/admin/UserManagement.jsx:65-68 | searching for the lowercase form of a term lists the same users |
| UserAdmin.NarrowerSearch | src/pages/admin/UserManagement.jsx:65-68 | a term that contains another lists a subset of what the shorter term lists |
| UserAdmin.EditForm | src/pages/admin/UserManagement.jsx:54-61 | the form shows name, email, role and the stored team id; a missing team becomes '' |
| UserAdmin.FormDraft | src/pages/admin/UserManagement.jsx:31 | `createUser` gets the form fields, the team as a string, no id and no status |
| UserAdmin.FormPatch | src/pages/admin/UserManagement.jsx:38 | merging it overwrites name, email, role and team with the form's values and nothing else |
| UserAdmin.ShownTeam | src/pages/admin/UserManagement.jsx:202 | no team for a null or '' team id; otherwise the first listed team with that id, present whenever some team has it |
| UserAdmin.EditRoundTrip | src/pages/admin/UserManagement.jsx:54-61 | saving an opened user unchanged turns a null team into '' and keeps everything else, and the row shows the same team |
| UserAdmin.NoTeamIsEmptyString | src/pages/admin/UserManagement.jsx:22-34 | a user created with "No team" has team '', is shown with no team, and leaves every real team's listing unchanged |
| UserAdmin.UserManagementPage.constructor | src/pages/admin/UserManagement.jsx:17-27 | no selection, an empty form with role 'user', dialogs closed, empty search |
| UserAdmin.UserManagementPage.HandleCreateUser | src/pages/admin/UserManagement.jsx:29-34 | creates the user from the form, resets the form to role 'user' and no team, closes the dialog |
| UserAdmin.UserManagementPage.HandleEditUser | src/pages/admin/UserManagement.jsx:36-41 | merges the form into the selected user, clears the selection and keeps the form |
| UserAdmin.UserManagementPage.OpenEditUser | src/pages/admin/UserManagement.jsx:54-63 | selects the user, fills the form from it, opens the dialog |
| UserAdmin.UserManagementPage.HandleDeleteUser | src/pages/admin/UserManagement.jsx:43-47 | deletes only after confirmation; otherwise nothing changes |
| UserAdmin.UserManagementPage.ToggleUserStatus | src/pages/admin/UserManagement.jsx:49-52 | updates only the status, to its toggle |
| UserAdmin.UserManagementPage.Rows | src/pages/admin/UserManagement.jsx:65-68 | the rows are exactly the stored users matching the search |
| PptxUpload.DefaultTitle | src/pages/user/PowerPointUpload.jsx:35 | a name without '.pptx' is kept; otherwise the first '.pptx' is removed and the text before and after it is kept |
| PptxUpload.TitleAfterSelect | src/pages/user/PowerPointUpload.jsx:34-36 | an empty title becomes the derived one; a typed title is kept |
| PptxUpload.TitleOfPlainName | src/pages/user/PowerPointUpload.jsx:35 | the title derived from '<base>.pptx' is the base, when the base holds no '.pptx' |
| PptxUpload.AcceptanceByNameOrType | src/pages/user/PowerPointUpload.jsx:31-35 | any name ending in '.pptx' is accepted whatever its type; a name without '.pptx' is kept whole as title |
| PptxUpload.UploadData | src/pages/user/PowerPointUpload.jsx:54-60 | type 'pptx', with the form's title and description and the file's name and size |
| PptxUpload.UploadRecord | src/pages/user/PowerPointUpload.jsx:54-62 | an enabled submit stores a pending pptx record with a non-empty title and the form's data |
| PptxUpload.Listing | src/pages/user/PowerPointUpload.jsx:19 | exactly the user's own submissions of type 'pptx' |
| PptxUpload.UploadListed | src/pages/user/PowerPointUpload.jsx:19-62 | a named user's upload appears at the end of their listing |
| PptxUpload.UploadPage.constructor | src/pages/user/PowerPointUpload.jsx:21-26 | an empty form, the dialog closed, the input empty |
| PptxUpload.UploadPage.HandleFileSelect | src/pages/user/PowerPointUpload.jsx:28-44 | no file changes nothing; an accepted file is set with the derived title; a rejected one leaves the form and clears the input |
| PptxUpload.UploadPage.HandleSubmitFile | src/pages/user/PowerPointUpload.jsx:46-72 | without a file nothing changes; otherwise the record is appended and returned, and form, dialog and input reset |
| PromptDrafts.SeedDrafts | src/pages/user/Prompts.jsx:20-37 | two prompts, one approved and one pending |
| PromptDrafts.NewDraft | src/pages/user/Prompts.jsx:48-55 | a 'draft' with the form's name, question and expected response and the given id and time; the team documents are dropped |
| PromptDrafts.AsPromptData | src/pages/user/Prompts.jsx:67 | the whole form, team documents included |
| PromptDrafts.FormReachesStore | src/pages/user/Prompts.jsx:66-67 | the stored record carries the form's fields, team documents included, and matches the draft the other button would save |
| PromptDrafts.EnabledMeansNonEmpty | src/pages/user/Prompts.jsx:164-171 | with the buttons enabled, neither path yields an empty title or question |
| PromptDrafts.SubmissionsTabCount | src/pages/user/Prompts.jsx:18 | zero without a user, and never more than the whole list |
| PromptDrafts.SubmitRaisesTabCount | src/pages/user/Prompts.jsx:66-68 | a named user's submission raises their tab count by exactly one |
| PromptDrafts.PromptsPage.constructor | src/pages/user/Prompts.jsx:20-45 | the seeded drafts, an empty form, the dialog closed |
| PromptDrafts.PromptsPage.HandleCreatePrompt | src/pages/user/Prompts.jsx:47-64 | one draft appended at the end and returned; the form resets and the dialog closes |
| PromptDrafts.PromptsPage.HandleSubmitForReview | src/pages/user/Prompts.jsx:66-74 | the form goes to the store as a pending record; the local drafts are unchanged; the form resets |

## Left out

- Browser storage is modelled as a field holding a copy of each collection. JSON serialisation and parsing are not modelled, and neither is the exception a corrupted value would raise.
- Dates are modelled as strings. After a reload, `submittedAt` comes back from storage as a string. The rendering calls `toLocaleDateString` on it, and that call is not modelled.
- Ids and times from `Date.now()` / `new Date()` are method parameters. Ids from `Date.now()` are not unique in general, and `createTeam` and `createUser` let a draft's id override the generated one. So updates and deletes act on every matching record, and lookups return the first match.
- The code does not restrict status transitions: any record can be reviewed again, with any status string, and `Submissions.UpdateStatus` models exactly that. `Submissions.NeverBackToPending` proves that a reviewed record stays non-pending as long as no review passes 'pending', which holds for the admin pages' own calls.
- The 1000 ms delay before a mock login is not modelled; each login is one step.
- The network request, JSON body and redirects of the delegated identity are not modelled. The fetch is an input: an answer with an optional principal, or a failure. `login` and `logout` of that variant are only redirects and are left out.
- `process.env.NODE_ENV` is a constructor parameter.
- Toasts, icons, colours, layout, and the `formatFileSize` helper (floating point) are not modelled.
- The `required` attributes on the user form's inputs are not modelled. They are browser validation, and the handlers accept whatever the form holds.
- Opening and closing dialogs through their own buttons, and typing into individual form fields, are not modelled. Those are single state setters.
- The React providers, the router, `App`, `Sidebar`, `DashboardLayout`, `AdminDashboard`, `ChatHistory`, `TeamManagement.jsx` and `Chat.jsx` are not part of this model. Chat's only behaviour is a timed reply.
- Strings.Lower: lowercases the ASCII capitals only. JavaScript's `toLowerCase` also maps non-ASCII letters, so non-ASCII names and emails are compared case-sensitively here.
- `Submissions.SubmissionsStore.Load` gives the state after both mount effects. It skips the first render, which briefly writes an empty list to storage.
- Records written by one variant and read by another (for example, a `dentsu_user` stored by the two-account login) are modelled as separate types. Loading a record of one shape into the other is not modelled.

# HCI collaboration hub: a verified model of its state and view logic

The HCI collaboration hub is a single-page project dashboard for student teams. It covers projects, a task board, shared files, a milestone timeline, team chat with a canned AI assistant, notifications and a profile page. All data lives in the top-level component. That component holds seven collections and offers a handler for each change. Each view derives what it shows from those collections and sends edits back through the handlers.

This project models that core in Dafny:

- `types.dfy` (module `Types`): the records, one datatype per interface. Each closed string union is an enumeration, together with its literal and the inverse of the literal.
- `store.dfy` (module `Store`): the entity store.
  - The class `EntityStore` holds the seven collections as `seq` fields, with one method per handler.
  - Each method states its whole new state as a function of the old state (`State() == old(State()).(field := ...)`), so nothing else changes.
  - The record builders, the shallow merge and the filter-by-id are functions.
  - Lemmas state their laws: defaults, idempotence, order preservation, the unread badge, and id reuse after a delete.
- `taskboard.dfy`, `dashboard.dfy`, `filesharing.dfy`, `notifications.dfy`, `chat.dfy`, `profile.dfy`, `timeline.dfy`: one module per view.
  - Each view's derived lists and guards are pure functions with lemmas.
  - Each view's own component state is a class whose methods delegate to the store.
- Helper modules:
  - `wrappers.dfy`: `Option`, which stands for an absent key or an unparsable value.
  - `text.dfy`: the string operations the views use. These are ASCII `toLowerCase`, `includes` with its reference meaning, `trim` over the ECMAScript white-space set, and `String(n)` with its inverse.
  - `seqs.dfy`: an order-preserving `Filter` and its laws, and `Count`, which is `filter(p).length`.

Three points about the code itself:

- **Record ids.** A new record's id is `String(length + 1)`, the collection's length plus one. So ids are not unique once a record has been deleted. Take a file list whose ids are still "1".."n", with at least two files. Deleting any file but the last and then uploading gives the new file the id "n", which the last file already carries. `Store.DeleteThenUploadCollides` proves this under exactly that condition (`SequentialIds`). The store keeps this behaviour.
- **Inputs from `Partial<T>`.** Keys a handler reads with `!` are mandatory fields of the input records. Keys it defaults with `||` are `Option` fields. JavaScript's `||` also replaces `""` and `0`, and `StrOr` and `NumOr` model that.
- **Undefined literal.** A `Partial<Message>` field copied as it is stays an `Option`.

The values the host supplies are parameters; nothing reads a clock, a date parser or the seed data:

- the ISO time `nowIso`, the millisecond clock `millis` and the current time `now`;
- the date parser `parse`, which returns `None` for an invalid date;
- the elapsed time passed to the time-label function;
- the seed data passed to `EntityStore`'s constructor.

## Model

| member | source | states |
|---|---|---|
| Types.ParseProjectStatus | src/types/index.ts:19 | reading a project status literal back gives a status whose literal is that string |
| Types.ParsePriority | src/types/index.ts:29 | reading a priority literal back gives a priority whose literal is that string |
| Types.ParseTaskStatus | src/types/index.ts:30 | reading a task status literal back gives a status whose literal is that string |
| Types.ParseNotificationType | src/types/index.ts:75 | reading a notification type literal back gives a type whose literal is that string |
| Types.ParseMilestoneStatus | src/types/index.ts:87 | reading a milestone status literal back gives a status whose literal is that string |
| Types.UnionsRoundTrip | src/types/index.ts:19-87 | every union literal reads back as the value it names, so each field holds exactly one admitted value |
| Types.SentinelsAreNotLiterals | src/components/Notifications.tsx:35-39 | the filter sentinels "all" and "unread" are never a status or type literal |
| Text.Lower | src/components/Dashboard.tsx:69-70 | `toLowerCase` keeps the length and maps each character through ASCII case folding |
| Text.LowerIdempotent | src/components/Dashboard.tsx:69-70 | lower-casing twice equals lower-casing once |
| Text.IncludesIff | src/components/Dashboard.tsx:69-70 | `includes` holds exactly when some window of the string equals the needle |
| Text.IncludesEmpty | src/components/FileSharing.tsx:60-62 | every string includes the empty query |
| Text.Includes | src/components/Dashboard.tsx:69-70 | `includes`: a direct recursive definition, characterised by `Text.IncludesIff` |
| Text.BlankIff | src/components/Chat.tsx:49 | `trim()` is empty exactly when every character is white space |
| Text.Trim | src/components/Chat.tsx:49 | `trim()` is never longer than its input, and a non-empty result starts and ends with a character that is not white space |
| Text.NatToString | src/App.tsx:93 | `String(n)` is a non-empty run of decimal digits without a leading zero |
| Text.NatToStringInjective | src/App.tsx:93 | distinct counts give distinct id strings, and equal strings come from equal counts |
| Text.ParseDigitsOfNatToString | src/App.tsx:93 | reading the digits of `String(n)` back gives `n` |
| Store.NextId | src/App.tsx:93 | a new id is a non-empty digit string that reads back as the count plus one |
| Store.NextIdInjective | src/App.tsx:93 | two counts give the same new id exactly when they are equal |
| Store.StrOr | src/App.tsx:109-110 | `s \|\| d` on a string takes `d` when the key is absent or the string is empty, else `s` |
| Store.NumOr | src/App.tsx:96 | `n \|\| d` on a number takes `d` when the key is absent or the number is 0, else `n` |
| Store.NewProject | src/App.tsx:91-101 | the new project's id is `String(count+1)`; progress defaults to 0, team to [], status to ongoing, createdAt to now; title, description and deadline are copied |
| Store.NewTask | src/App.tsx:105-118 | id `String(count+1)`; description defaults to "", projectId to "1", status to todo, and the three lists to []; mandatory fields are copied |
| Store.NewFile | src/App.tsx:128-139 | id `String(count+1)`; projectId defaults to "1", version to 1 (never 0), url to "#"; the other fields are copied |
| Store.NewMilestone | src/App.tsx:147-154 | id `String(count+1)`; title, week and status copied; projectId defaults to "1" |
| Store.NewMessage | src/App.tsx:158-168 | id `String(count+1)`; userId, text and timestamp copied; the four optional keys are copied as present or absent |
| Store.MergeTask | src/App.tsx:124 | `{...task, ...updates}`: each present key of the patch overrides the field, each absent key keeps it |
| Store.MergeTaskLaws | src/App.tsx:124 | the empty patch is the identity, and merging the same patch twice equals merging it once |
| Store.UpdateTasks | src/App.tsx:122-126 | the length is kept; tasks with the given id become the merged record and every other task is unchanged |
| Store.UpdateTasksAbsent | src/App.tsx:122-126 | an update whose id matches no task leaves the list equal to the old one |
| Store.MergeUser | src/App.tsx:188-190 | `{...currentUser, ...updates}` under the same merge rule as tasks |
| Store.MergeFullUserPatch | src/App.tsx:188-190 | a patch carrying every field replaces the user outright |
| Store.WithoutFile | src/App.tsx:143-145 | the result holds exactly the files whose id differs, with their multiplicities, in original order; an absent id changes nothing |
| Store.WithoutNotification | src/App.tsx:184-186 | the result holds exactly the notifications whose id differs, with their multiplicities, in original order; an absent id changes nothing |
| Store.MarkRead | src/App.tsx:172-178 | the length is kept; entries with the id get read = true and nothing else changes; other entries are unchanged |
| Store.MarkAllRead | src/App.tsx:180-182 | the length is kept; every entry gets read = true and no other field changes |
| Store.MarkAllReadIdempotent | src/App.tsx:180-182 | marking all read twice equals marking all read once |
| Store.UnreadCount | src/App.tsx:78 | the unread badge is at most the number of notifications |
| Store.UnreadWithId | src/App.tsx:78 | the number of unread entries carrying a given id is at most the total |
| Store.UnreadAfterMarkAll | src/App.tsx:180-182 | after mark-all the unread count is 0 |
| Store.UnreadAfterMarkRead | src/App.tsx:172-178 | mark-as-read lowers the unread count by exactly the number of unread entries with that id, which is at most the number of entries with that id |
| Store.UploadKeepsIdsSequential | src/App.tsx:128-141 | when no file has been deleted, ids stay `1..n`, and the new id is carried by no earlier file |
| Store.DeleteThenUploadCollides | src/App.tsx:128-145 | after deleting a non-last file the list is one shorter, still ends with the old last file, and the next upload gets that file's id |
| Store.EntityStore.constructor | src/App.tsx:68-75 | the store starts from the seed collections and user |
| Store.EntityStore.UnreadNotifications | src/App.tsx:78 | the derived badge never exceeds the notification count |
| Store.EntityStore.CreateProject | src/App.tsx:91-103 | appends exactly one built project at the end; every other collection is unchanged |
| Store.EntityStore.CreateTask | src/App.tsx:105-120 | appends exactly one built task at the end; every other collection is unchanged |
| Store.EntityStore.UpdateTask | src/App.tsx:122-126 | replaces the task list by the merged map; every other collection is unchanged |
| Store.EntityStore.UploadFile | src/App.tsx:128-141 | appends exactly one built file at the end; every other collection is unchanged |
| Store.EntityStore.DeleteFile | src/App.tsx:143-145 | the file list becomes the list without that id; every other collection is unchanged |
| Store.EntityStore.CreateMilestone | src/App.tsx:147-156 | appends exactly one built milestone at the end; every other collection is unchanged |
| Store.EntityStore.SendMessage | src/App.tsx:158-170 | appends exactly one built message at the end; every other collection is unchanged |
| Store.EntityStore.MarkAsRead | src/App.tsx:172-178 | notifications become the mark-read map, and the unread badge drops by the unread entries with that id; the rest is unchanged |
| Store.EntityStore.MarkAllAsRead | src/App.tsx:180-182 | notifications become all read and the badge is 0; the rest is unchanged |
| Store.EntityStore.DeleteNotification | src/App.tsx:184-186 | notifications lose that id; the rest is unchanged |
| Store.EntityStore.UpdateUser | src/App.tsx:188-190 | the current user becomes the merge; the rest is unchanged |
| TaskBoard.TasksByStatus | src/components/TaskBoard.tsx:69-78 | every task in a column has that status; exactly the tasks with that status that match the filter are kept, with their multiplicities, as a subsequence in order |
| TaskBoard.ButtonsSplit | src/components/TaskBoard.tsx:72-75 | the "all" button keeps every task; "my" keeps it exactly when the assignee is "1"; "team" exactly when it is not |
| TaskBoard.MyAndTeamSplitAll | src/components/TaskBoard.tsx:72-75 | in each column the "my" and "team" results are disjoint and together equal the "all" result as multisets |
| TaskBoard.ColumnsPartitionTasks | src/components/TaskBoard.tsx:63-78 | with "all", the three columns together hold every task exactly as often as the list does, so their lengths sum to the list's |
| TaskBoard.IsOverdue | src/components/TaskBoard.tsx:299-301 | overdue exactly when the due date parses, lies before now, and the task is not completed |
| TaskBoard.CompletedNeverOverdue | src/components/TaskBoard.tsx:299-301 | a completed task is never flagged overdue, whatever its date |
| TaskBoard.CompletedSubtasks | src/components/TaskBoard.tsx:368-373 | the done count is at most the subtask count, and equals it exactly when every subtask is completed |
| TaskBoard.ToggleSubtask | src/components/TaskBoard.tsx:120-122 | length and order are kept; subtasks with the id get their completed flag flipped and nothing else changes; siblings are unchanged |
| TaskBoard.ToggleTwiceRestores | src/components/TaskBoard.tsx:118-126 | toggling the same subtask twice restores the original list |
| TaskBoard.NewComment | src/components/TaskBoard.tsx:104-110 | the new comment is by user "1", carries the typed text and the ISO time, and its id is "c" followed by the millisecond clock in decimal |
| TaskBoard.NewCommentIdsDistinct | src/components/TaskBoard.tsx:106 | two comments get the same id exactly when they are posted at the same millisecond |
| TaskBoard.CommentsAfterPost | src/components/TaskBoard.tsx:101-111 | rejected exactly when the text is empty or no task is open; otherwise the old comments followed by one comment by user "1" with that text and time |
| TaskBoard.StatusChangeKeepsOtherFields | src/components/TaskBoard.tsx:575-577 | sending `{status}` changes only the status; a task moved to completed is not overdue |
| TaskBoard.SelectedCopyMatchesStore | src/components/TaskBoard.tsx:112-113 | the dialog's updated copy of the open task is an element of the store's updated list |
| TaskBoard.SubmittedTask | src/components/TaskBoard.tsx:80-89 | submits exactly when title, assignee and due date are non-empty, with status todo, project "1", empty lists and the draft's fields |
| TaskBoard.SubmittedTaskStored | src/components/TaskBoard.tsx:80-89 | a submitted draft is stored as a todo task of project "1" with empty lists and the draft's description |
| TaskBoard.TaskBoardView.constructor | src/components/TaskBoard.tsx:51-61 | filter "all", no dialog, no task open, the empty draft with priority medium, empty comment box |
| TaskBoard.TaskBoardView.SetDialogOpen | src/components/TaskBoard.tsx:152 | the create dialog's open flag takes the given value; filter, open task, draft and comment input are unchanged |
| TaskBoard.TaskBoardView.CreateTask | src/components/TaskBoard.tsx:80-99 | when the guard passes, one task is appended to the store, the dialog closes and the draft resets; otherwise nothing changes |
| TaskBoard.TaskBoardView.AddComment | src/components/TaskBoard.tsx:101-116 | when accepted, the store and the open copy receive the same comment list and the box clears; otherwise nothing changes |
| TaskBoard.TaskBoardView.ToggleSubtaskOf | src/components/TaskBoard.tsx:118-126 | with a task open, the store and the open copy receive the same toggled list; with none, nothing changes |
| TaskBoard.TaskBoardView.ChangeStatus | src/components/TaskBoard.tsx:575-577 | the store receives only the status, and the open copy takes the same status |
| TaskBoard.TaskBoardView.SelectTask | src/components/TaskBoard.tsx:312 | clicking a card opens that task; the filter, the dialog flag, the draft and the comment input are unchanged |
| TaskBoard.TaskBoardView.CloseTask | src/components/TaskBoard.tsx:406 | closing the dialog leaves no task open; every other field is unchanged |
| Dashboard.FilterProjects | src/components/Dashboard.tsx:67-74 | a project is kept exactly when its lower-cased title or description includes the lower-cased query and the filter is "all" or its status; multiplicities and order are kept |
| Dashboard.EmptySearchShowsAll | src/components/Dashboard.tsx:67-74 | the empty query with "all" lists every project |
| Dashboard.StatusFilterExcludes | src/components/Dashboard.tsx:71-72 | under a status filter, a project of another status is never shown, whatever the query |
| Dashboard.HealthSearchExample | src/components/Dashboard.tsx:67-74 | of "AI-Powered Healthcare App" and "E-Commerce Platform", the query "health" keeps only the first |
| Dashboard.IsOverdue | src/components/Dashboard.tsx:196-198 | overdue exactly when the deadline parses, lies before now, and the project is not completed |
| Dashboard.CompletedProjectNeverOverdue | src/components/Dashboard.tsx:196-198 | a completed project is never flagged overdue |
| Dashboard.FindUser | src/components/Dashboard.tsx:91 | `find` returns the first user in the list with that id, and nothing exactly when no user has it |
| Dashboard.TeamAvatars | src/components/Dashboard.tsx:89-93 | the avatar ids are exactly the team ids that name a known user, in team order, and each avatar is the user `find` returns for its id |
| Dashboard.TeamAvatarsLaws | src/components/Dashboard.tsx:89-93 | at most one avatar per team id, each on the team and known; when every id is known, the ids are the team |
| Dashboard.ShownAvatars | src/components/Dashboard.tsx:273 | `slice(0, 3)`: the whole team when it has at most three members, otherwise exactly the first three |
| Dashboard.OverflowChip | src/components/Dashboard.tsx:287-289 | the "+n" chip appears exactly when there are more than three members, and then n is the member count minus three, so the shown avatars and n add up to the team |
| Dashboard.SubmittedProject | src/components/Dashboard.tsx:76-83 | submits exactly when title and deadline are non-empty (the description may be empty), with progress 0, status ongoing and the current time |
| Dashboard.SubmittedProjectStored | src/components/Dashboard.tsx:76-83 | a submitted draft is stored as an ongoing project at 0 % with the draft's team |
| Dashboard.DashboardView.constructor | src/components/Dashboard.tsx:57-65 | empty search, filter "all", no dialog, empty draft |
| Dashboard.DashboardView.SetDialogOpen | src/components/Dashboard.tsx:105 | the dialog's open flag takes the given value; search, filter and draft are unchanged |
| Dashboard.DashboardView.CreateProject | src/components/Dashboard.tsx:76-87 | when the guard passes, one project is appended to the store, the dialog closes and the draft resets; otherwise nothing changes |
| FileSharing.FilterFiles | src/components/FileSharing.tsx:59-65 | a file is kept exactly when its lower-cased name includes the lower-cased query and the type filter is "all" or its type; multiplicities and order are kept |
| FileSharing.PdfFilterIsExactlyPdfs | src/components/FileSharing.tsx:63 | the empty query with type "pdf" gives exactly the pdf files, in order |
| FileSharing.LastSegmentSuffix | src/components/FileSharing.tsx:80 | `split(".").pop()` is a dot-free suffix of the name, preceded by a dot unless it is the whole name |
| FileSharing.LastSegment | src/components/FileSharing.tsx:80 | `split(".").pop()` is never longer than the name |
| FileSharing.LastSegmentShape | src/components/FileSharing.tsx:80 | without a dot the segment is the name; with one it is exactly the text after the last dot |
| FileSharing.Extension | src/components/FileSharing.tsx:80 | the `\|\| "file"` default makes the extension never empty |
| FileSharing.ExtensionShape | src/components/FileSharing.tsx:80 | the whole name when there is no dot; "file" for an empty name or one ending in "."; otherwise exactly the text after the last dot |
| FileSharing.LastSegmentSnoc | src/components/FileSharing.tsx:80 | a trailing dot empties the last segment; any other character extends it |
| FileSharing.PdfExtension | src/components/FileSharing.tsx:80 | "report.final.pdf" gives "pdf" |
| FileSharing.DotlessExtension | src/components/FileSharing.tsx:80 | "README" gives "README" |
| FileSharing.TrailingDotExtension | src/components/FileSharing.tsx:80 | "draft." gives "file" |
| FileSharing.UploadedFile | src/components/FileSharing.tsx:81-90 | the metadata carries the name, its extension, the size label, uploader "1", project "1", version 1 and url "#" |
| FileSharing.UploadedFileStored | src/components/FileSharing.tsx:81-90 | the stored file has uploader "1", project "1", version 1, url "#" and id `String(count+1)` |
| FileSharing.Step | src/components/FileSharing.tsx:76-93 | one tick uploads exactly when the bar is at 100 or more, and then resets it to 0; otherwise it adds 10 |
| FileSharing.Run | src/components/FileSharing.tsx:74-97 | after n ticks, either an upload happened and the bar is 0, or none did and the bar rose by 10·n |
| FileSharing.RunWithoutUpload | src/components/FileSharing.tsx:74-97 | while the bar has room, n ticks raise it by 10·n and upload nothing |
| FileSharing.RunAfter | src/components/FileSharing.tsx:76-93 | the tick after the bar reaches 100 uploads and resets it to 0 |
| FileSharing.UploadOnEleventhTick | src/components/FileSharing.tsx:74-97 | from 0, ticks 1 to 10 only raise the bar, and the eleventh uploads |
| FileSharing.FileSharingView.constructor | src/components/FileSharing.tsx:53-57 | empty search, type "all", not uploading, progress 0 |
| FileSharing.FileSharingView.StartUpload | src/components/FileSharing.tsx:67-72 | picking a file starts uploading at progress 0 |
| FileSharing.FileSharingView.Tick | src/components/FileSharing.tsx:74-97 | one interval firing: below 100 it adds 10; at 100 it appends one file to the store, stops and resets; after the interval is cleared it does nothing |
| FileSharing.FileSharingView.Delete | src/components/FileSharing.tsx:101-104 | the store's file list loses that id |
| Notifications.FilterNotifications | src/components/Notifications.tsx:35-39 | an entry is kept exactly as the tab says ("unread" first, then "all", then the type); multiplicities and order are kept |
| Notifications.AllTabShowsEverything | src/components/Notifications.tsx:37 | the "all" tab lists every notification in order |
| Notifications.UnreadTabIsUnread | src/components/Notifications.tsx:36 | the "unread" tab is exactly the unread entries, and its length is the unread count |
| Notifications.TypeTabIsType | src/components/Notifications.tsx:38 | a type tab is exactly the entries of that type, in order |
| Notifications.UnknownTabIsEmpty | src/components/Notifications.tsx:35-39 | a tab value that is neither a sentinel nor a type shows nothing |
| Notifications.TypeCount | src/components/Notifications.tsx:134 | a per-type counter never exceeds the total |
| Notifications.TypeCountsSum | src/components/Notifications.tsx:134-167 | the four per-type counters sum to the number of notifications |
| Notifications.Bucket | src/components/Notifications.tsx:73-89 | under one hour gives minutes (floor, below 60), under 24 hours gives hours 1 to 23 (floor), under 48 hours gives Yesterday, otherwise or for an invalid date the date |
| Notifications.AgeLabel | src/components/Notifications.tsx:84-88 | minutes give the number followed by " minutes ago", hours the number followed by " hours ago", one day "Yesterday", and older the locale date text |
| Notifications.FirstMinuteLabel | src/components/Notifications.tsx:80-84 | 59 999 ms reads "0 minutes ago" |
| Notifications.FutureLabel | src/components/Notifications.tsx:80-84 | a timestamp 1 ms in the future reads "-1 minutes ago" |
| Notifications.FirstHourLabel | src/components/Notifications.tsx:76-86 | exactly one hour reads "1 hours ago" |
| Notifications.HeaderText | src/components/Notifications.tsx:108-112 | the caught-up text exactly when nothing is unread; otherwise it starts with the count and ends in "s" exactly when the count exceeds 1 |
| Notifications.ShowsMarkAll | src/components/Notifications.tsx:115 | the mark-all button shows exactly when some notification is unread |
| Notifications.ClickTarget | src/components/Notifications.tsx:254-256 | a click asks to mark read exactly when the entry is unread, and then for its id |
| Notifications.ClickLowersBadge | src/components/Notifications.tsx:254-256 | clicking a listed unread entry lowers the unread count by at least one |
| Notifications.NotificationsView.constructor | src/components/Notifications.tsx:33 | the tab starts at "all" |
| Notifications.NotificationsView.SelectTab | src/components/Notifications.tsx:175 | selecting a tab sets the filter |
| Notifications.NotificationsView.Click | src/components/Notifications.tsx:254-256 | a read entry leaves the store unchanged; an unread one marks its id read |
| Notifications.NotificationsView.MarkAllAsRead | src/components/Notifications.tsx:91-94 | everything becomes read and the badge is 0 |
| Notifications.NotificationsView.Delete | src/components/Notifications.tsx:96-99 | the store loses every notification with that id |
| Chat.OutgoingMessage | src/components/Chat.tsx:48-55 | sent exactly when some character is not white space; the text is kept untrimmed, under the given user id and time, with no optional keys |
| Chat.OnlineCount | src/components/Chat.tsx:127 | at most the number of users, and equal to it exactly when all are online |
| Chat.Classify | src/components/Chat.tsx:71-85 | on the lower-cased query: tasks when it has "task" or "due"; else status for "progress" or "status"; else suggestions for "deadline" or "suggest"; else help |
| Chat.Response | src/components/Chat.tsx:73-85 | every canned reply is non-empty |
| Chat.RepliesDistinct | src/components/Chat.tsx:73-85 | two branches give the same reply exactly when they are the same branch |
| Chat.TaskBeatsStatus | src/components/Chat.tsx:73-78 | a query with both "task" and "status" gets the tasks reply |
| Chat.HelpExamplesRoute | src/components/Chat.tsx:84 | the help text's two example questions reach the tasks and the status branch |
| Chat.RoleCountAppend | src/components/Chat.tsx:65 | appending an entry raises its role's count by one and leaves the other's |
| Chat.ChatView.constructor | src/components/Chat.tsx:35-41 | empty inputs, no assistant entries, nobody typing, no reply pending |
| Chat.ChatView.SendMessage | src/components/Chat.tsx:48-61 | a non-blank draft appends one message by the current user to the store, clears the box and shows user "2" typing; a blank one changes nothing |
| Chat.ChatView.TypingTimeout | src/components/Chat.tsx:59 | the typing indicator clears |
| Chat.ChatView.ToggleAiChat | src/components/Chat.tsx:133 | the assistant panel toggles |
| Chat.ChatView.AskAi | src/components/Chat.tsx:63-66 | a non-blank question is appended as a user entry and its reply is scheduled; a blank one changes nothing; every question stays answered or pending |
| Chat.ChatView.ReplyTimerFires | src/components/Chat.tsx:69-88 | the oldest pending question gets exactly one assistant entry at the end, chosen by the classifier on the text it closed over |
| Chat.AnsweredWhenIdle | src/components/Chat.tsx:63-90 | once no reply is pending, there are as many assistant entries as questions |
| Profile.PasswordCheck | src/components/Profile.tsx:61-72 | mismatch exactly when new and confirm differ; too short exactly when they agree and have fewer than 8 characters; changed otherwise |
| Profile.MismatchReportedFirst | src/components/Profile.tsx:62-66 | a mismatch is reported even when the password is also too short |
| Profile.LengthBoundary | src/components/Profile.tsx:66 | 8 characters is accepted, 7 is not |
| Profile.CurrentPasswordIgnored | src/components/Profile.tsx:61-72 | the current-password field never affects the outcome |
| Profile.WithField | src/components/Profile.tsx:235-300 | the edited input shows the new value; every other input, the id, the avatar and the online flag are kept |
| Profile.ProfileView.constructor | src/components/Profile.tsx:32-48 | the draft starts as the user; not editing; empty password form |
| Profile.ProfileView.StartEditing | src/components/Profile.tsx:205 | editing starts; nothing else changes |
| Profile.ProfileView.EditField | src/components/Profile.tsx:235-300 | the draft takes the typed value in that field |
| Profile.ProfileView.SaveProfile | src/components/Profile.tsx:50-54 | the whole draft goes to the store, whose user then equals the draft; editing ends |
| Profile.ProfileView.CancelEdit | src/components/Profile.tsx:56-59 | the draft becomes the store's current user, editing ends, the password form is kept, and the store is unchanged |
| Profile.ProfileView.EditPassword | src/components/Profile.tsx:373-405 | the password form takes the typed values |
| Profile.ProfileView.ChangePassword | src/components/Profile.tsx:61-72 | returns the check's outcome; only a successful change clears all three fields |
| Timeline.CompletedCount | src/components/Timeline.tsx:186 | at most the milestone count; equal to it exactly when all are completed; 0 exactly when none is |
| Timeline.ProgressPercent | src/components/Timeline.tsx:81-86 | undefined exactly for an empty list; otherwise between 0 and 100, 100 exactly when all are completed and 0 exactly when none is |
| Timeline.Round | src/components/Timeline.tsx:191 | `Math.round` gives the integer within half of the value, halves rounding up |
| Timeline.DisplayedPercent | src/components/Timeline.tsx:191 | the shown whole percentage lies in 0..100; it is 100 when all are completed and 0 when none is |
| Timeline.ClassifyWeek | src/components/Timeline.tsx:215-221 | a header is current exactly at the current week, past exactly before it, future exactly after it |
| Timeline.Headers | src/components/Timeline.tsx:211 | one header per week 1..total, each classified against the current week |
| Timeline.HeaderCounts | src/components/Timeline.tsx:211-221 | with the current week inside the plan, exactly one header is current, `current-1` are past and the rest are future |
| Timeline.BeforeCurrent | src/components/Timeline.tsx:215-221 | when every week lies before the current one, all headers are past |
| Timeline.ShownHeaders | src/components/Timeline.tsx:41-42 | for week 5 of 10: one current, four past, five future headers |
| Timeline.Position | src/components/Timeline.tsx:237 | weeks 1 to 10 sit between 0 % and 90 %, week 1 at 0 % |
| Timeline.PositionSteps | src/components/Timeline.tsx:237 | each later week sits 10 points further right |
| Timeline.SubmittedMilestone | src/components/Timeline.tsx:44-49 | submits exactly when the title is non-empty and the week is not 0, with project "1" and the draft's fields |
| Timeline.SubmittedMilestoneStored | src/components/Timeline.tsx:44-49 | the stored milestone belongs to project "1" with the draft's title, week and status |
| Timeline.TimelineView.constructor | src/components/Timeline.tsx:34-39 | no dialog; the draft is title "", week 1, pending |
| Timeline.TimelineView.SetDialogOpen | src/components/Timeline.tsx:96 | the dialog's open flag takes the given value; the draft is unchanged |
| Timeline.TimelineView.EditDraft | src/components/Timeline.tsx:115-155 | the draft takes the entered values |
| Timeline.TimelineView.CreateMilestone | src/components/Timeline.tsx:44-53 | when the guard passes, one milestone is appended to the store, the dialog closes and the draft resets to "", 1, pending; otherwise nothing changes |

## Left out

- Rendering: JSX, styling classes, icon and colour switches (`getPriorityColor`, `getStatusColor`, `getNotificationIcon` and the like), framer-motion animation and sonner toasts. They are presentation only.
- Timers are not scheduled: an upload interval, a reply timeout and a typing timeout each become a method the caller invokes when the timer would fire.
  - Two uploads running at once are not modelled; the view holds one picked file.
  - Reply timers fire oldest first, as their equal delays imply.
- React's stale closures and batched `setState` are not modelled; each handler is one atomic step on the store.
- `handlePhotoUpload` (src/components/Profile.tsx:74-87) is left out: it depends on the browser's `FileReader`.
- `new Date()`, `Date.now()`, `toISOString()` and `toLocale*String` are not modelled: clock and locale values are parameters, and the date text of an old notification is opaque.
- The file size label `(size/1024/1024).toFixed(1)` is left out: it is a floating-point rendering, so the label is a parameter.
- Notifications.Bucket: takes the integer millisecond difference, so the floating-point division inside `Math.floor` is exact here.
- Timeline.ProgressPercent: computes in exact rational arithmetic, not IEEE doubles. For an empty list the source shows NaN; the model says `None`.
- Timeline.DisplayedPercent: rounds the exact ratio, so where that ratio times 100 is an exact half the shown number can be one higher than the browser's. For 23 of 40 completed, the double product is 57.49999999999999 and the page shows 57 %, while the model gives 58. The range 0..100 and the ends 0 and 100 hold either way, since those products are exact in IEEE doubles.
- `toLowerCase` folds only the ASCII letters A to Z.
- String lengths are counted in code points, not UTF-16 units, so the 8-character password rule differs for characters outside the Basic Multilingual Plane.
- The input records make the `!` keys mandatory. When a caller leaves such a key out, the source would store `undefined`; that case is not modelled.
- A milestone week that `parseInt` turns into NaN is not modelled; the week selector only offers 1 to 10.
- The week of a milestone is not checked against the plan; the position range is stated for weeks 1 to 10 only.
- `src/components/ui/chart.tsx` is not part of this model: it wraps a charting library.
- `src/index.tsx` is not part of this model: it only boots the page.
- The mock seed data is not part of this model; the store's constructor takes any seed.
- `handleReaction` in src/components/Chat.tsx has an empty body and changes nothing.

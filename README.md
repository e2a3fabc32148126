# UniMind: a verified model of the app's sequential cores

UniMind is a React/TypeScript mental-health companion web app. It has a
therapy chat backed by a remote conversation service, a mood tracker, a
journal, breathing exercises, a resource library, a crisis modal, an
animated "companion" page and an account settings page. Most of it is
rendering and calls to remote services. Underneath sit several small pieces
of sequential logic with clear rules, and this project models those pieces
in Dafny and proves their rules:

- the chat store: an ordered list of chats, the chat on screen, the settings
  and the sidebar flag (`chat_store.dfy`, types in `chat_types.dfy`);
- the therapy service client, whose one `sessionId` field routes each
  message to "start" or "continue" (`llm_service.dfy`);
- the chat page's send sequence, which combines the two (`chat_page.dfy`);
- the mood tracker: streaks, the "logged today" check, chart buckets and
  averages, and the submit guard (`mood_tracker.dfy`);
- the breathing exercise table and the timer that runs it
  (`breathing_exercises.dfy`, `breathing_timer.dfy`);
- the two resource pages: category list, filter, search selection and
  group-by-category (`resource_page.dfy`, `resources_page.dfy`, record in
  `resource_entry.dfy`);
- the crisis modal's view state and its sub-screen choice (`crisis_button.dfy`);
- the settings page's account-update logic and profile-load defaults
  (`settings_page.dfy`);
- the companion page's animation phases, visibility rules and toggles
  (`companion_page.dfy`);
- the two message inputs, which share one submit rule
  (`message_draft.dfy`, `message_input_component.dfy`, `message_input_page.dfy`);
- the journal entry form (`journal_form.dfy`).

`wrappers.dfy` (Option, Result), `text.dfy` (JavaScript's `trim`, ASCII
`toLowerCase`, `includes`, and `length` and `slice` counted in UTF-16 code units) and `seqs.dfy` (`filter`, the order of a
`Set` built from a list) are shared helpers.

Components whose fields change in place become classes. Each class method
is specified against a pure function of the old state: for example
`State() == Handle(old(State()), e)`. The rules are then proved as lemmas
about that function. Pure code (the exercise table, the filters, the chart
helpers) becomes functions and lemmas.

The environment is modelled by parameters:

- Times are integers: milliseconds for mood entries, abstract stamps for
  chats.
- Fresh `crypto.randomUUID()` values are passed in as non-empty strings.
- Each server reply (therapy service, authentication server, profile query,
  mood queries) is an input value.
- `isValidPhoneNumber` is a function parameter.
- Per-frame camera distance tests are booleans.
- Timers are a `Tick` method, one call per second.

## Model

| member | source | states |
|---|---|---|
| ChatStore.ChatTitle | src/store/index.ts:47 | a missing or empty title becomes "New Conversation"; any other title is kept (the ensures spell out the `||` case by case; its uses in the store lemmas carry the weight) |
| ChatStore.AutoTitleSpec | src/store/index.ts:72-75 | about `AutoTitle`, the title from a first user message; lengths are UTF-16 code units, as `length` and `slice` count them: content of at most 50 units is the title itself; longer content gives its longest prefix within 50 units (exactly 50, or 49 when the next character is a surrogate pair) followed by "..." |
| ChatStore.AutoTitleOfPlainText | src/store/index.ts:74 | for text inside the Basic Multilingual Plane the title is the first 50 characters, with "..." exactly when the content is longer |
| Text.Prefix | src/store/index.ts:74 | `slice(0, n)`: a prefix of the string within `n` code units, the whole string when it fits, and otherwise as long as possible (it falls one unit short only before a surrogate pair) |
| ChatStore.WithMessageSpec | src/store/index.ts:67-89 | about `WithMessage`, the update `addMessage` applies to one chat: the message goes last. The title changes only for a first message from the user, and then becomes the auto title. The session id is replaced only when the message carries a non-empty one. Id, creation time and therapy flag are kept |
| ChatStore.ApplyPatch | src/store/index.ts:114 | each patched key overrides the chat's field, each absent key keeps it, and the update time is always stamped (the ensures follow the spread field by field; EmptyPatchOnlyStamps and the UpdateChat method are what use them) |
| ChatStore.EmptyPatchOnlyStamps | src/store/index.ts:113-120 | a patch with no keys changes nothing but the update time |
| ChatStore.MergeSettingsSpec | src/store/index.ts:152-156 | about `MergeSettings`, the spread of `updateSettings`: merging overwrites exactly the keys given and keeps the others; merging the same patch twice equals merging it once |
| ChatStore.AddToMatching | src/store/index.ts:67-99 | same length; each chat with the id gets the message appended and every other chat is unchanged, in place (pointwise, close to the `map`; the work is in WithMessageSpec, LastWithId and the send lemmas) |
| ChatStore.PatchMatching | src/store/index.ts:113-115 | same length; each chat with the id is patched and every other chat is unchanged, in place (pointwise, close to the `map`; the work is in ApplyPatch's lemma and the UpdateChat method) |
| ChatStore.LastWithId | src/store/index.ts:91-94 | the chat that ends up current is the last chat in the list with the id; none exactly when no chat has the id |
| ChatStore.DeleteSpec | src/store/index.ts:135 | about `WithoutId`, the `filter` of `deleteChat`: deletion removes every chat with the id and keeps every occurrence of every other chat (multiset counts), in its original order, and changes nothing when no chat has the id |
| ChatStore.Store.constructor | src/store/index.ts:19-32 | sidebar open, no chats, no current chat, dark mode and notifications on, endpoint from the environment or "http://localhost:8000" |
| ChatStore.Store.ToggleSidebarCollapse | src/store/index.ts:20-21 | flips the sidebar flag and changes nothing else |
| ChatStore.Store.SetCurrentChat | src/store/index.ts:35-42 | sets the current chat; resets the service session exactly when the chat is absent or has no session id |
| ChatStore.Store.CreateNewChat | src/store/index.ts:44-63 | prepends one chat with no messages and no session id, keeps the other chats in order, makes the new chat current, resets the session |
| ChatStore.Store.AddMessage | src/store/index.ts:65-103 | the list becomes AddToMatching of the old list; the current chat becomes the updated copy of the last matching chat when its id matches |
| ChatStore.Store.AddChat | src/store/index.ts:105-109 | prepends the chat as given and leaves the current chat alone |
| ChatStore.Store.UpdateChat | src/store/index.ts:111-127 | patches every matching chat, and the current chat separately when its id matches; settings and sidebar untouched |
| ChatStore.Store.RenameChat | src/store/index.ts:129-131 | only matching chats, and the current chat when it matches, get the new title and a new update time |
| ChatStore.Store.DeleteChat | src/store/index.ts:133-150 | removes matching chats; clears the current chat and resets the session exactly when the current chat was the deleted one |
| ChatStore.Store.UpdateSettings | src/store/index.ts:152-156 | settings become the merge of old settings and the patch; nothing else changes |
| LlmService.ReplyMessage | src/services/llmService.ts:57-68 | the reply is an assistant message with the server's text and the four metadata fields copied |
| LlmService.Route | src/services/llmService.ts:168-174 | continue exactly when the history is longer or shorter than one message and a non-empty session id is stored; start otherwise |
| LlmService.TherapyAPIService.constructor | src/services/llmService.ts:25 | a fresh service has no session |
| LlmService.TherapyAPIService.GetSessionId | src/services/llmService.ts:145-147 | returns the stored session |
| LlmService.TherapyAPIService.ResetSession | src/services/llmService.ts:149-151 | the session becomes null |
| LlmService.TherapyAPIService.StartConversation | src/services/llmService.ts:32-73 | an accepted reply stores its session id and yields the reply message; a network failure, a non-ok status or `success:false` yields the one fixed failure text and leaves the session unchanged |
| LlmService.TherapyAPIService.ContinueConversation | src/services/llmService.ts:75-118 | without a session it fails with "No active session..." and sends nothing; otherwise it sends the stored id, never changes the session, and reports failures with its fixed text |
| LlmService.RespondSpec | src/services/llmService.ts:158-175 | a history not ending in a user message is rejected with no request and no session change; a reply is an assistant message with copied metadata; continuing or failing never changes the session; every start failure has the fixed text |
| LlmService.GenerateResponse | src/services/llmService.ts:158-175 | the result, the request sent and the new session are Respond, RequestSent and SessionAfter of the old session |
| ChatPage.SendWhileLoadingIsNoOp | src/pages/ChatPage.tsx:37 | a send while loading changes nothing and calls nothing |
| ChatPage.HistoryEndsWithUserMessage | src/pages/ChatPage.tsx:54-67 | the history handed to the service is the open chat's messages followed by the new user message, so it is well formed |
| ChatPage.SendAppendsTwoMessages | src/pages/ChatPage.tsx:60-92 | every chat with the send's id gets exactly two messages, the user's then the reply; on failure the second is a `systemError` apology carrying the error text, which also fills the banner; other chats are untouched |
| ChatPage.SendWithoutChatCreatesOne | src/pages/ChatPage.tsx:43-68 | with no chat open, a chat is created at the head of the list, gets both messages and the first message as its title, and becomes current; the history sent is the user message alone, so the request is a start request for the content, and the stored session is the reply's when accepted and none otherwise |
| ChatPage.FailedSendBannerClearedAsWritten | src/pages/ChatPage.tsx:32-34 | as written, the banner a failed send sets is cleared by the effect on the current chat |
| ChatPage.FailedSendBannerKept | src/pages/ChatPage.tsx:32-34 | keyed on the chat id, the effect keeps the banner |
| ChatPage.ChatPage.constructor | src/pages/ChatPage.tsx:19-20 | not loading, no banner |
| ChatPage.ChatPage.HandleSendMessage | src/pages/ChatPage.tsx:36-100 | store chats, current chat, session, banner and history all equal SendSpec of the old state; the loading flag ends as it started (a send that runs sets it and resets it); settings and sidebar are untouched |
| ChatPage.ChatPage.OnCurrentChatChanged | src/pages/ChatPage.tsx:32-34 | the banner becomes ErrorAfterChatEffect: cleared when the current chat's id differs from the one before, kept otherwise (the corrected effect) |
| MoodTracker.SortNewestFirst | src/pages/MoodTrackerPage.tsx:104-106 | the sorted list is a permutation of the entries, newest first |
| MoodTracker.DaysNonIncreasing | src/pages/MoodTrackerPage.tsx:104-106 | the days of the sorted entries never increase |
| MoodTracker.CalculateStreaks | src/pages/MoodTrackerPage.tsx:99-135 | returns the current streak, the longest run of consecutive days, and the reported longest streak `max(run, current)` |
| MoodTracker.LeadingStreak | src/pages/MoodTrackerPage.tsx:108-118 | the result counts the leading entries whose day is today minus their index, stopping at the first mismatch |
| MoodTracker.LongestChain | src/pages/MoodTrackerPage.tsx:120-131 | the result is the length of the longest run of neighbours one day apart (0 when no two are) |
| MoodTracker.CurrentStreakZero | src/pages/MoodTrackerPage.tsx:108-118 | the current streak is 0 exactly when there are no entries or the newest is not from today, and it never exceeds the number of entries |
| MoodTracker.StreaksUnique | src/pages/MoodTrackerPage.tsx:108-131 | the two streak specifications each determine a single value |
| MoodTracker.LongestCoversCurrent | src/pages/MoodTrackerPage.tsx:134 | a current streak of two or more is already a run the second loop sees, and the reported longest covers the current streak |
| MoodTracker.SameDayBreaksChain | src/pages/MoodTrackerPage.tsx:125-130 | two entries on the same day never sit inside one run |
| MoodTracker.TodayEntry | src/pages/MoodTrackerPage.tsx:92-97 | an entry is found exactly when some entry falls on today, and the one found does |
| MoodTracker.WeekStart | src/pages/MoodTrackerPage.tsx:215 | the Monday on or before the day, less than a week before it |
| MoodTracker.WeekBucketsSpec | src/pages/MoodTrackerPage.tsx:214-219 | about `Buckets`, the period switch of `getTimeRangeData` with `getChartData`'s bucket ends, for the week: the week view has 7 one-day buckets, Monday to Sunday, one of them today |
| MoodTracker.MonthBuckets | src/pages/MoodTrackerPage.tsx:234-248 | one bucket per month start: bucket `i` is labelled with the `i`-th month start, starts at its midnight and ends at the next month start's midnight |
| MoodTracker.MonthBucketsTile | src/pages/MoodTrackerPage.tsx:270-279 | for increasing month starts, consecutive buckets meet (each ends where the next starts), each is non-empty, and every instant from the first month start to the day after the view lies in some bucket |
| MoodTracker.MonthBucketsSpec | src/pages/MoodTrackerPage.tsx:222-231 | about `Buckets` for the month: the month view always has 7 points, evenly spaced from the start of the month 29 days ago, none after today |
| MoodTracker.Average | src/pages/MoodTrackerPage.tsx:282-285 | the average is null exactly for an empty bucket |
| MoodTracker.AverageBetweenMinAndMax | src/pages/MoodTrackerPage.tsx:277-285 | a non-empty bucket's average lies between its lowest and highest rating |
| MoodTracker.ChartData | src/pages/MoodTrackerPage.tsx:267-292 | one chart point per time point, each the average of its bucket (the ensures follow the `map`; ChartPointSpec states what a point means) |
| MoodTracker.ChartPointSpec | src/pages/MoodTrackerPage.tsx:277-289 | a point's mood is null exactly when no entry lies in its closed interval; otherwise it lies between the bucket's min and max |
| MoodTracker.MidnightEntryCountsTwice | src/pages/MoodTrackerPage.tsx:273-280 | with both ends closed, an entry at midnight counts in both neighbouring day buckets |
| MoodTracker.NormalizeNoteSpec | src/pages/MoodTrackerPage.tsx:164 | the note is stored trimmed, and stored as null exactly when it is all white space |
| MoodTracker.InsertFor | src/pages/MoodTrackerPage.tsx:154-165 | a row is inserted exactly when a mood is selected and a user is signed in, with the user's id, the mood and the normalised note |
| MoodTracker.MoodTrackerPage.constructor | src/pages/MoodTrackerPage.tsx:71-79 | no entries, nothing selected, loading, zero streaks |
| MoodTracker.MoodTrackerPage.ApplyFetch | src/pages/MoodTrackerPage.tsx:137-152 | a loaded list replaces the entries, and a non-empty one makes streaks and today flag agree with it; a failure keeps the entries and sets "Failed to load mood entries"; loading ends either way |
| MoodTracker.MoodTrackerPage.SubmitMood | src/pages/MoodTrackerPage.tsx:154-176 | nothing happens without a selected mood; a missing user or failed insert sets "Failed to save mood entry" and keeps the form; a success clears the form and refetches |
| BreathingExercises.ExercisesWellFormed | src/components/BreathingExerciseSelectionScreen.tsx:17-63 | four exercises with distinct ids, each with at least one phase, positive durations, and an inhale first |
| BreathingExercises.DurationsMatchDescriptions | src/components/BreathingExerciseSelectionScreen.tsx:18-61 | box is 4-4-4-4, 4-7-8 is 4, 7, 8; diaphragmatic 4-2-4; focus 5-2-5 |
| BreathingTimer.PhaseStep | src/components/BreathingExerciseActiveScreen.tsx:50-57 | the phase index stays in range |
| BreathingTimer.TickPreservesValid | src/components/BreathingExerciseActiveScreen.tsx:37-62 | each second keeps the countdown in 0..3, the index in range and, after the start, 1 <= seconds left <= the phase's duration |
| BreathingTimer.CountdownThenStart | src/components/BreathingExerciseActiveScreen.tsx:37-44 | the countdown shows 3, 2, 1, and the third second starts phase 0 with its full duration |
| BreathingTimer.StartedStaysStarted | src/components/BreathingExerciseActiveScreen.tsx:41-43 | once started the exercise stays started, so it starts exactly once |
| BreathingTimer.PhaseRunsOut | src/components/BreathingExerciseActiveScreen.tsx:50-57 | the remaining seconds of a phase lead to the next phase (wrapping after the last) with its full duration |
| BreathingTimer.FullCycle | src/components/BreathingExerciseActiveScreen.tsx:49-59 | after the sum of all durations the timer is back at phase 0 with its full duration |
| BreathingTimer.TableExercisesRunnable | src/components/BreathingExerciseActiveScreen.tsx:34 | every exercise of the table has the `phases[0]` the timer reads and satisfies the timer's bounds |
| BreathingTimer.Timer.constructor | src/components/BreathingExerciseActiveScreen.tsx:26-29 | countdown 3, not started, phase 0, 0 seconds |
| BreathingTimer.Timer.StartExercise | src/components/BreathingExerciseActiveScreen.tsx:31-35 | started at phase 0 with phase 0's duration |
| BreathingTimer.Timer.Tick | src/components/BreathingExerciseActiveScreen.tsx:37-62 | the new state is TickState of the old, and stays valid |
| ResourcePage.CategoriesSpec | src/pages/ResourcePage.tsx:16 | about `Categories`, the button list: the list starts with 'all', then holds every entry's category and nothing else |
| ResourcePage.CategoriesInFirstAppearanceOrder | src/pages/ResourcePage.tsx:16 | after 'all', categories come in order of first appearance |
| ResourcePage.CategoriesDistinct | src/pages/ResourcePage.tsx:16 | no duplicates while no entry's category is literally 'all' |
| ResourcePage.FilterResourcesSpec | src/pages/ResourcePage.tsx:20-30 | about `FilterResources`: the result is a subsequence in the original order that keeps every occurrence of an entry matching the category and the case-insensitive search and no occurrence of any other entry (multiset counts); with a specific category every result has it |
| Seqs.FilterMultiset | src/pages/ResourcePage.tsx:20 | `filter` keeps each element that passes as often as it occurs and drops each that fails |
| ResourcePage.EmptySearchShowsAll | src/pages/ResourcePage.tsx:22-23 | an empty term with 'all' returns every entry unchanged |
| ResourcePage.SearchIgnoresTermCase | src/pages/ResourcePage.tsx:23-27 | the term's letter case never changes the result |
| ResourcePage.SelectedCategory | src/pages/ResourcePage.tsx:56 | clearing the select falls back to 'all'; any other value is kept |
| ResourcesPage.EmptySearchPassesThrough | src/pages/ResourcesPage.tsx:26-28 | an empty search term shows all entries unchanged |
| ResourcesPage.GroupKey | src/pages/ResourcesPage.tsx:40 | an empty category is grouped under 'Other'; others under themselves |
| ResourcesPage.GroupIsFilter | src/pages/ResourcesPage.tsx:39-46 | each group is the filter of the resources on its key |
| ResourcesPage.GroupPush | src/pages/ResourcesPage.tsx:41-44 | one more resource joins the end of its own group and no other |
| ResourcesPage.GroupEmptyIff | src/pages/ResourcesPage.tsx:41-43 | a group is empty exactly when no resource has its key |
| ResourcesPage.ReduceGroups | src/pages/ResourcesPage.tsx:39-48 | about `Reduce`, the `reduce` with its accumulator: the reduce's keys are the distinct categories in order of first appearance, each names a group, and the group is exactly its resources in order |
| ResourcesPage.GroupByCategory | src/pages/ResourcesPage.tsx:39-48 | the loop over the resources yields the keys and groups ReduceGroups describes |
| ResourcesPage.GroupMembership | src/pages/ResourcesPage.tsx:39-46 | every resource lies in the group of its key, every group member has that key, and each group keeps input order |
| ResourcesPage.GroupSizesSum | src/pages/ResourcesPage.tsx:39-46 | the group sizes add up to the number of resources |
| ResourcesPage.NoResultsIffEmpty | src/pages/ResourcesPage.tsx:77 | there are no group keys exactly when the selection is empty, so "No resources found" shows exactly then |
| CrisisButton.ScreenOf | src/components/CrisisButton.tsx:85-137 | closed exactly when the modal is; breathing wins over grounding; inside breathing an active exercise shows the active screen, otherwise the selection |
| CrisisButton.ExerciseButtonsExclusive | src/components/CrisisButton.tsx:44-52 | the breathing handler sets breathing and clears grounding, the grounding handler the reverse, and neither touches the rest |
| CrisisButton.ExerciseScreenExits | src/components/CrisisButton.tsx:58-66 | closing the exercise clears it, leaves breathing and closes the modal; "back" clears only the exercise |
| CrisisButton.ClickOutsideResets | src/components/CrisisButton.tsx:26-32 | a click outside the open modal resets all four fields |
| CrisisButton.HandlePreservesExclusive | src/components/CrisisButton.tsx:44-66 | no handler turns breathing and grounding on together |
| CrisisButton.RunExclusive | src/components/CrisisButton.tsx:44-66 | exclusivity survives any sequence of handlers |
| CrisisButton.NeverBothFromInitial | src/components/CrisisButton.tsx:19-22 | from the initial all-off state, breathing and grounding are never both on |
| CrisisButton.HandlePreservesTidy | src/components/CrisisButton.tsx:26-66 | an on-screen action keeps the flags exclusive, an exercise only on the breathing screen, and a closed modal without a sub-screen |
| CrisisButton.ReopenShowsResources | src/components/CrisisButton.tsx:72-142 | after any sequence of on-screen actions, reopening a closed modal shows the crisis resources |
| CrisisButton.CrisisModal.constructor | src/components/CrisisButton.tsx:19-22 | all four fields off |
| CrisisButton.CrisisModal.Open | src/components/CrisisButton.tsx:72 | the new state is Handle(old, OpenModal) |
| CrisisButton.CrisisModal.HandleBreathingClick | src/components/CrisisButton.tsx:44-47 | the new state is Handle(old, BreathingClick) |
| CrisisButton.CrisisModal.HandleGroundingClick | src/components/CrisisButton.tsx:49-52 | the new state is Handle(old, GroundingClick) |
| CrisisButton.CrisisModal.HandleExerciseSelect | src/components/CrisisButton.tsx:54-56 | the new state is Handle(old, ExerciseSelect) |
| CrisisButton.CrisisModal.HandleExerciseClose | src/components/CrisisButton.tsx:58-62 | the new state is Handle(old, ExerciseClose) |
| CrisisButton.CrisisModal.HandleBackToExercises | src/components/CrisisButton.tsx:64-66 | the new state is Handle(old, BackToExercises) |
| CrisisButton.CrisisModal.SelectionBack | src/components/CrisisButton.tsx:95 | the new state is Handle(old, SelectionBack) |
| CrisisButton.CrisisModal.GroundingBack | src/components/CrisisButton.tsx:102 | the new state is Handle(old, GroundingBack) |
| CrisisButton.CrisisModal.Close | src/components/CrisisButton.tsx:142 | the new state is Handle(old, CloseModal) |
| CrisisButton.CrisisModal.HandleClickOutside | src/components/CrisisButton.tsx:26-37 | the new state is Handle(old, ClickOutside): a reset while open, nothing while closed |
| SettingsPage.AccountUpdates | src/pages/SettingsPage.tsx:256-265 | the email is included exactly when non-empty and not the current one, the password exactly when non-empty, never a phone |
| SettingsPage.BuildAccountUpdates | src/pages/SettingsPage.tsx:256-265 | the mutated `updates` object equals AccountUpdates, and the flag records an email change |
| SettingsPage.PhoneUpdateKinds | src/pages/SettingsPage.tsx:314 | an update without a phone key is never a phone update; a phone-only update always is one, with one key |
| SettingsPage.FinalUpdates | src/pages/SettingsPage.tsx:324-327 | an empty phone string is sent as null; every other key is unchanged |
| SettingsPage.FinalUpdatesStable | src/pages/SettingsPage.tsx:324-327 | normalising is idempotent and keeps the phone-update test and the key count |
| SettingsPage.ThrownMessage | src/pages/SettingsPage.tsx:334-340 | a server message mentioning "captcha" or "verification failed" in any ASCII case is replaced by the CAPTCHA message; any other non-empty message is kept; no message gives "Failed to update account." |
| SettingsPage.ThrownMessageIgnoresCase | src/pages/SettingsPage.tsx:336 | the lower-cased form of a CAPTCHA message is classified the same way |
| SettingsPage.CapitalisedCaptchaReplaced | src/pages/SettingsPage.tsx:336-338 | an example: "Invalid CAPTCHA token" is replaced by the CAPTCHA message (the general fact is ThrownMessageIgnoresCase) |
| SettingsPage.SuccessMessage | src/pages/SettingsPage.tsx:368-378 | the general message exactly when more than one kind changed, "Account details saved." exactly when none did |
| SettingsPage.ChooseSuccessMessage | src/pages/SettingsPage.tsx:345-378 | the reassignments of `successMsg` end in SuccessMessage of the three flags |
| SettingsPage.PhoneInputChange | src/pages/SettingsPage.tsx:223-232 | stores the number; the flag is valid exactly when the number is non-empty and valid, and then the error is cleared; nothing else changes |
| SettingsPage.VerifyPhoneGate | src/pages/SettingsPage.tsx:234-238 | verification proceeds exactly when the number is valid, non-empty and not the current phone; otherwise the fixed message is shown |
| SettingsPage.TypedNumberGate | src/pages/SettingsPage.tsx:223-245 | after typing a number, the CAPTCHA opens for it exactly when it is non-empty, valid and new; a refused number leaves the dialog as it was |
| SettingsPage.LoadedPhoneNotReverified | src/pages/SettingsPage.tsx:207-213 | the phone loaded from the user can never be sent to verification unchanged |
| SettingsPage.ReportFailure | src/pages/SettingsPage.tsx:387-394 | the error is shown, the success cleared, and the CAPTCHA dialog's error mirrors it only for a phone update |
| SettingsPage.ReportSuccess | src/pages/SettingsPage.tsx:343-381 | each changed field is refreshed from the returned user, a changed password is cleared, and the success message is SuccessMessage of the final updates |
| SettingsPage.PerformUpdate | src/pages/SettingsPage.tsx:313-398 | the loader of the update's kind is off afterwards and the other is untouched; an error is shown exactly on a server error, a success exactly on a reply; the CAPTCHA fields are untouched |
| SettingsPage.FailedUpdateReports | src/pages/SettingsPage.tsx:334-394 | a failed update shows the classified message, mirrors it in the CAPTCHA dialog only for a phone update, and keeps the input fields |
| SettingsPage.SuccessfulUpdateReports | src/pages/SettingsPage.tsx:343-381 | a successful update shows the message for the kinds changed, clears a changed password, and refreshes the email only when it changed |
| SettingsPage.SingleChangeMessages | src/pages/SettingsPage.tsx:368-375 | an email-only or password-only change gets its own message; both together get the general one |
| SettingsPage.UpdateAccountOutcome | src/pages/SettingsPage.tsx:247-281 | a missing or anonymous user changes nothing; otherwise the loader is off afterwards; with nothing to change the notice shows and the server plays no part |
| SettingsPage.AccountFormNeverPhoneUpdate | src/pages/SettingsPage.tsx:256-271 | the account form never makes a phone update, and it has no changes exactly when the email is empty or unchanged and the password empty |
| SettingsPage.CaptchaVerifiedOutcome | src/pages/SettingsPage.tsx:283-311 | a verified number that fails to save closes the dialog, ends saving, and shows the same message in the dialog and the page, leaving the account loader alone |
| SettingsPage.FromRow | src/pages/SettingsPage.tsx:170-174 | missing text fields load as '' and a missing memory flag as true |
| SettingsPage.LoadPersonalisation | src/pages/SettingsPage.tsx:153-205 | a failed profile query or no row keeps the current values; an anonymous user loads the local record, or only the memory setting when there is none |
| SettingsPage.EmptyRowDefaults | src/pages/SettingsPage.tsx:188-192 | an example: a record with no fields loads '', '', '', '' and memory on (the general mapping is FromRow's ensures) |
| SettingsPage.SettingsForm.constructor | src/pages/SettingsPage.tsx:123-135 | the initial account state, with the user's email or '' |
| SettingsPage.SettingsForm.HandlePhoneInputChange | src/pages/SettingsPage.tsx:223-232 | the new state is PhoneInputChange of the old |
| SettingsPage.SettingsForm.HandleVerifyAndSavePhone | src/pages/SettingsPage.tsx:234-245 | the new state is VerifyAndSavePhone of the old |
| SettingsPage.SettingsForm.RefreshFromUser | src/pages/SettingsPage.tsx:343-381 | the new state is ReportSuccess of the old |
| SettingsPage.SettingsForm.PerformUpdateUser | src/pages/SettingsPage.tsx:313-398 | the new state is PerformUpdate of the old |
| SettingsPage.SettingsForm.HandleUpdateAccount | src/pages/SettingsPage.tsx:247-281 | the new state is UpdateAccount of the old |
| SettingsPage.SettingsForm.HandleCaptchaVerified | src/pages/SettingsPage.tsx:283-311 | the new state is CaptchaVerified of the old |
| CompanionPage.FramePhase | src/pages/CompanionPage.tsx:227-293 | a frame keeps the phase or advances it by one; resetting advances only when both resets are complete, zooming only when the zoom point is reached; idle and the final phase never move |
| CompanionPage.FramesMoveForward | src/pages/CompanionPage.tsx:227-293 | over any frames the phase only moves forward, by at most one per frame, and the final phase stays |
| CompanionPage.NoWayBackToIdle | src/pages/CompanionPage.tsx:194-196 | about `EnterCall`, the phase `handleEnterCall` sets: after entering a call the page never returns to idle |
| CompanionPage.ZoomNeedsBothResets | src/pages/CompanionPage.tsx:240 | without both resets complete the reset phase stays |
| CompanionPage.StarAfterResetAndZoom | src/pages/CompanionPage.tsx:240-277 | a completed reset then a reached zoom point shows the neutron star |
| CompanionPage.VisibilityRules | src/pages/CompanionPage.tsx:302-305 | exactly one sphere shows in every phase, controls are enabled only while idle, and the call buttons show with the animating sphere |
| CompanionPage.ZoomProgress | src/pages/CompanionPage.tsx:258 | progress is always in [0, 1], is the covered fraction of the distance, and is 1 for a negligible total distance |
| CompanionPage.ZoomSpeed | src/pages/CompanionPage.tsx:259 | the zoom speed stays between 0.5 and 2.5 |
| CompanionPage.ZoomProgressEnds | src/pages/CompanionPage.tsx:256-258 | progress is 0 at the far point and 1 at the zoomed-in point |
| CompanionPage.ToggleAgent | src/pages/CompanionPage.tsx:208 | each toggle changes the agent's state |
| CompanionPage.ToggleAgentInvolution | src/pages/CompanionPage.tsx:207-210 | toggling twice restores the agent's state |
| CompanionPage.Companion.constructor | src/pages/CompanionPage.tsx:161-181 | idle, unmuted, listening; the terms dialog shows unless the stored flag is 'true' |
| CompanionPage.Companion.AcceptTerms | src/pages/CompanionPage.tsx:187-192 | hides the terms dialog and changes nothing else |
| CompanionPage.Companion.HandleEnterCall | src/pages/CompanionPage.tsx:194-200 | the phase becomes resettingCamera; nothing else changes |
| CompanionPage.Companion.Frame | src/pages/CompanionPage.tsx:220-296 | the phase becomes FramePhase of the old phase; nothing else changes |
| CompanionPage.Companion.HandleMuteClick | src/pages/CompanionPage.tsx:203-206 | flips mute and changes nothing else |
| CompanionPage.Companion.HandleInterruptClick | src/pages/CompanionPage.tsx:207-210 | toggles the agent state and changes nothing else |
| MessageDraft.Submission | src/components/MessageInput.tsx:27-36 | text is sent exactly when the draft is not all white space and no reply is pending, and it is the trimmed, non-empty draft |
| MessageDraft.SubmissionIsStable | src/components/MessageInput.tsx:28-30 | what is sent has no surrounding white space: sending it again sends the same text |
| MessageDraft.TextareaHeight | src/components/MessageInput.tsx:23 | the height is the scroll height capped at 120 |
| MessageInputComponent.ButtonFor | src/components/MessageInput.tsx:88-117 | the send button shows exactly when the draft is not all white space, disabled while loading; otherwise the voice button |
| MessageInputComponent.EnabledSendButtonSends | src/components/MessageInput.tsx:88-92 | an enabled send button shows exactly when submitting would send |
| MessageInputComponent.MessageInput.constructor | src/components/MessageInput.tsx:15 | an empty draft and nothing sent |
| MessageInputComponent.MessageInput.Change | src/components/MessageInput.tsx:71 | the draft becomes the typed value |
| MessageInputComponent.MessageInput.HandleSubmit | src/components/MessageInput.tsx:27-36 | a sendable draft is sent once, trimmed, and cleared; otherwise nothing is sent and the draft is kept |
| MessageInputComponent.MessageInput.HandleKeyDown | src/components/MessageInput.tsx:38-43 | Enter without Shift submits; any other key sends nothing and keeps the draft |
| MessageInputPage.DisabledIffNothingToSend | src/pages/MessageInput.tsx:70 | the submit button is enabled exactly when submitting would send |
| MessageInputPage.HelperText | src/pages/MessageInput.tsx:93 | the helper line is "Sending..." exactly while loading |
| MessageInputPage.CharCount | src/pages/MessageInput.tsx:95-97 | the count shown is `message.length`, between the number of characters and twice it (UTF-16 code units) |
| MessageInputPage.WhitespaceDraftCountedNotSent | src/pages/MessageInput.tsx:70-97 | every non-empty draft made only of white space shows a character count but cannot be sent, loading or not |
| MessageInputPage.MessageInput.constructor | src/pages/MessageInput.tsx:16 | an empty draft and nothing sent |
| MessageInputPage.MessageInput.Change | src/pages/MessageInput.tsx:51 | the draft becomes the typed value |
| MessageInputPage.MessageInput.HandleSubmit | src/pages/MessageInput.tsx:28-36 | a sendable draft is sent once, trimmed, and cleared; otherwise nothing changes |
| MessageInputPage.MessageInput.HandleKeyDown | src/pages/MessageInput.tsx:38-43 | Enter without Shift submits; any other key changes nothing |
| JournalForm.SnippetShape | src/components/journal/JournalFormModal.tsx:59 | about `Snippet`: lengths are UTF-16 code units, as `substring` counts them; the snippet is the longest prefix of the content within 100 units (exactly 100, or 99 when the next character is a surrogate pair) followed by "...", which is added even when nothing was cut |
| JournalForm.SnippetOfPlainText | src/components/journal/JournalFormModal.tsx:59 | for text inside the Basic Multilingual Plane the snippet is the first 100 characters and "..." |
| JournalForm.BuildEntry | src/components/journal/JournalFormModal.tsx:57-59 | a new entry gets the fields and the snippet of SnippetShape (cut by code units); an edit keeps the id and snippet and replaces title, date, image URL and content |
| JournalForm.EditWithSameFieldsKeepsEntry | src/components/journal/JournalFormModal.tsx:58 | saving an edit with unchanged fields keeps the entry, apart from an absent image URL becoming '' |
| JournalForm.SaveError | src/components/journal/JournalFormModal.tsx:65 | the error shown is the thrown message, or "Failed to save entry." when it is empty |
| JournalForm.FieldsFor | src/components/journal/JournalFormModal.tsx:35-49 | editing loads the entry's fields; creating loads blank fields dated today |
| JournalForm.ReloadAndSaveKeepsIdentity | src/components/journal/JournalFormModal.tsx:35-59 | loading an entry and saving it unchanged keeps its id, title, content and snippet |
| JournalForm.JournalFormModal.constructor | src/components/journal/JournalFormModal.tsx:27-32 | empty fields, not submitting, no error |
| JournalForm.JournalFormModal.Populate | src/components/journal/JournalFormModal.tsx:35-51 | the fields become FieldsFor the entry and the error is cleared |
| JournalForm.JournalFormModal.BeginSubmit | src/components/journal/JournalFormModal.tsx:53-59 | submitting starts, the error clears, and the data handed to `onSave` is BuildEntry of the fields |
| JournalForm.JournalFormModal.CompleteSubmit | src/components/journal/JournalFormModal.tsx:61-68 | a successful save closes the modal once, a failure sets the error and leaves it open, and submitting ends either way |
| JournalForm.JournalFormModal.RequestClose | src/components/journal/JournalFormModal.tsx:74 | a close request is ignored while submitting |

## Left out

- Network and storage I/O is not modelled. This covers the Supabase auth, database and profile calls, `fetch`, `localStorage`, and zustand's `persist`. Their results are inputs, and the writes are not modelled.
- `loadChats` and `saveChats` (src/store/index.ts:158-166) only log, so they are not modelled. The persistence they refer to is out of scope.
- The fields `getStats` and `baseUrl` of the therapy service are not modelled. `getStats` only reads statistics from the server.
- The model is sequential. The `await` points are not modelled as interleavings. React batching and stale closures are not modelled either, for example the `currentChat` captured by `handleSendMessage`, or the `summary` effect order.
- Console logging, `toast` notifications, `setUser`, the CAPTCHA widget reset, scrolling, and textarea height resets are not modelled.
- Dates are simplified. A chat's `Date` is an integer stamp. A mood entry's time is integer milliseconds on the local clock, and `isSameDay` compares `DayOf` values. date-fns `differenceInDays` counts full 24-hour periods, but the model compares calendar days.
- Calendar arithmetic is not modelled: month lengths, week boundaries beyond `WeekStart`, and time zones. It is supplied through `Calendar.windowMonthStart` and the month lists. Chart labels (`format`) are not modelled.
- MoodTracker.MonthBucketsSpec: requires that the month start 29 days ago is at least 29 days back. The calendar guarantees this, but the model takes it as a precondition.
- `handleResetEntries` in MoodTrackerPage is not modelled. It is a database delete followed by the same streak recomputation that `ApplyFetch` models.
- Text.ToLower handles only ASCII letters; JavaScript's `toLowerCase` also folds other scripts.
- Text.Prefix: a Dafny string is a sequence of Unicode scalar values, while JavaScript strings are UTF-16 code units. Lengths and cuts are counted in code units (`Text.Length`), but a string cannot hold half a surrogate pair. So when the cut falls inside a pair, the model drops the whole character, while JavaScript keeps a lone high surrogate.
- ChatStore.AutoTitle: inherits the Text.Prefix gap; when the 50th code unit is the first half of a surrogate pair, the model's title holds 49 units before "...", while the source's holds 50, the last a lone surrogate.
- JournalForm.Snippet: the same gap at 100 code units; SnippetShape and BuildEntry state the cut with that exception.
- MoodTracker.Average: JavaScript divides in IEEE 754 doubles; the model computes the exact rational mean as a `real`, so rounding is not modelled.
- The Fuse.js fuzzy search is not modelled. Its result list is an input to `ResourcesPage.Selection`.
- ResourcesPage.GroupByCategory: `Object.keys` would list integer-like category names first. The model keeps insertion order, which is what string category names get. A category that names an `Object.prototype` property, such as "constructor", is also not modelled.
- The 3D scenes, the camera and field-of-view interpolation, and background colour lerps in CompanionPage are not modelled. The distance tests are booleans. The imperative `controlsRef.current.enabled` writes are not modelled; the model has the declarative `ControlsEnabled` rule instead.
- The light-sensitivity preference of CompanionPage is not modelled.
- ChatPage.FailedSendBannerClearedAsWritten assumes that the open chat's id occurs once in the list (`SoleAt`), which `crypto.randomUUID` ids give in practice; ChatPage.SendWithoutChatCreatesOne likewise assumes the fresh chat id is new.
- The `emailChanged` flag of `handleUpdateAccount` is computed but never read by the source. BuildAccountUpdates returns it without further use.
- The outer catch of `handleUpdateAccount` is not modelled, because `performUpdateUser` catches everything itself.
- The journal date's `toISOString` reformatting is the `isoDay` parameter. Today's date string is the `today` parameter.
- The settings page's appearance, memory toggle, logout, clear-data and personalisation save actions are not modelled. They are remote calls or store `updateSettings` calls, and `updateSettings` is modelled in ChatStore.
- The breathing timer's real-time scheduling is one `Tick` per second. The effect order within a second is not modelled.

## Findings

| source | as written | input that shows it | evidently intended | confidence | as-written member | corrected member |
|---|---|---|---|---|---|---|
| src/pages/ChatPage.tsx:32-34 | the effect that clears `connectionError` depends on the `currentChat` object, and a failed send appends the apology to the current chat (lines 78-92), which replaces that object | an open chat and a service failure: the send sets the banner, then the new `currentChat` re-runs the effect, which clears it | clear the banner only when the user switches to another chat (the comment says "when chat changes"), so a failed send keeps it | not executed | ChatPage.FailedSendBannerClearedAsWritten | ChatPage.FailedSendBannerKept |

# Chat client core, modelled in Dafny

This project models the client-side logic of a conversational tax-assistant web app. The largest part is the chat store. It owns:

- the list of conversations;
- the current conversation;
- the messages shown;
- a loading flag;
- one auto-dismissing error.

A message is sent optimistically: a placeholder appears at once and is swapped for the saved message and the assistant's reply when the server answers. Around the store sit smaller pieces:

- the file-upload hook: validation, progress and error mapping;
- the speech-to-text hook: how recognition results build the transcript;
- the search dialog: the query filter and the grouping by date;
- the route guard;
- the avatar and sidebar helpers: initials and relative dates;
- the like and dislike buttons;
- the message box's send rule;
- the webhook reply extractor;
- the token storage helpers.

Code that updates state step by step is modelled as classes with `modifies` frames:

- `ChatStore.Store`, `FileUpload.Uploader` and `VoiceRecording.Recorder`;
- `ChatSidebar.Sidebar`, `MessageBubble.Feedback`, `ChatInput.Box` and `Auth.TokenStorage`.

The `for` loop of the recognition handler and the `forEach` of the date grouping are methods with loop invariants. Each is proved against a specification function. Pure code (validation, classification, filtering, the guard, initials, dates, extraction) is modelled as functions and lemmas.

**Asynchronous operations.** Each store operation is split into steps:

- a `Begin…` step, which does what happens before the request goes out and returns a token;
- a `…Succeeded` or `…Failed` step, which applies the answer.

Steps of different operations may interleave in any order. `store_scenarios.dfy` runs such interleavings on a fresh store:
- a late answer for a conversation that is no longer current;
- a failed send;
- a first message right after creating a conversation;
- two errors in a row;
- a create failure under an earlier error's timer;
- a delete.

**Timers.** The error timer is explicit state:
- `errorTimeout` is the module-level slot;
- `nextTimer` is the id the next `setTimeout` returns;
- the ghost set `scheduledDismissals` holds the dismissals the runtime still has pending.

`Store.Valid()` states that the slot names exactly the pending dismissals, so at most one is ever pending.

**Inputs.** The following are parameters:
- clocks (`Date.now()`, `new Date().toISOString()`);
- `navigator.onLine`;
- the temporary message id;
- date parsing (`dayOf`);
- `JSON.parse` / `atob`;
- the browser's speech events.

Strings are sequences of Dafny `char`, which are Unicode scalar values. JavaScript measures and slices strings in UTF-16 code units. The two agree on text inside the Basic Multilingual Plane; the members where the difference shows are listed under "## Left out".

## Behaviour of the store worth knowing

The model follows the code in each of these.

- **Selecting a conversation** (lib/store.ts:445-460): `currentConversation`, `isLoading` and `error` change at once. The messages are cleared only in a deferred step (`setTimeout(..., 0)`), so the previous conversation's messages stay visible until that step runs. Modelled by `Store.SetCurrentConversation` and `Store.RunDeferredSwitch`.
- **First-message title** (lib/store.ts:340-355): the "is this the first message" test runs on the messages after reconciliation. By then they include the saved user message, which carries the conversation id. So a conversation keeps the title "New Conversation" whenever the server echoes the id, as it does after create-then-send. The title is taken from the content only when no shown message carries the id. See `SavedMessageBlocksRetitle`, `RetitleWhenFirst` and `StoreScenarios.CreateThenSend`.
- **Error timer** (lib/store.ts:180-237): only `setErrorWithAutoDismiss` and `clearError` cancel a pending dismissal.
  - `setError(null)` nulls the error but leaves a pending timer scheduled.
  - The `Begin…` steps null the error without cancelling the timer either.
  - A failed `createConversation` sets its error directly, with no timer of its own, so a timer left by an earlier error dismisses it. See `StoreScenarios.EarlierTimerDismissesCreateError`.
- **Load and send wording** (lib/store.ts:265-296, 363-393): the two catch blocks classify a failure alike. Their wording differs in the 429 branch, the 403 branch and the default message ("Failed to load messages" / "Failed to send message").
- **Failed delete** (lib/store.ts:421-425): `isLoading`, which the begin step set, is turned off, and the error is set with auto-dismiss.

## Model

| member | source | states |
|---|---|---|
| ChatStore.WithoutId | lib/store.ts:333-334 | the result is a subsequence of the list with no entry carrying the id; every other message occurs in it exactly as often as in the list |
| ChatStore.WithoutConversation | lib/store.ts:410-412 | the same for conversations: order kept, every entry with the id gone, every other entry kept as often as it occurs |
| ChatStore.RemovingFreshEntryRestores | lib/store.ts:397-400 | removing by id an entry appended with an id no other entry has gives back exactly the earlier list |
| ChatStore.IndexOfConversation | lib/store.ts:341 | the index is that of the first entry with the id, or the length when there is none |
| ChatStore.FindConversation | lib/store.ts:341 | `None` exactly when no entry has the id; otherwise the entry at the first index carrying the id |
| ChatStore.TitleFromContent | lib/store.ts:351-355 | the title is at most 50 characters; short content is kept whole; longer content gives its first 47 characters and "..." (exactly 50) |
| ChatStore.LongContentTitle | lib/store.ts:352-353 | 60 characters of content give a 50-character title: 47 of them and "..." |
| ChatStore.ShortContentTitle | lib/store.ts:354 | 10 characters of content are the title unchanged |
| ChatStore.AfterReply | lib/store.ts:345-358 | same length; entries with other ids untouched; each matching entry gets the new `updatedAt`, and the new title only if the rename condition holds |
| ChatStore.Renamed | lib/store.ts:434-437 | same length; only entries with the id change, and only their title |
| ChatStore.SavedUserMessage | lib/store.ts:328 | `userMessage` when the payload has one, else the payload itself |
| ChatStore.Reconciled | lib/store.ts:332-337 | the saved message then the assistant message end the list; the front is a subsequence of the old list without the temporary id, holding every other message as often as the old list does |
| ChatStore.SendAddsExactlyThePair | lib/store.ts:313-337 | after a send whose placeholder id is fresh, the list is exactly the earlier messages followed by the saved user message and the assistant message |
| ChatStore.SavedMessageBlocksRetitle | lib/store.ts:340-355 | when the saved message carries the conversation id, the rename condition fails and every title stays as it was |
| ChatStore.RetitleWhenFirst | lib/store.ts:340-355 | when no shown message carries the id and the first entry with the id is "New Conversation", that entry takes the title from the content |
| ChatStore.ReplyApplied | lib/store.ts:327-360 | the session after a reply: messages reconciled, loading off, conversations updated from the reconciled messages, selection and error unchanged |
| ChatStore.Store.constructor | lib/store.ts:196-201 | empty lists, nothing selected, not loading, no error, no timer |
| ChatStore.Store.SetErrorWithAutoDismiss | lib/store.ts:180-194 | the pending dismissal is cancelled, the error shown, and exactly one new dismissal scheduled; nothing else changes |
| ChatStore.Store.DismissTimerFires | lib/store.ts:190-193 | a pending dismissal nulls the error and empties the slot |
| ChatStore.Store.SetError | lib/store.ts:203-209 | a truthy message is shown with a fresh timer; otherwise the error is nulled and the pending timer is left as it was |
| ChatStore.Store.ClearError | lib/store.ts:211-217 | the pending timer is cancelled and the error nulled at once |
| ChatStore.Store.BeginCreateConversation | lib/store.ts:219-222 | only the error is nulled |
| ChatStore.Store.CreateConversationSucceeded | lib/store.ts:223-230 | the new conversation is put first and made current, the messages are emptied and loading is off; it is returned |
| ChatStore.Store.CreateConversationFailed | lib/store.ts:231-237 | loading off, the server message or "Failed to create conversation" shown without a timer; the list is unchanged |
| ChatStore.Store.BeginLoadConversations | lib/store.ts:240-243 | loading on and the error nulled |
| ChatStore.Store.LoadConversationsSucceeded | lib/store.ts:244-245 | the list is replaced and loading is off |
| ChatStore.Store.LoadConversationsFailed | lib/store.ts:246-249 | the server message or "Failed to load conversations" with auto-dismiss, loading off, the list unchanged |
| ChatStore.Store.LoadMessagesSucceeded | lib/store.ts:252-263 | the messages are replaced only if the requested conversation is still current; loading is off either way |
| ChatStore.Store.LoadMessagesFailed | lib/store.ts:264-298 | the classified message with auto-dismiss and loading off, whatever is current |
| ChatStore.Store.BeginSendMessage | lib/store.ts:301-325 | loading on, error off, exactly one USER message with the temporary id and the content appended, its `timestamp` and `createdAt` taken as two separate readings of the clock; the body carries the file URL only when it is truthy |
| ChatStore.Store.SendMessageSucceeded | lib/store.ts:327-360 | the new session is `ReplyApplied` of the old one; the timer is untouched |
| ChatStore.Store.SendMessageFailed | lib/store.ts:361-402 | the classified message with auto-dismiss, loading off, the placeholder removed by id, the list unchanged |
| ChatStore.Store.BeginDeleteConversation | lib/store.ts:405-408 | loading on and the error nulled |
| ChatStore.Store.DeleteConversationSucceeded | lib/store.ts:409-420 | every entry with the id removed; the selection and the messages cleared only if it was current; loading off |
| ChatStore.Store.DeleteConversationFailed | lib/store.ts:421-425 | the server message or "Failed to delete conversation" with auto-dismiss, loading off, the list unchanged |
| ChatStore.Store.BeginRenameConversation | lib/store.ts:428-431 | only the error is nulled |
| ChatStore.Store.RenameConversationSucceeded | lib/store.ts:433-438 | only the matching entries' titles change |
| ChatStore.Store.RenameConversationFailed | lib/store.ts:439-442 | only the error changes (with auto-dismiss); loading is left as it was |
| ChatStore.Store.SetCurrentConversation | lib/store.ts:445-451 | selection, loading (on exactly for a truthy id) and error change at once; the messages stay |
| ChatStore.Store.RunDeferredSwitch | lib/store.ts:453-459 | the messages are emptied; a truthy id starts a load for that id |
| StoreScenarios.SwitchConversation | lib/store.ts:252-263 | after switching, the old messages stay with loading on; a late answer for the old conversation is dropped but turns loading off; the deferred step empties the list; the new answer is shown |
| StoreScenarios.FailedSendRestoresMessages | lib/store.ts:301-402 | the optimistic list is the old one plus the placeholder; after a failure the list is exactly the old one, loading is off and the classified error (for a 404, the not-found wording) is shown |
| StoreScenarios.CreateThenSend | lib/store.ts:219-360 | after create and a successful first send, the messages are the saved pair and the single conversation only has its `updatedAt` refreshed, keeping "New Conversation" |
| StoreScenarios.SecondErrorRestartsTimer | lib/store.ts:180-194 | a second error gets a different timer and replaces the first; when its timer fires the error is gone |
| StoreScenarios.EarlierTimerDismissesCreateError | lib/store.ts:231-235 | a create failure's error is dismissed by the timer of an earlier error |
| StoreScenarios.DeleteConversation | lib/store.ts:405-420 | after a delete no entry has the id and every other entry stays; the selection and the messages go exactly when the deleted one was current |
| ApiFailure.ServerMessageOr | lib/store.ts:234 | the server's message when it is truthy, else the fallback; never empty for a non-empty fallback |
| StoreErrors.DescribeFailure | lib/store.ts:264-296 | the message the load and send catch blocks show is never empty |
| StoreErrors.WordingNonEmpty | lib/store.ts:265-294 | every branch of the catch block has a non-empty message |
| Precedence.FirstMatch | lib/store.ts:270-294 | the index taken by an if / else-if chain: the first branch whose condition holds, no earlier one holding, or past the end when none does |
| StoreErrors.ClassifyIsFirstMatch | lib/store.ts:270-294 | the branch taken is the first that applies in the order: offline, network failure, 429, 5xx, 403, 404, other answer, no answer |
| StoreErrors.LoadAndSendDifferOnlyInWording | lib/store.ts:363-392 | for one failure, the load and send messages differ exactly in the 429, 403 and default branches |
| FileUpload.ValidateFile | hooks/useFileUpload.ts:54-71 | size first, then a non-empty type outside the allow-list, then emptiness; `None` exactly for a non-empty file within 50 MB of an allowed or empty type |
| FileUpload.ExactlyMaxSizePasses | hooks/useFileUpload.ts:56-58 | 50·1024·1024 bytes pass and one byte more gives the size message |
| FileUpload.EmptyTypeNeverRejectedByType | hooks/useFileUpload.ts:61-63 | a file without a MIME type is judged by its size alone |
| FileUpload.InvalidConversationIdIsBlank | hooks/useFileUpload.ts:76 | the id is refused exactly when it is empty or all white space |
| FileUpload.ProgressPercent | hooks/useFileUpload.ts:122-124 | the value is `loaded·100/total` rounded half up; at most 100 when `loaded ≤ total`; 100 when they are equal |
| FileUpload.ProgressExamples | hooks/useFileUpload.ts:122-124 | 1 of 3 is 33, 1 of 2 is 50, 2 of 3 is 67, 0 of 5 is 0 |
| FileUpload.UploadFailureRules | hooks/useFileUpload.ts:147-174 | the precedence table has eleven rules |
| FileUpload.UploadErrorIsFirstMatch | hooks/useFileUpload.ts:147-174 | the catch block shows the outcome of the first rule that applies in the order: abort, timeout, 413, 415, 401, 404, server message, server error, other answer, no answer, own message; else "Failed to upload file" |
| FileUpload.AnsweredIsFirstMatch | hooks/useFileUpload.ts:154-168 | the same for an error carrying a server answer |
| FileUpload.UploadErrorNonEmpty | hooks/useFileUpload.ts:147-174 | every failure yields a non-empty message |
| FileUpload.InvalidResponseShowsItsMessage | hooks/useFileUpload.ts:139-174 | the error thrown for a reply without a file reaches the catch block and "Invalid response from server" is shown |
| FileUpload.Uploader.constructor | hooks/useFileUpload.ts:49-52 | not uploading, progress 0, no error, no controller |
| FileUpload.Uploader.BeginUpload | hooks/useFileUpload.ts:76-94 | a blank id is refused before validation, then a validation failure; a refusal sets only the error; a start sets uploading, progress 0, no error and a controller |
| FileUpload.Uploader.OnUploadProgress | hooks/useFileUpload.ts:120-127 | with a non-zero total the progress becomes the rounded percentage; otherwise it is unchanged |
| FileUpload.Uploader.UploadAnswered | hooks/useFileUpload.ts:133-143 | with a file: returned, progress 100; without: "Invalid response from server" thrown and stored, progress 0; not uploading and no controller either way |
| FileUpload.Uploader.UploadFailed | hooks/useFileUpload.ts:144-182 | the stored error equals the thrown, mapped, non-empty message; not uploading, progress 0, no controller |
| FileUpload.Uploader.CancelUpload | hooks/useFileUpload.ts:187-194 | with a controller: not uploading, progress 0, "Upload cancelled"; without one nothing changes |
| FileUpload.Uploader.ResetError | hooks/useFileUpload.ts:196-198 | the error is nulled |
| VoiceRecording.FinalTextConcat | hooks/useVoiceRecording.ts:48-55 | two batches contribute their final text one after the other |
| VoiceRecording.InterimOnlyAddsNothing | hooks/useVoiceRecording.ts:52-58 | a batch of interim results adds nothing to the final text |
| VoiceRecording.FinalTextLength | hooks/useVoiceRecording.ts:52-54 | a batch of final results adds their lengths plus one space each |
| VoiceRecording.TextSnoc | hooks/useVoiceRecording.ts:48-58 | one more result adds its final piece to the final text and its interim piece to the interim text |
| VoiceRecording.AccumulateStep | hooks/useVoiceRecording.ts:48-58 | one iteration keeps the accumulated texts equal to those of the results seen so far |
| VoiceRecording.Accumulate | hooks/useVoiceRecording.ts:45-59 | the loop leaves the old final text followed by the final pieces from `resultIndex` on, and the interim pieces of this event only |
| VoiceRecording.SpeechErrorMessages | hooks/useVoiceRecording.ts:70-78 | both refusals read the microphone-denied message; no-speech and network have their own; any other code is prefixed; none is empty |
| VoiceRecording.UnknownCodesStayDistinct | hooks/useVoiceRecording.ts:76-77 | two different unknown codes show different messages |
| VoiceRecording.Recorder.constructor | hooks/useVoiceRecording.ts:27-31 | nothing recorded; the not-supported error exactly when unsupported |
| VoiceRecording.Recorder.OnResult | hooks/useVoiceRecording.ts:44-64 | the accumulator grows by the event's final text, the interim is replaced, and the shown transcript stays the trimmed accumulator |
| VoiceRecording.Recorder.OnError | hooks/useVoiceRecording.ts:66-81 | the mapped message is shown and recording is off |
| VoiceRecording.Recorder.OnEnd | hooks/useVoiceRecording.ts:83-86 | recording off and interim empty |
| VoiceRecording.Recorder.StopRecording | hooks/useVoiceRecording.ts:161-171 | recording off and interim empty |
| VoiceRecording.Recorder.ResetTranscript | hooks/useVoiceRecording.ts:173-178 | transcript, interim and accumulator empty; error nulled |
| VoiceRecording.Recorder.StartRecording | hooks/useVoiceRecording.ts:101-124 | unsupported: only the error is set; otherwise error and all text cleared and a start scheduled after 150 ms when recording, else 0 ms |
| VoiceRecording.Recorder.RunPendingStart | hooks/useVoiceRecording.ts:125-153 | an accepted start leaves recording on; a refused one sets the start-failed error and recording off |
| SearchModal.FilterConversations | components/layout/SearchModal.tsx:26-31 | a blank query keeps the list; otherwise an ordered sublist holding each conversation whose lower-cased title contains the lower-cased untrimmed query as often as the list does, and no other |
| SearchModal.UntrimmedQueryMatters | components/layout/SearchModal.tsx:28-30 | a non-blank query longer than a title, even through its spaces, does not find it |
| SearchModal.GroupOfDay | components/layout/SearchModal.tsx:60-70 | each group holds exactly its days: today, today−1, other days from today−7 on (future included), today−30 to today−8, the rest and unreadable dates |
| SearchModal.FutureDaysArePrevious7 | components/layout/SearchModal.tsx:64 | a day after today falls in "Previous 7 Days" |
| SearchModal.GroupsPartition | components/layout/SearchModal.tsx:52-71 | the five groups together hold every conversation of the list exactly once (as multisets) |
| SearchModal.GroupedSnoc | components/layout/SearchModal.tsx:52-71 | pushing one conversation onto its group gives the grouping of the longer list |
| SearchModal.GroupByDate | components/layout/SearchModal.tsx:34-74 | the loop yields the five keys, each holding the list filtered to its group in list order |
| SearchModal.GroupsKeepOrder | components/layout/SearchModal.tsx:52-71 | each group is an ordered sublist of the list and holds every conversation that falls in it |
| SearchModal.Sections | components/layout/SearchModal.tsx:133-134 | the rendered sections are exactly the non-empty groups, each with its own list, in the order the object literal declares them: Today, Yesterday, Previous 7 Days, Previous 30 Days, Older |
| SearchModal.EmptyStateLabel | components/layout/SearchModal.tsx:163-170 | a line is shown exactly for an empty result: "No conversations found" for a non-empty query, else "No conversations yet" |
| SearchModal.BlankQueryOnEmptyList | components/layout/SearchModal.tsx:163-170 | a query of spaces on an empty list reads "No conversations found" |
| Middleware.Guard | middleware.ts:4-27 | login redirect (carrying the path) exactly for a protected prefix without a truthy token; chat redirect exactly for a truthy token on /login or /signup; otherwise pass |
| Middleware.RedirectsExclusive | middleware.ts:8-24 | a signed-in user is never sent to login, an anonymous one never to the chat |
| Middleware.AuthPagesOpenToAnonymous | middleware.ts:18-24 | /login and /signup pass without a token |
| Middleware.PrefixMatchOverreaches | middleware.ts:8-9 | "/chatx" and "/history-old" are protected too |
| Middleware.EmptyCookieIsNoToken | middleware.ts:10 | an empty cookie value decides like no cookie |
| Middleware.OtherPathsPass | middleware.ts:26 | any unprotected path other than the auth pages passes |
| Avatar.Take | components/ui/Avatar.tsx:29 | `slice(0, n)`: a prefix of at most n characters; the whole string when it is short enough, and exactly its first n characters when it is longer |
| Avatar.FirstCharsAreWordStarts | components/ui/Avatar.tsx:24-27 | splitting on spaces and taking each piece's first character yields exactly the non-space characters that begin the string or follow a space |
| Avatar.FirstChars | components/ui/Avatar.tsx:26-27 | the first character of each non-empty word, in order, and nothing for an empty word; when no word is empty, character i is the first character of word i |
| Avatar.Initials | components/ui/Avatar.tsx:23-30 | the initials are the first two word starts upper-cased, so at most two characters |
| Avatar.SpacesAddNothing | components/ui/Avatar.tsx:24-27 | a run of spaces adds no initial |
| Avatar.BlankNameHasNoInitials | components/ui/Avatar.tsx:23-30 | a name of only spaces has empty initials |
| Avatar.AvatarContent | components/ui/Avatar.tsx:41-45 | the image exactly for a truthy src; else the name's initials (at most two) for a truthy name, else "?" |
| ChatSidebar.SidebarInitials | components/layout/ChatSidebar.tsx:96-104 | "?" for a missing or empty name; otherwise the avatar's initials, at most two |
| ChatSidebar.SidebarAgreesWithAvatar | components/layout/ChatSidebar.tsx:96-104 | the sidebar and an image-less avatar show the same for every name |
| ChatSidebar.DiffDays | components/layout/ChatSidebar.tsx:87-88 | the ceiling of the distance in days: 0 only for no distance, else the least n with distance ≤ n days |
| ChatSidebar.FormatDate | components/layout/ChatSidebar.tsx:84-94 | "Today" only for the same instant, "Yesterday" up to 24 h, "n days ago" (2 to 6) up to 6 days, the calendar form beyond that or for an unreadable date |
| ChatSidebar.FormatDateSymmetric | components/layout/ChatSidebar.tsx:87 | past and future at the same distance get the same label |
| ChatSidebar.OneMillisecondIsYesterday | components/layout/ChatSidebar.tsx:90-91 | one millisecond ago reads "Yesterday" |
| ChatSidebar.FiveHoursAgoIsYesterday | components/layout/ChatSidebar.tsx:87-91 | five hours ago reads "Yesterday", whatever the calendar day |
| ChatSidebar.RestoreRoundTrip | components/layout/ChatSidebar.tsx:31-41 | the stored text of a flag is read back as that flag |
| ChatSidebar.Sidebar.constructor | components/layout/ChatSidebar.tsx:28-41 | mounting takes the saved flag (only "true" collapses) and stores it back |
| ChatSidebar.Sidebar.ToggleCollapse | components/layout/ChatSidebar.tsx:43-45 | the flag flips and the stored value follows |
| ChatSidebar.ToggleTwiceAndRemount | components/layout/ChatSidebar.tsx:43-45 | two toggles restore the flag; a remount reads back the state left by a third |
| MessageBubble.Feedback.constructor | components/chat/MessageBubble.tsx:24-25 | neither liked nor disliked |
| MessageBubble.Feedback.HandleLike | components/chat/MessageBubble.tsx:37-40 | the like flips, the dislike is off, never both |
| MessageBubble.Feedback.HandleDislike | components/chat/MessageBubble.tsx:42-45 | the dislike flips, the like is off, never both |
| MessageBubble.PressSequences | components/chat/MessageBubble.tsx:37-45 | like twice from neutral is neutral; like then dislike leaves only the dislike; dislike again leaves neither |
| ChatInput.ButtonDisabledIffRefused | components/chat/ChatInput.tsx:51 | the button is disabled exactly when `handleSend` would refuse |
| ChatInput.BlankNeverSent | components/chat/ChatInput.tsx:22 | a message of white space is never sent |
| ChatInput.Box.constructor | components/chat/ChatInput.tsx:19 | the box starts empty |
| ChatInput.Box.Type | components/chat/ChatInput.tsx:41 | the box holds what was typed |
| ChatInput.Box.HandleSend | components/chat/ChatInput.tsx:21-26 | a non-blank message while neither loading nor disabled is sent trimmed and the box emptied; otherwise nothing is sent and the box is unchanged |
| ChatInput.Box.HandleKeyDown | components/chat/ChatInput.tsx:28-33 | Enter without Shift suppresses the default and sends as `HandleSend`; any other key does nothing |
| ChatInput.ShiftEnterThenEnter | components/chat/ChatInput.tsx:28-33 | Shift+Enter sends nothing; Enter then sends the trimmed text and empties the box |
| ExtractReply.ExtractAiResponse | test-extract.js:2-32 | non-JSON-looking text and a parse failure return the content untrimmed; a parse gives a truthy `ai_response`, else a truthy `response`, else the content |
| ExtractReply.ResultIsContentOrField | test-extract.js:2-32 | the result is the content or a non-empty field of an accepted JSON reply |
| ExtractReply.AiResponseWins | test-extract.js:12-15 | with both fields set, `ai_response` is chosen |
| ExtractReply.EmptyAiResponseFallsThrough | test-extract.js:12-20 | an empty `ai_response` counts as missing |
| ExtractReply.LeadingSpaceStillParsed | test-extract.js:3-27 | leading spaces do not stop the parse, and a failed parse returns them too |
| ExtractReply.Sample1YieldsItsReply | test-extract.js:36-38 | the one-line sample yields its `ai_response` |
| ExtractReply.Sample2YieldsItsReply | test-extract.js:41-46 | the multi-line sample yields its `ai_response` |
| ExtractReply.Sample3IsReturnedAsIs | test-extract.js:49-51 | the plain-text sample is returned unchanged |
| Auth.FirstSet | lib/auth.ts:8 | a non-empty `localStorage` value wins, else a non-empty cookie, else `None`; never an empty string |
| Auth.CookieIsTheBackup | lib/auth.ts:8 | a value is found exactly when one store has a non-empty one; an empty stored value is like none |
| Auth.TokenStorage.GetToken | lib/auth.ts:6-9 | `None` without a window; otherwise the lookup with `localStorage` first |
| Auth.TokenStorage.GetRefreshToken | lib/auth.ts:11-18 | the same for the refresh token |
| Auth.TokenStorage.SetTokens | lib/auth.ts:20-27 | with a window both stores get both keys and the getters return the new (non-empty) tokens; without one nothing changes |
| Auth.TokenStorage.ClearTokens | lib/auth.ts:29-35 | with a window both keys leave both stores; without one nothing changes; both getters return `None` after |
| Auth.PayloadSegment | lib/auth.ts:40 | `None` exactly when the token has no dot; the segment has no dot |
| Auth.PayloadSegmentIsSecondPiece | lib/auth.ts:40 | the token is a dot-free head, a dot, the segment, and nothing or a dot-led tail |
| Auth.IsTokenExpired | lib/auth.ts:37-46 | no token, no segment or an undecodable payload is expired; a numeric `exp` expires at `exp`·1000 ms inclusive; a missing `exp` never expires |
| Auth.ExpiryBoundaryInclusive | lib/auth.ts:41-42 | expired at exactly `exp`·1000, not one millisecond before |
| Auth.MissingExpNeverExpires | lib/auth.ts:41-42 | without a numeric `exp` the token is never expired |
| Auth.ExpiryIsMonotone | lib/auth.ts:42 | once expired, expired at every later instant |
| Auth.SignInThenOut | lib/auth.ts:20-35 | after storing a token it is read back; after clearing neither token is found |
| Text.Trim | components/chat/ChatInput.tsx:22 | `trim()`: no white space at either end, and an already-trimmed string is unchanged |
| Text.TrimIsInfix | components/chat/ChatInput.tsx:22 | the trimmed string is the infix of the input that lies between a leading and a trailing run of white space |
| Text.TrimEmptyIffBlank | hooks/useFileUpload.ts:76 | trimming leaves nothing exactly for an all-white-space string |
| Text.ToLower | components/layout/SearchModal.tsx:29 | each character lower-cased, length kept |
| Text.ToUpper | components/ui/Avatar.tsx:28 | each character upper-cased, length kept |
| Text.SplitOnSpace | components/ui/Avatar.tsx:25 | at least one piece, none containing a space, and the pieces joined with single spaces give the input back |
| Text.JoinThenSplit | components/ui/Avatar.tsx:25 | the converse: for one or more words with no space in them, splitting their single-space join gives the same words back |

## Left out

- Networking: each request's answer is a parameter of its completion step (a payload or a `Failure`). Axios, the multipart body, `AbortController` and request timeouts are not modelled.
- The `response.data.data || response.data` unwrapping (lib/store.ts:223, 244, 256, 327): the payload reaches the model already unwrapped.
- ChatStore.Reconciled: an answer without `assistantMessage` (which would append `undefined`) is not modelled; the assistant message is always present.
- Promise results and re-thrown errors of the store operations are not modelled; the failure steps only change state.
- Time: `Date.now()`, ISO timestamps, the 7000 ms dismissal, the 0 ms deferred switch and the 150 ms start delay are parameters or explicit steps, not real time.
- `navigator.onLine` is a parameter of the failure steps.
- VoiceRecording.Recorder: the browser `SpeechRecognition` object is not modelled (its setup, `stop()` before a restart, the cleanup on unmount, and the "already started" retry after 200 ms). `started` says only whether `start()` succeeded.
- `toLocaleDateString` (components/layout/ChatSidebar.tsx:93): the calendar label is `CalendarDate` without its text. Date parsing is a parameter (`dayOf`, or `None` for an unreadable date).
- ChatStore.TitleFromContent: lengths and the 47-character prefix count Unicode scalars, where `content.length` and `substring(0, 47)` count UTF-16 code units. Content with characters outside the Basic Multilingual Plane (emoji, say) is cut at a different place, and the code can even split a surrogate pair, which a Dafny string cannot hold.
- Avatar.Take: `slice(0, 2)` counts UTF-16 code units and the model counts scalars, so the two differ when a word starts with a character outside the Basic Multilingual Plane.
- Avatar.FirstChars: `n[0]` is a word's first UTF-16 code unit, which for a character outside the Basic Multilingual Plane is a lone high surrogate; the model takes the whole character.
- Avatar.Initials: for the same reason, a name whose first word starts with an emoji has a lone high surrogate as its first initial in the code, and the whole emoji in the model.
- Text.ToLower: ASCII letters only, because Unicode case mapping is not modelled.
- Text.ToUpper: ASCII letters only, for the same reason.
- ExtractReply.ExtractAiResponse: `JSON.parse` is a parameter, and a field is either a string or absent. A truthy non-string field (a number or an object), which the code would return as it is, is not modelled. Console logging is left out.
- Auth.IsTokenExpired: `atob` / `JSON.parse` are one parameter, and `exp` is an integer number of seconds. Fractional claims are not modelled.
- Auth.TokenStorage: cookie lifetimes (1 and 7 days) and the cookie options are not modelled.
- Middleware.Guard: the `config.matcher` list, which restricts the paths the guard runs on, is not modelled; the guard is stated for every path. A redirect is its target and the `redirect` parameter, not a built URL.
- ChatSidebar.Sidebar.constructor: the save effect's first run, which writes the initial `false` before the loaded value re-renders, is not modelled; the model keeps the settled state.
- React updates are applied in program order, and the renders between the `set` calls of one handler are not modelled.
- Numbers are unbounded integers; file sizes, byte counts and milliseconds do not overflow or lose precision.
- Presentational code (copy button, markdown, routing, modals, the media gallery) and the authentication store of lib/store.ts:43-157 are outside this model.

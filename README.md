# ZUCA portal — a Dafny model

This project models the core of the ZUCA community portal, a single-page web
application for a university Catholic association. Members sign in or register
and play a seven-question Bible quiz. Points earned in the quiz rank them on the
"Hall of Faith" leaderboard. Members also share messages, files and voice notes
in a fellowship chat, which an automatic "Spiritual Guide" joins. They post
community updates by category, keep a prayer wall with "Amen" likes, share choir
recordings and sheet music, talk to a private "Faith AI" companion and edit
their profile.

Everything the portal keeps lives in the browser's local storage. There is one
whole collection per key, and every repository write raises a `storage_sync`
event that the open pages listen to so they can reload.

The model has one module per source file.

- `Types` (types.dfy) holds the records and enumerations.
- `Text` (text.dfy) holds the string primitives the pages use: `trim`,
  `toLowerCase`, `includes`, `startsWith`.
- `Lists` (lists.dfy) holds the removal by identifier that every delete uses.
- `StorageService` (storage.dfy) is the record store. It is a class over a map
  from key to stored value, plus a counter of `storage_sync` events. It carries
  the repository operations and the pure list transforms they apply.
- `GeminiService` (gateway.dfy) is the gateway to the remote text generator,
  with its offline fallbacks. The generator's reply is a parameter.
- `Leaderboard` (leaderboard.dfy) sorts the stored users in place, as an array
  insertion sort, and builds the ranked rows.
- `TriviaPage`, `AuthPage`, `App`, `ChatPage`, `PetitionsPage`, `UpdatesPage`,
  `ChoirPage`, `ProfilePage`, `FaithAIPage` and `Hero` are the pages and the
  shell. Each page whose state changes step by step is a class.
  - A page's fields are its state.
  - A page that writes to the store holds the store and changes it through the
    repository methods.
  - Every `storage_sync` the page would hear at once is modelled as a call of
    its `Refresh`.
- `Scenario` (scenario.dfy) strings the pieces together in one session:
  register, play the offline quiz, be ranked.

Things the browser supplies are parameters of the operations: random
identifiers, the clock, the contents of a file once it has been read, the
generator's replies and the user's answer to a confirmation dialog.

Some of the code's behaviour is easy to misread; the model keeps it as written:

- A generated quiz is returned as parsed, without any check of its shape. Only
  a failure of the call or of the parse falls back to the built-in set
  (`GeminiService.ParsedReplyUnchecked`).
- A trivia score is bounded only by the total value of the questions answered.
  That total is 50 for the built-in set, but a generated set may be worth more
  (`TriviaPage.ScoreBounds`, `TriviaPage.FallbackExtremes`).
- The leaderboard's effect keeps the previous list when there is neither a
  stored users collection nor a signed-in user (`Leaderboard.LoadUsers`).
- A stored value that is not valid JSON makes `JSON.parse` throw; it is not
  read as absent (see "Left out").

## Model

| member | source | states |
|---|---|---|
| Types.ParseRole | Web/types.ts:1-6 | a stored role name reads back as the role it names, and every role's name reads back as that role |
| Types.ParseMedia | Web/types.ts:30 | the four media kind names and the kinds correspond one to one |
| Types.ParseCategory | Web/types.ts:54 | the three update category names and the categories correspond one to one |
| Text.LowerChar | Web/components/AuthPage.tsx:26-27 | no capital letter remains; a capital becomes the lower-case letter at the same place in the alphabet; every other character is kept |
| Text.ToLower | Web/components/ChatPage.tsx:59 | same length, no capital letter remains, each capital becomes its lower-case letter in place, every other character is kept, and a text without capitals is returned unchanged |
| Text.ToLowerIdempotent | Web/components/AuthPage.tsx:26-27 | lower-casing twice is lower-casing once |
| Text.ContainsAt | Web/components/ChatPage.tsx:59 | an occurrence of the part at any position makes `includes` true |
| Text.ContainsFound | Web/components/ChatPage.tsx:59 | when `includes` is true the part occurs at some position |
| Text.ContainsIff | Web/components/ChatPage.tsx:59 | `includes` is true exactly when the part occurs at some position |
| Text.LackingCharNotContained | Web/components/ChatPage.tsx:59 | a text lacking one of the part's characters does not include the part |
| Lists.Without | Web/services/storageService.ts:47-50 | the filtered list keeps exactly the elements whose id differs, and is never longer |
| Lists.WithoutConcat | Web/services/storageService.ts:58-61 | filtering distributes over concatenation, so kept elements keep their order |
| Lists.WithoutAbsent | Web/services/storageService.ts:69-72 | removing an id no element carries changes nothing |
| Lists.WithoutLength | Web/services/storageService.ts:86-89 | the length drops by exactly the number of elements carrying the id |
| Lists.WithoutIdempotent | Web/services/storageService.ts:47-50 | deleting the same id twice is deleting it once |
| StorageService.MatchIndex | Web/services/storageService.ts:35 | `findIndex` is -1 exactly when no record shares the id or email, otherwise the first position that does |
| StorageService.FindUserIndex | Web/services/storageService.ts:35 | the search loop returns the same first same-account position, or -1 exactly when there is none |
| StorageService.Upsert | Web/services/storageService.ts:33-39 | the saved user is in the collection; the first same-account record is replaced in place; with none, the user is appended |
| StorageService.UpsertShape | Web/services/storageService.ts:33-39 | the collection grows by one exactly when nothing matched, and every other record is untouched |
| StorageService.UpsertIdempotent | Web/services/storageService.ts:33-39 | saving the same user twice leaves the collection as saving once |
| StorageService.LikeById | Web/services/storageService.ts:73-78 | each petition with that id gains one like; all other fields, all other petitions and the order are unchanged |
| StorageService.LikeTimes | Web/services/storageService.ts:73-78 | repeated likes keep the number of petitions |
| StorageService.LikeTimesCounts | Web/services/storageService.ts:73-78 | after n likes, a petition with that id has exactly n more likes and nothing else changed |
| StorageService.Lookup | Web/services/storageService.ts:19-22 | the stored value under the key, or the caller's default when nothing is stored |
| StorageService.UsersIn | Web/services/storageService.ts:32 | the stored users collection; the empty collection when the key holds nothing |
| StorageService.ChatIn | Web/services/storageService.ts:42 | the stored chat history; the empty history when the key holds nothing |
| StorageService.UpdatesIn | Web/services/storageService.ts:53 | the stored posts; no posts when the key holds nothing |
| StorageService.PetitionsIn | Web/services/storageService.ts:64 | the stored petitions; no petitions when the key holds nothing |
| StorageService.ChoirIn | Web/services/storageService.ts:81 | the stored materials; no materials when the key holds nothing |
| StorageService.CurrentUserIn | Web/App.tsx:27-30 | the signed-in user kept under its key; none when the key holds nothing |
| StorageService.ReadAfterWrite | Web/services/storageService.ts:19-28 | after a write, `get` of that key gives the value written; after a removal, the default; every other key reads as before |
| StorageService.CollectionsReadBack | Web/services/storageService.ts:30-89 | each collection written under its key reads back as written; the signed-in user reads back, and reads as none once removed |
| StorageService.WriteIsolated | Web/services/storageService.ts:10-17 | writing or removing one key changes no reading of any other collection, because the six keys differ |
| StorageService.RecordStore.constructor | Web/services/storageService.ts:19-22 | an empty storage, no event raised |
| StorageService.RecordStore.SavedUsers | Web/components/Leaderboard.tsx:13-14 | the users collection exactly when one is stored, none otherwise |
| StorageService.RecordStore.Set | Web/services/storageService.ts:24-28 | the key's whole value is replaced and exactly one `storage_sync` is raised |
| StorageService.RecordStore.SetItem | Web/App.tsx:62 | a direct write replaces the value and raises no event |
| StorageService.RecordStore.RemoveItem | Web/App.tsx:68 | a direct removal drops the key and raises no event |
| StorageService.RecordStore.SaveUser | Web/services/storageService.ts:33-39 | the users collection becomes the upsert of the old one; one event; no other collection reads differently |
| StorageService.RecordStore.AddChatMessage | Web/services/storageService.ts:43-46 | the message is appended to the history; one event; no other collection reads differently |
| StorageService.RecordStore.DeleteChatMessage | Web/services/storageService.ts:47-50 | the history loses exactly the messages with that id; one event; no other collection reads differently |
| StorageService.RecordStore.AddUpdate | Web/services/storageService.ts:54-57 | the post goes first; one event; no other collection reads differently |
| StorageService.RecordStore.DeleteUpdate | Web/services/storageService.ts:58-61 | exactly the posts with that id go; one event; no other collection reads differently |
| StorageService.RecordStore.AddPetition | Web/services/storageService.ts:65-68 | the petition goes first; one event; no other collection reads differently |
| StorageService.RecordStore.DeletePetition | Web/services/storageService.ts:69-72 | exactly the petitions with that id go; one event; no other collection reads differently |
| StorageService.RecordStore.LikePetition | Web/services/storageService.ts:73-78 | the wall becomes the one-like update of the old wall; one event; no other collection reads differently |
| StorageService.RecordStore.AddChoirMaterial | Web/services/storageService.ts:82-85 | the material goes first; one event; no other collection reads differently |
| StorageService.RecordStore.DeleteChoirMaterial | Web/services/storageService.ts:86-89 | exactly the materials with that id go; one event; no other collection reads differently |
| GeminiService.FallbackQuestions | Web/services/geminiService.ts:7-15 | the fallback set meets the quiz contract: seven questions, four options each, a correct index in 0..3, positive points summing to 50 |
| GeminiService.GenerateBibleTrivia | Web/services/geminiService.ts:17-53 | any failure gives exactly the fallback set; a parsed reply is returned as it is |
| GeminiService.ParsedReplyUnchecked | Web/services/geminiService.ts:46-47 | a parsed reply that breaks the quiz contract still goes through |
| GeminiService.GetSpiritualInsight | Web/services/geminiService.ts:55-68 | the reply text; the blessing when the reply has no text; the fixed fallback on failure; never empty |
| Leaderboard.Tied | Web/components/Leaderboard.tsx:17 | a tie group holds exactly the users with those points |
| Leaderboard.TiedConcat | Web/components/Leaderboard.tsx:17 | tie groups distribute over concatenation |
| Leaderboard.SwapKeepsTies | Web/components/Leaderboard.tsx:17 | swapping neighbours with different points keeps every tie group |
| Leaderboard.SortByPoints | Web/components/Leaderboard.tsx:17 | the array ends sorted by points, highest first, with every tie group in its stored order (a stable sort) |
| Leaderboard.SinkInto | Web/components/Leaderboard.tsx:17 | one insertion step extends the sorted prefix by one and keeps the tie groups |
| Leaderboard.CountInTies | Web/components/Leaderboard.tsx:17 | a user occurs in the list as often as in its own tie group |
| Leaderboard.SameTiesPermutation | Web/components/Leaderboard.tsx:17 | equal tie groups mean the board is a permutation of the stored users |
| Leaderboard.NoTiesEmpty | Web/components/Leaderboard.tsx:33-36 | only the empty list has the tie groups of the empty collection |
| Leaderboard.HeadsAgree | Web/components/Leaderboard.tsx:17 | two sorted orders with equal tie groups start with the same user |
| Leaderboard.TailTies | Web/components/Leaderboard.tsx:17 | removing a common first user keeps the tie groups equal |
| Leaderboard.SortedTiesUnique | Web/components/Leaderboard.tsx:17 | the board order is determined by the stored collection alone |
| Leaderboard.EntryAt | Web/components/Leaderboard.tsx:38-75 | the row for position idx: rank idx + 1, a medal exactly for the first three positions, Trainer and "you" flags as the user's role and id say |
| Leaderboard.LoadUsers | Web/components/Leaderboard.tsx:11-22 | a stored collection, even an empty one, is shown sorted and as a permutation; otherwise the viewer alone; with neither, the previous list |
| Leaderboard.Entries | Web/components/Leaderboard.tsx:38-41 | one row per user in board order, rank = position + 1, a medal exactly for ranks 1-3, Trainer and "you" flags exactly as the user's role and id say |
| Leaderboard.ShowsEmptyState | Web/components/Leaderboard.tsx:33-36 | the empty-state message shows exactly when the board has no row; otherwise the board starts at rank 1 with a medal |
| Leaderboard.EmptyCollectionEmptyBoard | Web/components/Leaderboard.tsx:33-36 | a stored empty collection shows the empty-state message |
| Leaderboard.TieKeepsStoredOrder | Web/components/Leaderboard.tsx:17 | users with 50, 50 and 30 points are ranked 1, 2, 3 in stored order |
| TriviaPage.ScoreBounds | Web/components/TriviaPage.tsx:49-56 | with non-negative points, the score lies between 0 and the value of the questions answered |
| TriviaPage.Earned | Web/components/TriviaPage.tsx:49-56 | a wrong answer, or no answer, earns nothing; a correct one earns the question's points, and nothing when the points are missing |
| TriviaPage.ScoreOf | Web/components/TriviaPage.tsx:49-56 | the score after a sequence of answers: the sum of what each answer earned (no contract of its own; its bounds are `ScoreBounds`) |
| TriviaPage.MissingPointsScoreNothing | Web/components/TriviaPage.tsx:54 | a set whose questions all lack points scores 0 whatever the answers |
| TriviaPage.AllCorrectPrefix | Web/components/TriviaPage.tsx:53-55 | answering the first n questions correctly earns their total value |
| TriviaPage.AllCorrectScore | Web/components/TriviaPage.tsx:53-55 | a perfect game earns the total value of the set |
| TriviaPage.NoneCorrectScore | Web/components/TriviaPage.tsx:53-55 | a game with no correct answer earns nothing |
| TriviaPage.FallbackExtremes | Web/services/geminiService.ts:7-15 | on the fallback set a perfect game scores 50 and an all-wrong game 0 |
| TriviaPage.TriviaState.constructor | Web/components/TriviaPage.tsx:13-20 | the page starts loading, on the game view, at question 0 with score 0 |
| TriviaPage.TriviaState.LoadQuestions | Web/components/TriviaPage.tsx:33-43 | the gateway's set is taken (the quiz contract holds on failure) and the game restarts |
| TriviaPage.TriviaState.HandleAnswer | Web/components/TriviaPage.tsx:49-56 | only the first answer to a question counts: it is kept and adds that question's points exactly when correct; later answers change nothing; the score always equals the sum over the answers given |
| TriviaPage.TriviaState.HandleNext | Web/components/TriviaPage.tsx:58-67 | moves on and clears the answer, or after the last question ends the game and reports the user with the score added |
| TriviaPage.TriviaState.SetView | Web/components/TriviaPage.tsx:75 | switches between game and leaderboard; the questions, position, score, answer state and selected option are all kept |
| TriviaPage.ScoreWithinReached | Web/components/TriviaPage.tsx:49-56 | during a game, the score never exceeds the value of the questions reached |
| AuthPage.LoginIndex | Web/components/AuthPage.tsx:25-28 | `find` gives the first account whose name or email equals the identity ignoring case, or -1 exactly when none does |
| AuthPage.NewUser | Web/components/AuthPage.tsx:36-45 | the new account: the form's name as name and username, its email, the role, 0 points, an admission number exactly for Students |
| AuthPage.Submit | Web/components/AuthPage.tsx:19-48 | sign-in fails exactly when no account matches, otherwise gives the first match; registration fails exactly when the name is taken ignoring case, otherwise gives the new account |
| AuthPage.MatchesIgnoreCase | Web/components/AuthPage.tsx:26-27 | whether an account matches depends only on the lower-cased identity |
| AuthPage.LoginIndexIgnoresCase | Web/components/AuthPage.tsx:25-28 | the first match is the same for any letter case of the identity |
| AuthPage.LoginIgnoresCase | Web/components/AuthPage.tsx:24-30 | signing in with the identity in any letter case gives the same outcome |
| AuthPage.RegisterThenLogin | Web/components/AuthPage.tsx:19-48 | after registering and saving, the new member signs in by name (given a fresh id and email, and no email equal to the name) |
| AuthPage.DuplicateEmailReplaces | Web/components/AuthPage.tsx:32-46 | registration checks names only: a new name with a stored email is accepted, and saving it overwrites that account in place |
| AuthPage.RegistrationNeverGuest | Web/components/AuthPage.tsx:11-41 | the form offers Student (the default), Trainer and Non-Student only, so an account it registers is never a Guest |
| App.ThemeValue | Web/App.tsx:41-49 | the effect writes "dark" or "light", and "dark" exactly in dark mode |
| App.ThemeDefaultsLight | Web/App.tsx:19-22 | nothing stored, "light", "Dark" and the empty text all start in light mode; only "dark" starts dark |
| App.WelcomeMessage | Web/App.tsx:63 | the welcome text is "Welcome, " then the user's name then "!", so the name reads back from it |
| App.ThemeRoundTrip | Web/App.tsx:41-49 | the theme written by the effect reads back as the same theme |
| App.RenderScreen | Web/App.tsx:84-110 | with no user only the sign-in form shows; with a user, each view has its own page |
| App.NotificationExpires | Web/App.tsx:51-57 | a notification with a fresh id, dismissed by its timer, leaves the stack as before |
| App.DismissKeepsOthers | Web/App.tsx:54-56 | dismissing one notification keeps the others in order |
| App.AppState.constructor | Web/App.tsx:17-24 | signed out, Home, no notifications, menu closed, theme from storage |
| App.AppState.Mount | Web/App.tsx:26-49 | the stored signed-in user is restored; the theme is written without an event |
| App.AppState.PersistTheme | Web/App.tsx:41-49 | the theme key holds "dark" or "light" as the mode says |
| App.AppState.SetDarkMode | Web/App.tsx:132 | the toggle sets the mode and its effect writes it |
| App.AppState.HandleSync | Web/App.tsx:32-35 | the stored signed-in user, if any, is adopted |
| App.AppState.AddNotification | Web/App.tsx:51-53 | the notification is pushed on the stack |
| App.AppState.DismissNotification | Web/App.tsx:54-56 | every notification with that id is removed |
| App.AppState.HandleLogin | Web/App.tsx:59-64 | the account is upserted into the users collection with one event; it becomes the user in memory and in storage; a welcome is pushed |
| App.AppState.HandleLogout | Web/App.tsx:66-71 | signed out in memory and storage, back to Home, menu closed, no event |
| App.AppState.HandleUpdateUser | Web/App.tsx:73-77 | as sign-in, without the welcome |
| App.AppState.HandleSetView | Web/App.tsx:79-82 | the view changes and the menu closes |
| App.AppState.OnPlayTrivia | Web/App.tsx:100 | the Home page's callback opens Trivia and leaves the menu as it is |
| App.AppState.OnChatActivity | Web/App.tsx:102 | the chat callback, called with the sender's name (Web/components/ChatPage.tsx:56), pushes an info notification "Fellowship activity: " followed by that name |
| App.AppState.OnNewUpdate | Web/App.tsx:104 | the updates callback pushes a success notification with the title |
| ChatPage.NewMessage | Web/components/ChatPage.tsx:43-52 | the message carries the sender's id, name, role and picture, the text and the attachment |
| ChatPage.BotMessage | Web/components/ChatPage.tsx:59-72 | the guide's message is from "bot", "Spiritual Guide", carrying the non-empty insight text |
| ChatPage.ShouldSend | Web/components/ChatPage.tsx:41 | a message is sent exactly when a file is attached or the text has a character other than whitespace |
| ChatPage.WantsBotReply | Web/components/ChatPage.tsx:59 | the guide answers exactly when "pray" or "bible" occurs somewhere in the lower-cased text |
| ChatPage.IsSystem | Web/components/ChatPage.tsx:156 | notices are the messages from "system" or "bot" (no contract of its own; `DeleteRights` and `BotMessagesHaveNoDelete` state its use) |
| ChatPage.ShowsDelete | Web/components/ChatPage.tsx:156-159 | the delete control is on ordinary messages of the viewer, or of anyone for a Trainer (no contract of its own; stated by `DeleteRights`) |
| ChatPage.MeetingTextIsQuiet | Web/components/ChatPage.tsx:83-87 | the meeting invitation mentions neither "pray" nor "bible", so the guide never answers it |
| ChatPage.ClassifyUpload | Web/components/ChatPage.tsx:115-126 | image, video and audio by MIME prefix, in that order; a document exactly when no prefix matches |
| ChatPage.ClassifyByPrefix | Web/components/ChatPage.tsx:119-121 | any MIME type starting with a kind's prefix is that kind |
| ChatPage.BotMessagesHaveNoDelete | Web/components/ChatPage.tsx:155-159 | the guide's messages are notices, and nobody is offered to delete them |
| ChatPage.DeleteRights | Web/components/ChatPage.tsx:155-159 | on ordinary messages, Trainers may delete all and others only their own |
| ChatPage.WantsBotReplyIgnoresCase | Web/components/ChatPage.tsx:59 | the guide's trigger ignores letter case |
| ChatPage.ShoutedPrayerAsksForGuide | Web/components/ChatPage.tsx:59 | "Please PRAY for me" brings the guide |
| ChatPage.ChatState.constructor | Web/components/ChatPage.tsx:13-17 | an empty chat with nothing pending |
| ChatPage.ChatState.Refresh | Web/components/ChatPage.tsx:22-30 | the page shows the stored history |
| ChatPage.ChatState.HandleSend | Web/components/ChatPage.tsx:38-58 | sends exactly when the text is not blank or a file is attached: the message is appended with one event, the composer clears, the typing indicator starts when the guide will answer; otherwise nothing changes |
| ChatPage.ChatState.CompleteBotReply | Web/components/ChatPage.tsx:59-72 | the indicator stops and the guide's message is appended |
| ChatPage.ChatState.StartMeeting | Web/components/ChatPage.tsx:83-87 | the meeting link is always posted with one event and the composer clears; the guide's typing indicator and the recording state are kept |
| ChatPage.ChatState.DeleteMessage | Web/components/ChatPage.tsx:75-81 | on confirmation the message goes with one event; otherwise nothing changes; the typing and recording states are kept either way |
| ChatPage.ChatState.HandleFileUpload | Web/components/ChatPage.tsx:115-126 | the file becomes the pending attachment, with its classified kind |
| ChatPage.ChatState.EditInput | Web/components/ChatPage.tsx:227 | the typed text becomes the composer text and nothing else changes |
| ChatPage.ChatState.StartRecording | Web/components/ChatPage.tsx:89-101 | a recorder is created and recording starts; the typing indicator, composer and attachment are kept |
| ChatPage.ChatState.StopRecording | Web/components/ChatPage.tsx:96-113 | without a recorder nothing changes; otherwise recording stops, and only a recorder that was running delivers the note as the pending audio attachment; the typing indicator is kept |
| PetitionsPage.NewPetition | Web/components/PetitionsPage.tsx:26-40 | the petition carries the author, the content and no likes |
| PetitionsPage.NewPetitionLikes | Web/components/PetitionsPage.tsx:50-52 | a new petition liked n times shows n likes and the rest of the wall is untouched |
| PetitionsPage.CreateThenDelete | Web/components/PetitionsPage.tsx:42-48 | deleting a petition just created gives back the wall as it was |
| PetitionsPage.DeleteRights | Web/components/PetitionsPage.tsx:77-90 | a Trainer may delete any non-system petition; others only their own |
| PetitionsPage.CanManage | Web/components/PetitionsPage.tsx:77-78 | the author and Trainers manage a petition (no contract of its own; stated by `DeleteRights`) |
| PetitionsPage.ShowsDelete | Web/components/PetitionsPage.tsx:90 | the delete control: for those who manage the petition, never on a system petition (no contract of its own; stated by `DeleteRights`) |
| PetitionsPage.PetitionsState.constructor | Web/components/PetitionsPage.tsx:11-14 | an empty wall with the form closed |
| PetitionsPage.PetitionsState.Refresh | Web/components/PetitionsPage.tsx:16-24 | the page shows the stored wall |
| PetitionsPage.PetitionsState.SetAdding | Web/components/PetitionsPage.tsx:11-14 | the form opens or closes |
| PetitionsPage.PetitionsState.EditContent | Web/components/PetitionsPage.tsx:11-14 | the typed text is kept |
| PetitionsPage.PetitionsState.HandleCreate | Web/components/PetitionsPage.tsx:26-40 | a non-blank petition goes on top with one event and the form closes and clears; a blank one changes nothing |
| PetitionsPage.PetitionsState.HandleDelete | Web/components/PetitionsPage.tsx:42-48 | on confirmation the petition goes with one event; otherwise nothing changes |
| PetitionsPage.PetitionsState.HandleLike | Web/components/PetitionsPage.tsx:50-52 | one more like for the petition, with one event |
| UpdatesPage.Filtered | Web/components/UpdatesPage.tsx:68 | "All" shows every post; a category shows exactly its posts |
| UpdatesPage.NewUpdate | Web/components/UpdatesPage.tsx:42-58 | the post carries the form's text and category; an empty title becomes "Untitled"; the image is kept even when empty |
| UpdatesPage.FilteredLength | Web/components/UpdatesPage.tsx:68 | a category filter shows as many posts as the category holds |
| UpdatesPage.FiltersPartition | Web/components/UpdatesPage.tsx:86-89 | every post shows under exactly one category |
| UpdatesPage.NewPostOnTop | Web/components/UpdatesPage.tsx:42-58 | a new post shows first under "All" and under its category |
| UpdatesPage.FilteredOne | Web/components/UpdatesPage.tsx:68 | a single post is shown by "All", and by a category exactly when it is of that category |
| UpdatesPage.FilteredConcat | Web/components/UpdatesPage.tsx:68 | filtering two walls joined is joining their filtered walls, so the posts shown keep their wall order |
| UpdatesPage.ShowsDelete | Web/components/UpdatesPage.tsx:139 | the delete control is for the author and for Trainers (no contract of its own; stated by `DeleteRights`) |
| UpdatesPage.DeleteRights | Web/components/UpdatesPage.tsx:139 | a Trainer sees the delete control on every post; anyone else exactly on their own |
| UpdatesPage.UpdatesState.constructor | Web/components/UpdatesPage.tsx:12-20 | an empty wall, filter "All", the form empty and closed |
| UpdatesPage.UpdatesState.Refresh | Web/components/UpdatesPage.tsx:23-31 | the page shows the stored wall |
| UpdatesPage.UpdatesState.SetFilter | Web/components/UpdatesPage.tsx:86-89 | the filter changes and nothing else |
| UpdatesPage.UpdatesState.SetAdding | Web/components/UpdatesPage.tsx:12-20 | the form opens or closes |
| UpdatesPage.UpdatesState.EditForm | Web/components/UpdatesPage.tsx:12-20 | the typed form is kept |
| UpdatesPage.UpdatesState.HandleImageUpload | Web/components/UpdatesPage.tsx:33-40 | the image read goes into the form |
| UpdatesPage.UpdatesState.HandleSubmit | Web/components/UpdatesPage.tsx:42-58 | the post goes on top with one event, the form closes and resets, the title is announced |
| UpdatesPage.UpdatesState.HandleDelete | Web/components/UpdatesPage.tsx:60-66 | on confirmation the post goes with one event; otherwise nothing changes |
| ChoirPage.Filtered | Web/components/ChoirPage.tsx:62 | "All" shows every material; a kind shows exactly its materials |
| ChoirPage.NewMaterial | Web/components/ChoirPage.tsx:35-52 | refused exactly when no file was read; otherwise the material carries the form, the file and the uploader |
| ChoirPage.FilterIdempotent | Web/components/ChoirPage.tsx:62 | filtering twice by the same kind is filtering once |
| ChoirPage.UploadOnTop | Web/components/ChoirPage.tsx:35-52 | a new upload shows first under its kind |
| ChoirPage.FilteredOne | Web/components/ChoirPage.tsx:62 | a single material is shown by "All", and by a kind exactly when it is of that kind |
| ChoirPage.FilteredConcat | Web/components/ChoirPage.tsx:62 | filtering two lists joined is joining their filtered lists, so the materials shown keep their order |
| ChoirPage.ShowsDelete | Web/components/ChoirPage.tsx:104 | the delete control is for the uploader and for Trainers (no contract of its own; stated by `DeleteRights`) |
| ChoirPage.DeleteRights | Web/components/ChoirPage.tsx:104 | a Trainer sees the delete control on every material; anyone else exactly on their own uploads |
| ChoirPage.ChoirState.constructor | Web/components/ChoirPage.tsx:11-14 | an empty treasury, filter "All", the form empty and closed |
| ChoirPage.ChoirState.Refresh | Web/components/ChoirPage.tsx:16-24 | the page shows the stored treasury |
| ChoirPage.ChoirState.SetFilter | Web/components/ChoirPage.tsx:74-75 | the filter changes and nothing else |
| ChoirPage.ChoirState.SetAdding | Web/components/ChoirPage.tsx:11-14 | the form opens or closes |
| ChoirPage.ChoirState.EditForm | Web/components/ChoirPage.tsx:11-14 | the typed form is kept |
| ChoirPage.ChoirState.HandleFileUpload | Web/components/ChoirPage.tsx:26-33 | the file's contents and name go into the form |
| ChoirPage.ChoirState.HandleSubmit | Web/components/ChoirPage.tsx:35-52 | with no file nothing changes; otherwise the material goes on top with one event and the form closes and resets |
| ChoirPage.ChoirState.HandleDelete | Web/components/ChoirPage.tsx:54-60 | on confirmation the material goes with one event; otherwise nothing changes |
| ProfilePage.ProfileState.constructor | Web/components/ProfilePage.tsx:12-13 | the form's copy is the account at mount, not editing |
| ProfilePage.ProfileState.Rerender | Web/components/ProfilePage.tsx:12-13 | a new account from the shell leaves the form's copy as it was |
| ProfilePage.ProfileState.ToggleEditing | Web/components/ProfilePage.tsx:59 | editing toggles |
| ProfilePage.ProfileState.EditName | Web/components/ProfilePage.tsx:77 | only the form's name changes |
| ProfilePage.ProfileState.EditBio | Web/components/ProfilePage.tsx:84 | only the form's bio changes |
| ProfilePage.ProfileState.HandleImageChange | Web/components/ProfilePage.tsx:16-25 | the current account with the new picture is handed on |
| ProfilePage.ProfileState.HandleSubmit | Web/components/ProfilePage.tsx:27-31 | the form's copy is handed on, equal to the account at mount except for name and bio; editing ends |
| ProfilePage.ProfileState.HandleSubmitMerged | Web/components/ProfilePage.tsx:27-31 | the intended submit: the form's name and bio applied to the current account, everything else as the shell last passed it; editing ends |
| ProfilePage.AvatarThenSave | Web/components/ProfilePage.tsx:16-31 | a new avatar followed by a saved name change hands on the account with the mount-time picture, undoing the avatar |
| ProfilePage.AvatarThenSaveIntended | Web/components/ProfilePage.tsx:16-31 | with the intended submit, a new avatar followed by a saved name change keeps the new avatar |
| FaithAIPage.FaithAIState.constructor | Web/components/FaithAIPage.tsx:11-13 | an empty conversation, not waiting |
| FaithAIPage.FaithAIState.EditInput | Web/components/FaithAIPage.tsx:12 | the typed text is kept |
| FaithAIPage.FaithAIState.SendText | Web/components/FaithAIPage.tsx:24-31 | refused when the text is blank or a reply is awaited; otherwise the question is appended, the composer clears, and the reply is awaited; the questions and answers keep alternating |
| FaithAIPage.FaithAIState.BeginSend | Web/components/FaithAIPage.tsx:24-31 | the form's send: the typed text is sent |
| FaithAIPage.FaithAIState.CompleteSend | Web/components/FaithAIPage.tsx:33-35 | the answer is appended and the wait ends |
| FaithAIPage.FaithAIState.ClickSuggestionAsWritten | Web/components/FaithAIPage.tsx:70 | the suggestion fills the composer, but what is sent is the composer text from before the click |
| FaithAIPage.FaithAIState.ClickSuggestion | Web/components/FaithAIPage.tsx:70 | the suggestion itself is sent |
| FaithAIPage.SuggestionOnFreshPage | Web/components/FaithAIPage.tsx:38-43 | on a fresh page the first suggestion, clicked as written, sends nothing; as intended, it is asked |
| FaithAIPage.ExchangeKeepsAlternation | Web/components/FaithAIPage.tsx:24-36 | a question followed by its answer keeps the conversation alternating |
| Hero.DayOfYear | Web/components/Hero.tsx:43 | the day number lies between 1 and 372 |
| Hero.VerseIndex | Web/components/Hero.tsx:44 | the verse index is always a valid position |
| Hero.SaintIndex | Web/components/Hero.tsx:45 | the saint index is always a valid position |
| Hero.DailyVerse | Web/components/Hero.tsx:43 | the verse of the day is one of the four verses |
| Hero.DailySaint | Web/components/Hero.tsx:45 | the saint of the day is one of the two saints |
| Hero.NextDayRotates | Web/components/Hero.tsx:43-45 | within a month the verse advances by one each day and the saint alternates |
| Hero.SaintRepeatsAfterShortMonth | Web/components/Hero.tsx:43-45 | every month counts as 31 days, so April 30 and May 1 show the same saint |
| Hero.PartOfDay | Web/components/Hero.tsx:47-52 | morning exactly before 12, afternoon exactly from 12 to before 17, evening exactly from 17 |
| Hero.Greeting | Web/components/Hero.tsx:47-52 | the greeting of each part of the day (no contract of its own; `GreetingsDistinct` states that the three differ) |
| Hero.GreetingsDistinct | Web/components/Hero.tsx:47-52 | the three greetings are different texts, so each change of the part of the day shows |
| Hero.GreetingChangesTwice | Web/components/Hero.tsx:47-52 | over a day the greeting changes exactly at 12 and at 17 |
| Hero.FirstName | Web/components/Hero.tsx:78 | the first name is a prefix of the name, holds no space, and is followed by a space when shorter |
| Hero.FirstNameOf | Web/components/Hero.tsx:78 | the first word of "first rest" is `first` |
| Scenario.PlayFallbackQuiz | Web/components/TriviaPage.tsx:49-67 | three right answers then four wrong ones on the fallback set report 15 more points |
| Scenario.RegisterPlayAndRank | Web/components/Leaderboard.tsx:11-41 | a student who registers and then scores 15 in the fallback quiz is alone on the board: rank 1, with a medal, marked as the viewer, with 15 points |

## Left out

- Serialisation: stored values are kept as the records themselves, not as JSON text.
- Corrupt storage: a stored value that is not valid JSON makes `JSON.parse` throw. A value of the wrong shape under a known key is read as the empty collection (`Fits` keeps every write well shaped).
- Letter case and whitespace are those of ASCII. Unicode case mapping and Unicode whitespace in `trim` are not modelled.
- Randomness, the clock and the browser: random ids, `new Date()`, `Date.now()` and the `FileReader` results are parameters. So is the answer to `window.confirm`.
- Not modelled: `alert`, `window.open` for the meeting, scrolling, styling and the mobile menu's open button.
- The network: the remote generator is not modelled. Each call is replaced by its outcome, as a `TriviaReply` or `InsightReply`. An empty reply text stands for a reply without text.
- Asynchrony: each `await` in the chat and the Faith AI page splits a handler into two methods that run in order: `ChatState.HandleSend` then `ChatState.CompleteBotReply`, and `FaithAIState.SendText` then `FaithAIState.CompleteSend`. `loadQuestions` also awaits the generator (Web/components/TriviaPage.tsx:35) but is modelled as the single step `TriviaState.LoadQuestions`, so the loading screen in between is not a separate state. Interleavings with other events are not modelled.
- `storage_sync` listeners: each page's reload on the event is one explicit `Refresh` call after its own write. The shell's listener is an explicit `HandleSync` call. Reloads caused by other pages' writes are left to the caller.
- Notifications: the four-second timer is the explicit `DismissNotification` call.
- Microphone: the denied-microphone path and the media recorder's chunks are not modelled. The recorded note is a parameter. Stopping a recorder that has already stopped is modelled as delivering no note, which is what `MediaRecorder.stop` does on an inactive recorder.
- Form validation: HTML `required` attributes are not modelled. Passwords are collected but never compared, as in the code.
- ChoirPage.ChoirState.HandleFileUpload: the code applies the file to the form as it was when the file was chosen, so edits typed while the file is read are lost. The model applies the file to the form as it is when the read completes.
- Navbar.tsx and constants.ts are not part of this model.
- `renderView`'s `default` branch (Web/App.tsx:108) cannot be reached: the view is a closed datatype and `App.RenderScreen` covers each of its eight values.
- TriviaPage.TriviaState.HandleAnswer: requires loaded questions. The answer buttons only exist while a question is shown. With no question the code would fail on `questions[currentIdx]`.
- TriviaPage.TriviaState.HandleNext: requires a running game. The "next" button only appears while playing.
- Leaderboard.LoadUsers: the previous list is a parameter standing for the component's state before the effect ran.
- FaithAIPage.FaithAIState.SendText: the `isLoading` test reads the current state. A handler captured by an earlier render could see an older value; that is modelled only for the suggestion click.
- User points may become negative through the stored data. The model does not restrict them; `ScoreBounds` assumes non-negative question points.

## Findings

| source | as written | input that shows it | evidently intended | confidence | as-written member | corrected member |
|---|---|---|---|---|---|---|
| Web/components/FaithAIPage.tsx:70 | a suggestion click sets the composer and, 100 ms later, calls the `handleSend` of the render in which the click happened, which still sees the composer text from before the click | a fresh page (empty composer), first suggestion clicked: nothing is sent and the suggestion is left in the composer | the clicked suggestion is asked | not executed | FaithAIPage.FaithAIState.ClickSuggestionAsWritten | FaithAIPage.FaithAIState.ClickSuggestion |
| Web/components/ProfilePage.tsx:13-29 | the edit form copies the account once, at mount, and submitting hands the whole copy to `onUpdate` | a new avatar (handed on at once with the current account), then a name change saved: the saved account carries the picture from mount, so the new avatar is lost | the name and bio edits are applied to the current account, keeping the new avatar | not executed; likely unintended | ProfilePage.AvatarThenSave | ProfilePage.AvatarThenSaveIntended |

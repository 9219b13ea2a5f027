# freeLynk view logic in Dafny

freeLynk is a social-networking single-page app: a post feed, direct messages,
profiles, user search and an AI studio, all built as React view components over
a hosted backend (rows, auth, realtime change feed) and a generative-AI API.
Its local logic is small decision and projection rules inside those
components. This project states each rule as a pure Dafny function or a small
state transition over immutable datatypes, and proves what the rule promises.

Backend replies are parameters of type `Remote<T> = Ok(data) | Err(message)`.
An `Err` is the `error` a reply carries. Some handlers catch a thrown exception
and treat it the same way: sign-up, search, publishing, image generation. For
those, `Err` stands for the throw too. The handlers that treat a throw
differently are listed under "## Left out". The random draw of the sign-up
suffix and the clock are parameters as well.

| module | file | models |
|---|---|---|
| `Common` | `common.dfy` | `Option`, `Remote`, JavaScript truthiness, and the string operations the pages use: `trim` (with the ECMAScript whitespace set), `includes`, `startsWith`, first-occurrence `replace`, ASCII case mapping, decimal rendering |
| `Types` | `types.dfy` | the shapes of `types.ts` and of the `profiles`, `messages` and `posts` rows |
| `InboxPage` | `inbox.dfy` | conversation previews, the send guard, the realtime insert reaction |
| `ProfilePage` | `profile.dfy` | `__MEDIA_VIDEO__` decoding, the media block, the one-shot reduced-column retry, realtime profile updates, `handleUpdate` |
| `SignupPage` | `signup.dfy` | the provisional uid, the submit handler |
| `SearchPage` | `search.dfy` | the assistant card, the lookup request, the blank-query reset, "Identity Not Found" |
| `FeedPage` | `feed.dfy` | the publish guard, payload and reset, fetch-error classification, the author placeholder |
| `AppShell` | `app.dfy` | start-up, loading the signed-in user by account id, navigation state, auth-loss reset, row-to-user mapping, which page renders |
| `AIEditor` | `ai_editor.dfy` | the rolling transcript, the voice toggle, image generation, the source image, the mode switch |

The conversation previews are the one algorithmic piece. `FetchPreviews` is
the source's loop over the newest-first messages. It keeps the first message
met per counterpart id. The loop is proved equal to an independent
definition, `Previews`: a fold from the right in which earlier messages
overwrite later ones. Lemmas about `Previews` then give the source's
promises:
- one preview per counterpart;
- every counterpart with a found profile gets one;
- each preview comes from that counterpart's first, and so newest, message;
- there are never more previews than messages.

The result is the `uniqueChats` record, modelled as a map keyed by counterpart
id. The order `Object.values` lists it in is not modelled.

Behaviour of the code that the model keeps, and its contracts make visible:
- The search page's "Identity Not Found" tests the untrimmed query. A query of
  only spaces clears the results and shows that notice
  (`WhitespaceQueryShowsNotFound`).
- A sign-up whose auth reply has no user and no error leaves `isVerifying`
  set (`Submit`).
- `handleLogout` clears only the user. The tab and the viewed uid are reset
  when the auth listener then reports the lost session
  (`LogoutThenSessionLoss`).
- The profile row insert at sign-up is not checked. The new user is handed
  to the app even if that insert returns an error. The user handed over has no bio,
  while the stored row has the default bio (`SignupUserMatchesReload`).
- `navigateToProfile("")` shows the user's own profile, because the profile
  page receives `viewingUserId || currentUser.uid` (`NavigateShowsTarget`).

## Model

| member | source | states |
|---|---|---|
| `InboxPage.FetchPreviews` | pages/Inbox.tsx:55-67 | the loop that keeps the first message per counterpart id builds exactly the reference projection `Previews`; a reply without data leaves the previews as they were |
| `InboxPage.Counterpart` | pages/Inbox.tsx:58 | the other party of a message: the receiver of what the signed-in profile sent, the sender of everything else; the projection lemmas above are stated through it |
| `InboxPage.PreviewsSnoc` | pages/Inbox.tsx:59-65 | appending one message to the input changes the reference projection exactly as one step of the source's loop does: a preview is added only for a counterpart without one |
| `InboxPage.PreviewKeys` | pages/Inbox.tsx:57-59 | a counterpart id has a preview iff some message's counterpart (receiver of what I sent, sender otherwise) has a found profile with that id; messages whose counterpart profile is absent contribute nothing |
| `InboxPage.PreviewFromFirst` | pages/Inbox.tsx:58-64 | the preview of a counterpart carries the profile, text and timestamp of the first message in the input exchanged with it |
| `InboxPage.OnePreviewPerCounterpart` | pages/Inbox.tsx:56-66 | each preview is keyed by its own user's id, so no two previews belong to the same counterpart |
| `InboxPage.PreviewCount` | pages/Inbox.tsx:56-67 | there are never more previews than fetched messages |
| `InboxPage.PreviewIsNewest` | pages/Inbox.tsx:53-64 | with the query's newest-first order, a preview's timestamp is at least that of every message exchanged with its counterpart |
| `InboxPage.SendMessage` | pages/Inbox.tsx:81-99 | no insert and no change iff the draft is blank or no conversation is open; otherwise the untrimmed draft is inserted from me to the selected user; the draft is cleared and the thread re-fetched only when the insert reports no error |
| `InboxPage.SendTwiceInsertsOnce` | pages/Inbox.tsx:95-96 | after a successful send a second send inserts nothing |
| `InboxPage.FailedSendRetriesSameRow` | pages/Inbox.tsx:95-98 | after a failed send the draft is kept, so a retry inserts the same row |
| `InboxPage.OnMessageInsert` | pages/Inbox.tsx:25-30 | the open thread is re-fetched iff the new row's sender or receiver is the selected user; the previews are refreshed on every insert |
| `InboxPage.OtherConversationLeavesThread` | pages/Inbox.tsx:26-29 | a message between two profiles neither of which is the selected one never re-fetches the open thread, but the previews are still refreshed |
| `InboxPage.SentMessageEchoRefreshesThread` | pages/Inbox.tsx:26-27 | the realtime echo of a message just sent to the open conversation (same receiver as the inserted row) re-fetches that conversation's thread |
| `ProfilePage.DecodePost` | pages/Profile.tsx:206-207 | content starting with `__MEDIA_VIDEO__` yields the content after that prefix as the video URL and "" as text; absent or unprefixed content passes through and the video comes from the post's `video` column |
| `ProfilePage.DecodeEncodedVideo` | pages/Profile.tsx:206-207 | decoding inverts the text-column encoding: content `__MEDIA_VIDEO__ ++ url` plays exactly `url` and shows "" |
| `ProfilePage.PlainContentPassesThrough` | pages/Profile.tsx:206-207 | absent or unprefixed content is displayed unchanged and the video falls back to the `video` column |
| `ProfilePage.MediaBlock` | pages/Profile.tsx:211 | a media block is shown iff the image or the decoded video is non-empty, and the video takes precedence over the image |
| `ProfilePage.EncodedVideoTakesPrecedence` | pages/Profile.tsx:206-211 | a post stored with an encoded non-empty video URL plays that video even if it also has an image |
| `ProfilePage.EncodedVideoShowsNoText` | pages/Profile.tsx:207-210 | an encoded video never renders its prefix or URL as text |
| `ProfilePage.FetchUserPosts` | pages/Profile.tsx:50-57 | the profile's row is looked up by the viewed uid; no row, no query; otherwise the posts are queried by that row's id, the full query first and the reduced-column query a second time iff the first error message contains "video"; the list is replaced only by rows actually returned; rows from the reduced query, which selects no `video` column, carry no video; with a lookup keyed by uid and a query filtered by author, a replaced list holds only posts of the viewed uid's row |
| `ProfilePage.RetryIsOneShot` | pages/Profile.tsx:53-54 | the reduced query is asked at most once and only after the full one |
| `ProfilePage.FetchProfile` | pages/Profile.tsx:39-48 | the row the lookup returns for the viewed uid becomes the profile and seeds the name and bio drafts (bio defaulting to ""); no row leaves the rest alone; loading ends either way; with a lookup keyed by uid, a newly installed profile has the viewed uid |
| `ProfilePage.FetchedProfileSeedsDrafts` | pages/Profile.tsx:45 | because the fetched name seeds the draft, Save Name is enabled after a fetch that finds a row exactly when no update runs and that row's name is not blank |
| `ProfilePage.OnProfileUpdate` | pages/Profile.tsx:35 | a realtime update replaces the local profile iff its uid is the viewed uid; otherwise nothing changes |
| `ProfilePage.UpdatesStayInScope` | pages/Profile.tsx:35 | given a held profile of the viewed uid (or none), any stream of realtime updates keeps it the viewed uid's; `PageShowsOnlyViewedProfile` establishes the starting case |
| `ProfilePage.RunStaysInScope` | pages/Profile.tsx:35-67 | realtime updates and the page's own updates with their re-reads, in any order, keep the held profile the viewed uid's, given re-reads keyed by uid |
| `ProfilePage.PageShowsOnlyViewedProfile` | pages/Profile.tsx:33-67 | from mount, after the first fetch and any stream of realtime and own updates, the page holds no profile but the viewed uid's, given lookups keyed by uid |
| `ProfilePage.IsMe` | pages/Profile.tsx:31 | the page counts as the user's own iff the signed-in uid equals the viewed uid; the shell lemmas `ProfileClickShowsOwnProfile` and `NavigateShowsTarget` state when that holds |
| `ProfilePage.HandleUpdate` | pages/Profile.tsx:59-67 | the change is sent to the row whose id is the signed-in user's `dbId`; the app is notified and the profile re-read by the viewed uid iff the update succeeds; `isUpdating` is false afterwards either way; a failed update changes nothing else; a re-read keyed by uid keeps the held profile the viewed uid's |
| `ProfilePage.BeginUpdate` | pages/Profile.tsx:60 | while an update is in flight `isUpdating` is set and nothing else changes |
| `ProfilePage.SaveNameBlockedDuringUpdate` | pages/Profile.tsx:60-66 | Save Name is disabled for the whole time an update is in flight; after a failed update the disabling condition is false again exactly when the draft name is not blank (the click handler closes the name editor after every Save Name, pages/Profile.tsx:123) |
| `ProfilePage.SaveNameSendsDraft` | pages/Profile.tsx:123-124 | an enabled Save Name sends the draft name, which is then not blank, to the signed-in user's row |
| `ProfilePage.SaveNameDisabled` | pages/Profile.tsx:124 | Save Name is disabled iff an update is running or the draft name is blank |
| `SignupPage.ProvisionalUid` | pages/Signup.tsx:22-27 | a name of length at most 1 gives exactly "FL-ID-PENDING" |
| `SignupPage.ProvisionalUidShape` | pages/Signup.tsx:24-25 | otherwise the uid is "FL-", then min(3, length) upper-cased name characters with whitespace masked as 'X' (so none is whitespace), then "-" and four digits that read back as the suffix 1000 + draw |
| `SignupPage.DerivedUidIsNotPending` | pages/Signup.tsx:23-26 | a name of two or more characters never yields the pending sentinel |
| `SignupPage.SetName` | pages/Signup.tsx:22-27 | typing a name re-derives the provisional uid from it and a fresh draw, and changes nothing else |
| `SignupPage.Submit` | pages/Signup.tsx:29-44 | a submit while verifying is ignored; otherwise the error is cleared, an auth error is recorded and resets verifying, and a returned user yields a profile row and a signed-up user carrying the same provisional uid and id; name, email, password, photo and provisional uid are never changed |
| `SignupPage.SubmitIsNotReentrant` | pages/Signup.tsx:31-32 | a second submit during verification creates no second row and changes nothing |
| `SignupPage.FailureAllowsRetry` | pages/Signup.tsx:43 | after a failed sign-up verifying is reset and the next submit proceeds |
| `Common.FourDigits` | pages/Signup.tsx:24-25 | every suffix in 1000..9999 renders as exactly four characters |
| `Common.DecimalRoundTrip` | pages/Signup.tsx:25 | a rendered suffix reads back as the number rendered |
| `Common.TrimEmptyIffBlank` | pages/Inbox.tsx:83 | a string trims to "" iff every character is ECMAScript whitespace |
| `Common.ReplaceLeadingPattern` | pages/Profile.tsx:206 | replacing the first occurrence of a leading pattern by "" removes exactly that leading pattern |
| `SearchPage.AiCardIgnoresCase` | pages/Search.tsx:18 | the assistant card does not depend on the query's capitalisation |
| `SearchPage.AiCardPersists` | pages/Search.tsx:18 | text typed before or after a query that shows the card keeps it shown |
| `SearchPage.ShowAiCard` | pages/Search.tsx:18 | the card shows iff the lower-cased query contains "ai", "gemini" or "voice"; `AiCardIgnoresCase` and `AiCardPersists` state its properties |
| `SearchPage.SearchRequest` | pages/Search.tsx:21-33 | no lookup iff the query is blank; otherwise the column is `uid` in uid mode and `name` otherwise, the pattern is `%` ++ query ++ `%`, the current uid is excluded and at most 10 rows are asked for |
| `SearchPage.RunSearch` | pages/Search.tsx:21-41 | a blank query clears the results and nothing else; otherwise returned rows replace the results, an error keeps them, and loading is false afterwards either way |
| `SearchPage.WhitespaceQueryShowsNotFound` | pages/Search.tsx:134 | a non-empty query of only whitespace, with nothing loading, ends showing "Identity Not Found" |
| `SearchPage.NotFoundShown` | pages/Search.tsx:134 | the notice shows iff the untrimmed query is non-empty, there are no results, nothing loads and the card is hidden; `WhitespaceQueryShowsNotFound` and `EmptyLookupNotice` state when that happens |
| `SearchPage.EmptyLookupNotice` | pages/Search.tsx:134 | after a lookup that finds nobody, the notice shows iff the assistant card is hidden |
| `FeedPage.PublishDisabled` | pages/Feed.tsx:145 | the button is disabled iff posting, or the text is blank and no media is attached |
| `FeedPage.Publish` | pages/Feed.tsx:62-85 | nothing happens iff the text is blank and no media is attached; otherwise the row {my id, untrimmed text, media} is inserted; success clears text and media and re-fetches; failure keeps them and alerts "Publish Error: " ++ message; posting ends either way |
| `FeedPage.PublishTwiceInsertsOnce` | pages/Feed.tsx:74-79 | after a successful publish a second publish inserts nothing |
| `FeedPage.FailedPublishRetriesSameRow` | pages/Feed.tsx:80-84 | after a failed publish a retry inserts the same row |
| `FeedPage.FetchPosts` | pages/Feed.tsx:30-51 | the setup message is set iff the reply is an error mentioning "author_id"; an error keeps the posts, rows replace them; the composer is untouched |
| `FeedPage.FetchForgetsEarlierError` | pages/Feed.tsx:32 | because `setupRequired` is reset at every fetch, a successful fetch ends the same whatever the previous fetch reported |
| `FeedPage.AuthorOf` | pages/Feed.tsx:156 | a post without a joined author shows the placeholder "Identity" / "???"; otherwise the author's own name, photo and uid |
| `AppShell.NavigateToProfile` | App.tsx:75-78 | the viewed uid becomes the target and the tab the profile tab; the user is unchanged |
| `AppShell.ProfileClick` | App.tsx:113 | the viewed uid becomes the user's own uid and the tab the profile tab |
| `AppShell.Logout` | App.tsx:70-73 | the user becomes none; tab and viewed uid are untouched |
| `AppShell.UserFromRow` | App.tsx:54-66 | uid, id, name, photo, cover and bio are copied; email is ""; followers and following are empty |
| `AppShell.FetchUser` | App.tsx:47-68 | the mapped user is installed only for a row returned without error, and with a lookup that answers by row id that user is the account asked for; otherwise nothing changes |
| `AppShell.CheckUser` | App.tsx:22-28 | at start-up the session's account is loaded when there is a session, and the spinner ends whether or not a profile row comes back (a thrown reply is under "## Left out") |
| `AppShell.StartupView` | App.tsx:22-28 | start-up ends on the feed when the session's profile loads, and on the login page when there is no session or the lookup returns an error |
| `AppShell.SessionUserLoaded` | App.tsx:33-34 | an auth event with a session installs the session's own account, with the uid of its row |
| `AppShell.RefreshUser` | App.tsx:130 | the profile page's update callback reloads the signed-in user by row id when the record has one, and does nothing otherwise |
| `AppShell.RefreshKeepsAccount` | App.tsx:130 | reloading after a profile edit keeps the same account signed in and leaves tab and viewed uid alone |
| `AppShell.SignupUserMatchesReload` | pages/Signup.tsx:40-41 | the user handed over at sign-up and the user later loaded from the stored sign-up row agree on uid, account id, name and photo; the handed-over user has no bio, the stored one the default bio |
| `AppShell.OnAuthChange` | App.tsx:32-40 | without a session the shell resets to no user, the feed tab and no viewed uid; with one the profile of the session's account id is looked up and loaded |
| `AppShell.LogoutThenSessionLoss` | App.tsx:35-39 | logout followed by the lost-session event ends exactly as the lost-session event alone, on the auth page once loaded |
| `AppShell.ProfileViewUid` | App.tsx:129 | the profile page receives the viewed uid when it is a non-empty string, and the user's own uid otherwise |
| `AppShell.ExactlyOneView` | App.tsx:80-133 | exactly one view is rendered: the spinner while loading, then the active tab's view while signed in and the auth page while signed out |
| `AppShell.ProfileClickShowsOwnProfile` | App.tsx:113 | the navbar's profile click renders the user's own profile, which the profile page recognises as theirs |
| `AppShell.NavigateShowsTarget` | App.tsx:75-78 | navigating to a non-empty uid renders that profile, navigating to "" the user's own; the page counts as the user's own iff the uid is theirs or empty |
| `AppShell.ProfileTabDefaultsToOwn` | App.tsx:129 | with no uid selected, or an empty one, the profile tab renders the user's own profile |
| `AppShell.AuthorClickShowsAuthor` | pages/Feed.tsx:156-160 | clicking a post's author opens that author's profile; the placeholder author leads to the uid "???" |
| `AppShell.SelectTab` | App.tsx:136 | the tab bar changes the active tab and nothing else |
| `AppShell.Rendered` | App.tsx:80-133 | the spinner while loading, the chosen auth page while signed out, otherwise one view per active-tab conditional; `ExactlyOneView` states that exactly one of them is ever rendered |
| `AppShell.TabView` | App.tsx:117-133 | the view belonging to each tab, the profile view receiving `ProfileViewUid` |
| `AIEditor.InitialImage` | components/AIEditor.tsx:32 | the profile photo for profile edits; otherwise the cover photo, or the fixed default URL when there is none, so the cover editor never starts from an empty image |
| `AIEditor.TranscriptLine` | components/AIEditor.tsx:128-133 | model lines start with "Gemini: ", user lines with "You: ", followed by the transcribed text |
| `AIEditor.PushLine` | components/AIEditor.tsx:129 | the transcript keeps at most the last three lines and appends the new one last, so it never exceeds four |
| `AIEditor.TranscriptWindow` | components/AIEditor.tsx:128-133 | after any stream of lines the transcript is exactly the last four lines received, oldest first |
| `AIEditor.OnTranscription` | components/AIEditor.tsx:128-133 | one message appends its lines exactly as `PushAll` of the model's line then the user's; the user's line is last and the model's just before it; the transcript stays within four lines |
| `AIEditor.MessageLines` | components/AIEditor.tsx:128-133 | a message contributes one line per transcription it carries, the model's before the user's |
| `AIEditor.TranscriptOfStream` | components/AIEditor.tsx:128-133 | after any stream of server messages the transcript is exactly the last four of all their lines, oldest first |
| `AIEditor.PushAllAppend` | components/AIEditor.tsx:129 | appending lines in two batches equals appending them all at once |
| `AIEditor.TranscribeIsPushAll` | components/AIEditor.tsx:128-133 | handling messages one by one appends all their lines in delivery order |
| `AIEditor.ToggleVoice` | components/AIEditor.tsx:62-71 | while active: close the session if any, mark inactive, status "Connection Offline", no reconnect; otherwise clear the error and start connecting |
| `AIEditor.ToggleOffThenOn` | components/AIEditor.tsx:63-67 | switching voice off never reconnects, and the next press does |
| `AIEditor.FirstInline` | components/AIEditor.tsx:183-191 | the data of the first reply part with inline data, none iff no part has any |
| `AIEditor.GenerateImage` | components/AIEditor.tsx:172-196 | a blank prompt changes nothing; otherwise the preview becomes "data:image/png;base64," ++ the first inline data, or the error is "Engine failed to render image." when there is none, or the thrown message; generating is false afterwards either way |
| `AIEditor.ExecuteDisabled` | components/AIEditor.tsx:291 | the execute button is disabled iff generating or the prompt is blank |
| `AIEditor.SetMode` | components/AIEditor.tsx:222 | switching mode sets the mode, clears the error and changes nothing else |
| `AIEditor.ModeSwitchClearsFailure` | components/AIEditor.tsx:222 | a failed generation's error is gone after a mode switch, and the earlier preview survives |

## Left out

- All backend calls are out: the `supabase` queries, inserts, updates, auth, and subscribing to or removing realtime channels. These are network I/O. Their replies are parameters.
- The live voice session is out: the Gemini client, microphone and `AudioContext` work, the PCM conversion and the playback scheduling (components/AIEditor.tsx:73-159). These are foreign calls and floating point. Only the transcript and toggle logic around them is modelled.
- The base64 helpers `encode`/`decode` (components/AIEditor.tsx:34-47) are out. They wrap `btoa`/`atob`.
- `Math.random` is out: the draw `floor(random * 9000)` is a parameter below 9000. Also out: `Date` and `toLocale*` formatting, the 300 ms search debounce, and `FileReader` data-URL reads.
- Timestamps are integers. `created_at` strings are not parsed.
- JSX rendering and styling are out, and so are `components/TabBar.tsx` and `components/Navbar.tsx`. They are presentational; only the tab selection they trigger is modelled.
- `pages/Login.tsx` is out. It delegates to password auth and has no local logic. `types.ts` is used only for record shapes.
- `InboxPage.FetchPreviews`: the order in which `Object.values` lists the previews is not modelled. It differs from insertion order for integer-like keys. The result is the keyed record.
- `SignupPage.ProvisionalUidShape`: strings are sequences of Unicode scalar values, not UTF-16 code units. `substring(0, 3)` therefore counts characters. `toUpperCase` is modelled for ASCII letters only, since it can change the length of other text.
- `SearchPage.AiCardIgnoresCase` and `SearchPage.ShowAiCard`: `toLowerCase` is modelled for ASCII letters only.
- `SearchPage.RunSearch`: the backend's `ilike` matching is not modelled. Whatever rows the reply carries become the results.
- `AIEditor.OnTranscription`: a transcription without text renders as "Gemini: undefined" in the source. Here the text is always a string.
- The thread re-fetch (`fetchMessages`) and the feed re-fetch after a publish are outputs of the step that triggers them (`refetchThread`, `refetch`). Their replies are not applied.
- `FeedPage.FetchPosts`: an `Err` here is the error the reply returns. A thrown exception is only logged (pages/Feed.tsx:48-50). It leaves `setupRequired` cleared and the posts unchanged, even when its message mentions `author_id`. That thrown path is not modelled.
- `ProfilePage.HandleUpdate`: an `Err` here is the error the update returns. The handler has no `try`/`finally`, so a thrown update leaves `isUpdating` set for good. That thrown path is not modelled.
- `ProfilePage.FetchUserPosts`: an `Err` here is the error the posts query returns. A throw ends the fetch with no retry and no change. That thrown path is not modelled.
- `ProfilePage.FetchProfile`: a thrown lookup leaves `loading` set. That thrown path is not modelled.
- `ProfilePage.FetchProfile`, `ProfilePage.HandleUpdate` and `ProfilePage.FetchUserPosts`: the backend is a function from uid to row, and from author id and column set to reply. That a row carries the uid asked for is the assumption `KeyedByUid`. That the posts carry the author asked for is the assumption `FilteredByAuthor`. Both are stated where they are used, and nothing in the client checks them.
- `ProfilePage.PageShowsOnlyViewedProfile`: the viewed uid is fixed for the page's life. The profile page is not keyed by the viewed uid (App.tsx:127-133), so a change of `viewingUserId` re-runs the fetch on the kept state. When that lookup finds no row, the previous uid's profile stays (the no-row case of `FetchProfile`). That case is outside the lemma.
- `AppShell.FetchUser`: the backend is a function from row id to reply. That a reply carries the row asked for is the assumption `KeyedById`, stated where it is used. Nothing in the client checks it.
- `AppShell.CheckUser`: a thrown `getSession` or `fetchProfile` leaves `loading` set for good, because `checkUser` has no `try`/`finally` (App.tsx:22-28). Only returned replies are modelled, so `CheckUser` and `StartupView` cover those paths only.
- `SignupPage.Submit`: a thrown profile insert is caught (pages/Signup.tsx:43). It sets the error, resets `isVerifying`, and never calls `onSignup`. Only a returned insert error is modelled, and the source ignores that one.
- `AppShell.CheckUser`: the start-up check and the auth listener are separate steps. Their interleaving while both wait on the backend is not modelled.

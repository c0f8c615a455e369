# TuneMatch (Vibe Beats) in Dafny

TuneMatch is a campus music-dating app: students sign in with a
`@bennett.edu.in` address and a one-time code, build a profile around
their songs, swipe on other students, match when two of them like each
other, and chat once matched. A leaderboard ranks students by the right
swipes they received. The app is a React single-page client backed by
Supabase edge functions, with service workers for offline use.

This project models and proves the app's logic:

- **Three edge-function variants, each as written.**
  - `make-server-2e8e40fd/index.ts` and `server/index.ts` work on
    relational tables (`users`, `user_profiles`, `swipes`, `matches`,
    `conversations`, `messages`). They are modules `Tables`,
    `MakeServer` and `Server`.
  - `server/index_old.ts` works on one key-value store. It is module
    `KvServer`, with its sort in `Ranking`.
  - Each handler is a method on the store that returns a status and a
    payload. The auth provider, the clock and random ids are parameters.
- **Request checks.** Module `Auth` holds the bearer-header parse (strict
  in one variant, loose in the other) and the campus e-mail check.
- **Client state machines.** Each is a class whose methods are the
  component's handlers:
  - the OTP digit boxes (`OtpEntry`);
  - the profile wizard with its three-genre cap (`Wizard`);
  - the swipe deck with its undo stack (`SwipeDeck`);
  - the sign-in screen (`OnboardingView`);
  - the app's navigation (`AppFlow`);
  - the leaderboard (`LeaderboardView`), the inbox (`Inbox`) and the
    profile tab (`ProfileView`);
  - the notification switches (`AccountSettings`).
  - A handler that awaits a request is split at the `await`: a Begin
    method runs up to the request, and a Finish method takes the answer
    as a parameter.
- **Client utilities.**
  - The auth-token and user-id caches over `localStorage`
    (`BrowserStorage`, `ApiClient`, `MockAuth`).
  - Spotify token storage, freshness and the OAuth `state` check
    (`Spotify`).
  - The install prompt and the notification permission (`Pwa`).
  - The VAPID key conversion, base64url to bytes as in sections 4 and 5
    of RFC 4648 (`Base64`).
- **The three service workers.**
  - `ServiceWorkerCore` holds what they share: precaching, the clean-up
    that keeps only `tunematch-v1` and `tunematch-runtime`, fetch routing
    and the caching rules.
  - `PublicWorker`, `SrcWorker` and `BuildWorker` are the workers
    themselves.
- **JavaScript semantics the code relies on.** Module `Js` has values
  and truthiness. `JsText` has `trim`, `includes`, `split`/`join`,
  lower-casing and string order. `JsNumber` has decimal text and
  `parseInt`.

Two behaviours of the code worth noting:

- The relational profile update writes only the fields present in the
  body, because JSON serialisation drops `undefined`.
- The loose header check takes the second space-separated word, so a
  header with three words is read as its middle one.

## Model

| member | source | states |
|---|---|---|
| BrowserStorage.LocalStorage.GetItem | src/utils/api.ts:14 | a stored key answers its value, a missing key answers null |
| BrowserStorage.LocalStorage.SetItem | src/utils/api.ts:9 | the key maps to the new value; every other key is unchanged |
| BrowserStorage.LocalStorage.RemoveItem | src/utils/api.ts:21 | the key is gone; every other key is unchanged |
| BrowserStorage.CachedRead | src/utils/api.ts:12-17 | a truthy cached value answers itself; otherwise storage answers, null for a missing key |
| BrowserStorage.ReadAfterSet | src/utils/api.ts:7-17 | a read after a set returns the value set |
| BrowserStorage.ReadAfterClear | src/utils/api.ts:12-22 | a read after a clear finds nothing, whatever was stored before |
| BrowserStorage.ReadIsStable | src/utils/api.ts:12-17 | a second read answers what the first one did |
| BrowserStorage.CachedValue.Set | src/utils/api.ts:7-10 | memory and the storage key both hold the value, and a read now answers it |
| BrowserStorage.CachedValue.Get | src/utils/api.ts:12-17 | answers the cached read of the old state, keeps it in memory, leaves storage alone |
| BrowserStorage.CachedValue.Clear | src/utils/api.ts:19-22 | memory is empty, the key is removed, and a read now answers nothing |
| ApiClient.SetAuthToken | src/utils/api.ts:7-10 | the token is cached in memory and stored under `authToken` |
| ApiClient.GetAuthToken | src/utils/api.ts:12-17 | answers the cached token, or the stored one when the cached one is falsy; storage is unchanged |
| ApiClient.ClearAuthToken | src/utils/api.ts:19-22 | the cached token is dropped and `authToken` is removed from storage |
| ApiClient.AuthorizationHeader | src/utils/api.ts:27 | `Bearer ` then the token when it is truthy, else the anon key |
| ApiClient.HeaderAccepted | supabase/functions/make-server-2e8e40fd/index.ts:33-61 | the header built from a non-empty token without spaces passes the strict check for that token |
| ApiClient.ApiResult | src/utils/api.ts:36-41 | an ok response yields its parsed body; any other throws, with the body's `error` text when it has one and `Request failed` otherwise |
| ApiClient.ServerErrorShown | src/utils/api.ts:37-38 | an error reply with a non-empty message surfaces that message |
| ApiClient.SwipeBody | src/utils/api.ts:122-131 | the body has exactly the three keys; `left` is sent as `skip`, anything else as `like`; a missing song is null |
| ApiClient.SwipeDirectionAccepted | src/utils/api.ts:128 | the direction sent is always `like` or `skip`, and `like` exactly when the screen did not swipe left |
| ApiClient.LeaderboardPath | src/utils/api.ts:156-159 | a truthy category other than `All` is sent as the query; otherwise there is no query |
| MockAuth.SetCurrentUserId | src/utils/mockAuth.ts:6-9 | the id is cached and stored under `currentUserId` |
| MockAuth.GetCurrentUserId | src/utils/mockAuth.ts:11-16 | answers the cached id, or the stored one when the cached one is falsy; storage is unchanged |
| MockAuth.ClearCurrentUserId | src/utils/mockAuth.ts:18-21 | the cached id is dropped and `currentUserId` is removed |
| MockAuth.SetThenGet | src/utils/mockAuth.ts:6-16 | a get after a set returns the id set |
| MockAuth.ClearThenGet | src/utils/mockAuth.ts:11-21 | a get after a clear returns nothing, even if an id was stored before |
| Auth.StrictAcceptsBearer | supabase/functions/make-server-2e8e40fd/index.ts:33-61 | `Bearer <token>` is accepted for the token's user |
| Auth.StrictOnlyBearer | supabase/functions/make-server-2e8e40fd/index.ts:37-44 | an accepted header is exactly `Bearer ` followed by one non-empty word without spaces, and the user is that word's |
| Auth.LooseExtendsStrict | supabase/functions/server/index.ts:32-46 | every header the strict check accepts, the loose check accepts for the same user |
| Auth.LooseIgnoresScheme | supabase/functions/server/index.ts:34 | the loose check takes the second word whatever the first word is |
| Auth.CampusEmailMeaning | supabase/functions/make-server-2e8e40fd/index.ts:74 | an email passes exactly when the campus domain occurs somewhere in it |
| JsText.TrimStart | src/components/CompleteOnboarding.tsx:112 | the result is a suffix of the input, everything dropped is white space, and it does not start with white space |
| JsText.TrimEnd | src/components/CompleteOnboarding.tsx:112 | the result is a prefix of the input, everything dropped is white space, and it does not end with white space |
| JsText.TrimEmptyIffBlank | src/components/CompleteOnboarding.tsx:112 | a trimmed text is empty exactly when the text holds nothing but white space |
| JsText.ContainsAt | supabase/functions/make-server-2e8e40fd/index.ts:74 | `includes` holds exactly when the searched text occurs at some position |
| JsText.ContainsEmpty | src/components/LeaderboardScreen.tsx:128 | every text includes the empty text, so an empty search matches every name |
| JsText.JoinSplit | supabase/functions/server/index.ts:34 | splitting leaves no separator inside a part, and joining the parts with the separator gives the text back |
| JsText.SplitJoin | supabase/functions/make-server-2e8e40fd/index.ts:37 | joining parts free of the separator and splitting again gives the same parts |
| JsText.Split | supabase/functions/make-server-2e8e40fd/index.ts:37 | a split always yields at least one part |
| JsText.Lower | src/components/LeaderboardScreen.tsx:128 | lower-casing keeps the length and lowers each character on its own |
| JsText.LowerIdempotent | src/components/LeaderboardScreen.tsx:128 | lower-casing twice is lower-casing once |
| JsText.LessTotal | supabase/functions/server/index_old.ts:321 | of two different strings one is always the smaller under the default comparison |
| JsText.LessTransitive | supabase/functions/server/index_old.ts:321 | the default string comparison is transitive |
| JsText.SortPairCanonical | supabase/functions/server/index_old.ts:321 | sorting a pair gives the same ordered pair from either starting order, holding exactly the two ids |
| JsText.Digits | src/components/OTPInput.tsx:40 | the kept characters are all digits, no more than the input has, and an all-digit input is kept whole |
| JsNumber.NatToText | src/components/OnboardingScreen.tsx:48 | the decimal text of a number is non-empty and made of digits only |
| JsNumber.NatToTextValue | src/components/OnboardingScreen.tsx:48 | the decimal text of a number reads back as that number |
| JsNumber.DigitRun | src/utils/spotify.ts:120 | the digit run is an all-digit prefix followed by a non-digit or the end |
| JsNumber.ParseIntText | src/utils/spotify.ts:120 | `parseInt` of the decimal text of any integer gives that integer back |
| Js.Or | src/components/ProfileScreen.tsx:80-85 | `a \|\| b` is `a` when it is truthy and `b` otherwise |
| Js.CountOf | supabase/functions/server/index_old.ts:473 | `x \|\| 0` on a count keeps a number and turns any falsy value into 0 |
| Js.LengthOf | supabase/functions/server/index_old.ts:269 | strings and arrays have a length, their size; other values have none |
| Tables.FirstWhere | supabase/functions/make-server-2e8e40fd/index.ts:495-502 | a found row is in the table and matches; nothing is found exactly when no row matches |
| Tables.SingleMeaning | supabase/functions/make-server-2e8e40fd/index.ts:495-502 | `.single()` gives data exactly when one row matches, and that row is in the table and matches |
| Tables.MaybeSingleMeaning | supabase/functions/make-server-2e8e40fd/index.ts:132 | `.maybeSingle()` sees no row exactly when none matches, the matching row when one does, and an error exactly when two or more do |
| Tables.CountAppend | supabase/functions/make-server-2e8e40fd/index.ts:480-502 | the matching rows of two stretches of a table add up |
| Tables.UpdateWhere | supabase/functions/make-server-2e8e40fd/index.ts:655-661 | an update rewrites every selected row and keeps every other row, in place |
| Tables.OrderedPairCanonical | supabase/functions/make-server-2e8e40fd/index.ts:506-507 | the stored pair is the same whoever acts, is ordered, holds both users, and equals the key-value variant's sorted pair |
| Tables.DuplicateLikesHideMatch | supabase/functions/make-server-2e8e40fd/index.ts:495-504 | with two reciprocal likes for the same song `.single()` finds nothing, so no match is made |
| Tables.OneLikeFound | supabase/functions/make-server-2e8e40fd/index.ts:495-504 | a single reciprocal like is the row found |
| Tables.Database.RecordSwipe | supabase/functions/make-server-2e8e40fd/index.ts:471-522 | a direction other than like or skip is refused with 400; an insert error is reported with 500; otherwise the swipe is appended, and a like with a unique reciprocal like answers matched and appends a match of the ordered pair with score 100 when that insert succeeds; no other table changes |
| Tables.Database.SendMessage | supabase/functions/make-server-2e8e40fd/index.ts:622-673 | a missing recipient or content is refused with 400; an insert error is reported with 500; otherwise the message is appended and the pair's conversation row is updated when exactly one exists, else a new one is appended; no other table changes |
| Tables.SentMessageIsLast | supabase/functions/make-server-2e8e40fd/index.ts:654-661 | after the update the pair still has exactly one conversation row, and it carries the message and its time |
| Tables.UpdateKeepsCount | supabase/functions/make-server-2e8e40fd/index.ts:655-661 | an update that keeps the selected rows selected keeps their number |
| MakeServer.UnregisteredEmail | supabase/functions/make-server-2e8e40fd/index.ts:132-141 | the signup lookup finds no row exactly when no `users` row has the address |
| MakeServer.AuthEntryOffCampus | supabase/functions/make-server-2e8e40fd/index.ts:74-76 | an address outside the campus domain is refused with 400 whatever the action |
| MakeServer.AuthEntryLogin | supabase/functions/make-server-2e8e40fd/index.ts:80-119 | a campus login succeeds exactly when the provider sends the code |
| MakeServer.AuthEntrySignup | supabase/functions/make-server-2e8e40fd/index.ts:121-177 | a campus signup succeeds exactly for a non-blank string name, an address no `users` row has, and a sent code |
| MakeServer.AuthEntryNamedSignup | supabase/functions/make-server-2e8e40fd/index.ts:132-172 | with a valid name, signup succeeds exactly when the lookup finds no row and the code is sent |
| MakeServer.AuthEntryOutcomes | supabase/functions/make-server-2e8e40fd/index.ts:71-184 | the entry point answers 200 exactly for a campus address whose code was sent, on login, or on signup with a valid name and an address no user has |
| MakeServer.AuthEntryUnknownAction | supabase/functions/make-server-2e8e40fd/index.ts:179 | any action other than login and signup is refused with 400 |
| MakeServer.NewVerifiedUser | supabase/functions/make-server-2e8e40fd/index.ts:217-240 | the row created on a first verification has the auth user's id, is active and confirmed, and has a truthy name (`User` when the metadata has none) |
| MakeServer.VerifyOtp | supabase/functions/make-server-2e8e40fd/index.ts:187-283 | a missing email or code is refused with 400; a rejected code with 400; an existing row is confirmed in place (or answered as it was when the update fails); otherwise a new confirmed row is appended, or 500 when the insert fails; only `users` changes |
| MakeServer.VerifiedUserConfirmed | supabase/functions/make-server-2e8e40fd/index.ts:249-263 | after the confirming update the caller's row is still there, and every row with the caller's id is confirmed |
| MakeServer.ProfileChangesAt | supabase/functions/make-server-2e8e40fd/index.ts:336-345 | a column is written exactly when the body provides it, with the body's value, and `photo` wins over `avatar_url` |
| MakeServer.NewProfileRow | supabase/functions/make-server-2e8e40fd/index.ts:381-388 | the inserted `user_profiles` row belongs to the caller, is completed, and always has a bio |
| MakeServer.UpdateProfile | supabase/functions/make-server-2e8e40fd/index.ts:314-407 | an unknown caller gets 401; a failed `users` update answers 500 and nothing changes; otherwise the caller's row takes the provided columns, the `user_profiles` row is updated or appended when that write takes effect, and the reply is the caller's row |
| MakeServer.Swipe | supabase/functions/make-server-2e8e40fd/index.ts:464-527 | an unknown caller gets 401 and nothing changes; for a known caller a direction other than like or skip gets 400 and an insert error 500, both storing nothing; otherwise the swipe is appended, the reply is matched exactly for a like with a unique reciprocal like, and then the match of the ordered pair with score 100 is appended when that insert succeeds; users, profiles, conversations and messages never change |
| MakeServer.SendMessage | supabase/functions/make-server-2e8e40fd/index.ts:615-678 | an unknown caller gets 401 and nothing changes; for a known caller a missing recipient or content gets 400 and an insert error 500, both storing nothing; otherwise the reply is 200, the message is appended, and when the conversation write succeeds the pair's one conversation row gets the new last message and time, or a new conversation row is appended; users, profiles, swipes and matches never change |
| Server.Signup | supabase/functions/server/index.ts:56-125 | a non-campus email is refused with 400; an email already held by exactly one `users` row is refused with 400; an auth error is returned with 400; a failed insert answers 500; otherwise the new row is appended (id, email, name, active) and the reply carries the session, or 500 when no session was made; only `users` changes |
| Server.SignupRow | supabase/functions/server/index.ts:95-100 | the inserted row has the new id, the email, `is_active` true, and the name as sent |
| Server.VerifyOtpLengthOnly | supabase/functions/server/index.ts:128-141 | the code is accepted exactly when it is a six-character string or a six-element array, whatever it holds |
| Server.LoginOutcome | supabase/functions/server/index.ts:144-185 | login succeeds exactly for a campus email held by exactly one `users` row when a session is made, and answers with that row |
| Server.ProfileChanges | supabase/functions/server/index.ts:253-268 | the update writes exactly those of the seven profile columns the body has, with the body's values |
| Server.UpdateProfile | supabase/functions/server/index.ts:246-324 | an unknown caller gets 401; a failed `users` update is reported with 500 and nothing changes; otherwise the caller's `users` row takes the sent columns, the caller's `user_profiles` row is updated or a new one appended, a failed profile write answers 500 after the `users` update, and success answers the caller's row |
| Server.Swipe | supabase/functions/server/index.ts:381-444 | an unknown caller gets 401 and nothing changes; for a known caller a direction other than like or skip gets 400 and an insert error 500, both storing nothing; otherwise the swipe is appended, the reply is matched exactly for a like with a unique reciprocal like, and then the match of the ordered pair with score 100 is appended when that insert succeeds; users, profiles, conversations and messages never change |
| Server.SendMessage | supabase/functions/server/index.ts:532-595 | an unknown caller gets 401 and nothing changes; for a known caller a missing recipient or content gets 400 and an insert error 500, both storing nothing; otherwise the reply is 200, the message is appended, and when the conversation write succeeds the pair's one conversation row gets the new last message and time, or a new conversation row is appended; users, profiles, swipes and matches never change |
| KvServer.ConversationIdSymmetric | supabase/functions/server/index_old.ts:321 | the conversation id of a pair is the same whichever member computes it |
| KvServer.KeysDistinct | supabase/functions/server/index_old.ts:91-108 | keys of different record kinds never collide, so a write to one kind leaves the others alone |
| KvServer.SwipeKeyInjective | supabase/functions/server/index_old.ts:292 | when neither id contains ':', a swipe key names exactly one ordered pair |
| KvServer.IndexOfSeparator | supabase/functions/server/index_old.ts:292 | in `a:b` with no ':' in `a`, the first ':' sits right after `a` |
| KvServer.ColonSplit | supabase/functions/server/index_old.ts:292 | `a:b` and `c:d` with no ':' in `a` or `c` are equal only when `a == c` and `b == d` |
| KvServer.MergeProfileKeeps | supabase/functions/server/index_old.ts:204-217 | the update forces the caller's id, keeps email, creation time and both counters, takes a truthy name, photo or songs and keeps the old ones otherwise, puts a truthy category under the stats and keeps the old one otherwise, and stamps the update time |
| KvServer.Increment | supabase/functions/server/index_old.ts:300 | a numeric count goes up by one; a missing or falsy count becomes 1 |
| KvServer.PotentialMeaning | supabase/functions/server/index_old.ts:259-272 | every offered profile belongs to someone other than the caller, was not swiped by the caller and has songs, and every such listed id is offered |
| KvServer.RankedFrom | supabase/functions/server/index_old.ts:461-470 | every collected profile has songs and is in the chosen category (`All` keeps every one) |
| KvServer.WithRanks | supabase/functions/server/index_old.ts:476-477 | the list keeps its length and the profile at position i gets rank i + 1, nothing else changed |
| KvServer.LeaderboardMeaning | supabase/functions/server/index_old.ts:458-481 | the leaderboard holds exactly the collected profiles (a permutation up to rank), ranked 1..n, in non-increasing right swipes |
| KvServer.UnrankedMultiset | supabase/functions/server/index_old.ts:473 | two orderings of the same profiles stay the same multiset once their ranks are cleared |
| KvServer.WriteRanksStep | supabase/functions/server/index_old.ts:476-480 | writing the first j + 1 ranked profiles is writing the first j and then profile j under its own key |
| KvServer.SummaryOf | supabase/functions/server/index_old.ts:377-388 | a conversation is locked exactly when it has no messages, and has no last message exactly then |
| KvServer.SummaryAfterSend | supabase/functions/server/index_old.ts:377-388 | after a message is appended the conversation is unlocked for both members, its last message is the new one and its count grows by one |
| KvServer.SummariesFrom | supabase/functions/server/index_old.ts:376-389 | one summary per matched id, in match order |
| KvServer.ReciprocalSurvives | supabase/functions/server/index_old.ts:292-305 | recording the caller's swipe and counting it leave the target's swipe on the caller unchanged |
| KvServer.MatchRecordedBothWays | supabase/functions/server/index_old.ts:311-327 | after a match each side's match list holds the other, and the conversation is found from either side |
| KvServer.KvStore.Signup | supabase/functions/server/index_old.ts:57-115 | an off-campus address is refused with 400, an auth error with 400 and its message, a missing session with 500, each storing nothing; otherwise the new profile is stored and its id appended to `profiles:all` without a duplicate check |
| KvServer.KvStore.UpdateProfile | supabase/functions/server/index_old.ts:195-221 | an unverified caller gets 401 and nothing changes; otherwise the merge of the body into the stored profile (or `{}`) is stored under the caller's key and returned |
| KvServer.KvStore.PotentialMatches | supabase/functions/server/index_old.ts:248-274 | an unverified caller gets 401; otherwise the offered profiles of `profiles:all`, in its order |
| KvServer.KvStore.Swipe | supabase/functions/server/index_old.ts:282-331 | an unverified caller gets 401; otherwise the direction is stored, a right swipe counts on the target's profile, and a match exactly when the target already swiped right, which records both match lists and the conversation |
| KvServer.KvStore.ListConversations | supabase/functions/server/index_old.ts:366-391 | an unverified caller gets 401; otherwise one summary per matched id, in order |
| KvServer.KvStore.SendMessage | supabase/functions/server/index_old.ts:417-446 | an unverified caller gets 401; otherwise the message is appended to the conversation's list and becomes its last message only when the conversation exists |
| KvServer.KvStore.CollectRanked | supabase/functions/server/index_old.ts:460-470 | the walk over `profiles:all` yields the collected profiles in signup order |
| KvServer.KvStore.Leaderboard | supabase/functions/server/index_old.ts:456-482 | with no category query the category is `All`; the reply is the leaderboard and each of its profiles is written back with its rank |
| KvServer.KvStore.WriteBack | supabase/functions/server/index_old.ts:476-480 | each ranked profile is stored under its own key, in order |
| Ranking.InsertKeeps | supabase/functions/server/index_old.ts:473 | inserting into a sorted list keeps it sorted and adds exactly that element |
| Ranking.SortDescCorrect | supabase/functions/server/index_old.ts:473 | the sort orders by right swipes, highest first, and keeps exactly the input elements |
| Ranking.SortDescStable | supabase/functions/server/index_old.ts:473 | the sort is stable: for every key, the elements with that key appear in the output in their input order, so ties keep the order of `profiles:all` |
| OtpEntry.Completion | src/components/OTPInput.tsx:26-27 | `onComplete` is called exactly when a callback was given and every slot is filled |
| OtpEntry.LastChar | src/components/OTPInput.tsx:17 | an empty value gives an empty slot, any other its last character |
| OtpEntry.Prefix | src/components/OTPInput.tsx:39 | the first n characters, or the whole text when it is shorter |
| OtpEntry.PasteInto | src/components/OTPInput.tsx:42-47 | slot i takes pasted digit i, and the slots past the digits are untouched |
| OtpEntry.FilledCode | src/components/OTPInput.tsx:26-27 | a completed code holds exactly one ASCII digit per slot |
| OtpEntry.ConcatChars | src/components/OTPInput.tsx:56 | one character per slot, joined, gives the pasted text back |
| OtpEntry.PasteFullCode | src/components/OTPInput.tsx:37-57 | pasting at least `length` digits fills every slot and completes with exactly those digits |
| OtpEntry.OtpInput.constructor | src/components/OTPInput.tsx:9-10 | `length` empty slots and no focus |
| OtpEntry.OtpInput.HandleChange | src/components/OTPInput.tsx:13-29 | a value with a non-digit changes nothing; otherwise the slot takes the value's last character, focus moves on when the value is non-empty and not in the last slot, and the code completes when every slot is filled |
| OtpEntry.OtpInput.HandleKeyDown | src/components/OTPInput.tsx:31-35 | Backspace on an empty slot after the first moves focus back one; the slots never change |
| OtpEntry.OtpInput.HandlePaste | src/components/OTPInput.tsx:37-58 | the digits among the first `length` pasted characters fill the leading slots, focus goes to the slot after them (at most the last), and the code completes when every slot is filled |
| Wizard.Without | src/components/CompleteOnboarding.tsx:64 | removes exactly the genre and keeps every other one |
| Wizard.WithoutDistinct | src/components/CompleteOnboarding.tsx:64 | removing a genre keeps the selection free of repeats |
| Wizard.ToggleKeepsLimit | src/components/CompleteOnboarding.tsx:62-72 | toggling keeps the selection free of repeats and at most three genres |
| Wizard.ToggleTwice | src/components/CompleteOnboarding.tsx:62-72 | toggling a new genre in and then out restores the selection |
| Wizard.WithoutAppended | src/components/CompleteOnboarding.tsx:64-70 | removing the genre just appended restores the selection |
| Wizard.ProfileRequest | src/components/CompleteOnboarding.tsx:91-98 | the body holds name, photo, bio and the genres joined by ", ", plus age and gender only when they were filled in |
| Wizard.AgeSentAsNumber | src/components/CompleteOnboarding.tsx:95 | an age typed as the decimal text of a number is sent as that number |
| Wizard.CompleteOnboarding.constructor | src/components/CompleteOnboarding.tsx:24-32 | step 1 with the sign-in name, every other field empty |
| Wizard.CompleteOnboarding.Continue | src/components/CompleteOnboarding.tsx:110-119 | steps 1 to 4 advance only when the step's requirement holds; nothing else changes |
| Wizard.CompleteOnboarding.Back | src/components/CompleteOnboarding.tsx:252 | steps 2 to 5 go back one; nothing else changes |
| Wizard.CompleteOnboarding.PhotoUpload | src/components/CompleteOnboarding.tsx:37-60 | no file changes nothing; a file over 5 MB or not an image is refused with its message; otherwise the photo is the file's data URL |
| Wizard.CompleteOnboarding.ToggleGenre | src/components/CompleteOnboarding.tsx:62-72 | the selection is the toggled one, and adding a fourth genre is refused with a toast |
| Wizard.CompleteOnboarding.BeginComplete | src/components/CompleteOnboarding.tsx:74-91 | pressed only while not loading, since the button is disabled then; with no genre only an error shows; otherwise the profile request is sent and loading starts |
| Wizard.CompleteOnboarding.FinishComplete | src/components/CompleteOnboarding.tsx:99-107 | the wizard completes exactly when the request did not throw, else the error message shows; loading ends either way |
| SwipeDeck.AfterSwipe | src/components/SwipePoolScreen.tsx:181-182 | the cursor moves on one and the swiped id is pushed on the undo stack |
| SwipeDeck.UndoAfterSwipe | src/components/SwipePoolScreen.tsx:181-193 | undo takes back exactly the last swipe |
| SwipeDeck.StackTracksCursor | src/components/SwipePoolScreen.tsx:181-193 | swipe and undo keep the undo stack as deep as the cursor, and undo steps back one when it can |
| SwipeDeck.SwipeToastFor | src/components/SwipePoolScreen.tsx:158-179 | a match toast only follows a reported match or, after a failed right swipe, the random draw; a left swipe is quiet unless it matched; a right swipe always shows a toast |
| SwipeDeck.SwipePool.constructor | src/components/SwipePoolScreen.tsx:121-123 | the built-in deck, the first card, an empty stack, loading |
| SwipeDeck.SwipePool.Remaining | src/components/SwipePoolScreen.tsx:306 | the counter is never negative and is zero exactly when the deck is used up |
| SwipeDeck.SwipePool.LoadProfiles | src/components/SwipePoolScreen.tsx:131-152 | a non-empty server list replaces the deck; an empty list or a failure shows the built-in deck |
| SwipeDeck.SwipePool.HandleSwipe | src/components/SwipePoolScreen.tsx:154-185 | the current card is sent and passed whatever the outcome, with the toast the answer calls for |
| SwipeDeck.SwipePool.HandleUndo | src/components/SwipePoolScreen.tsx:187-193 | the cursor steps back one and the toast shows exactly when it was past the first card |
| SwipeDeck.SwipePool.ReviewAgain | src/components/SwipePoolScreen.tsx:259-262 | back to the first card with an empty stack |
| LeaderboardView.MapRow | src/components/LeaderboardScreen.tsx:106-113 | a server profile keeps its id and name; photo, right swipes, category and rank fall back to the default photo, 0, `Pop` and 0 when falsy |
| LeaderboardView.MapRows | src/components/LeaderboardScreen.tsx:106 | one row per server profile, in order |
| LeaderboardView.LoadedBoard | src/components/LeaderboardScreen.tsx:105-121 | a non-empty server list is shown mapped; an empty list or a failed request shows the built-in board |
| LeaderboardView.ServerRanksShown | src/components/LeaderboardScreen.tsx:106-113 | the ranks the key-value server writes come through the mapping unchanged: row i shows rank i + 1 |
| LeaderboardView.RequestedCategory | src/components/LeaderboardScreen.tsx:103 | no category is sent exactly when `All` is selected |
| LeaderboardView.Search | src/components/LeaderboardScreen.tsx:127-130 | the filter never adds rows |
| LeaderboardView.SearchMeaning | src/components/LeaderboardScreen.tsx:127-130 | a row is kept exactly when it is on the board and its lower-cased name includes the lower-cased query |
| LeaderboardView.EmptySearchKeepsAll | src/components/LeaderboardScreen.tsx:128 | an empty query keeps the whole board, in order, when every name is a string |
| LeaderboardView.Podium | src/components/LeaderboardScreen.tsx:305 | the podium shows the first three rows, or all of them when there are fewer |
| LeaderboardView.Rest | src/components/LeaderboardScreen.tsx:395 | the list shows every row after the third |
| LeaderboardView.PodiumSplit | src/components/LeaderboardScreen.tsx:305-395 | podium and list together show every filtered row once, in order |
| LeaderboardView.RankGradient | src/components/LeaderboardScreen.tsx:132-143 | any rank other than 1, 2 or 3 gets the default gradient |
| LeaderboardView.RankIconOf | src/components/LeaderboardScreen.tsx:145-156 | the crown is exactly for rank 1, the medal exactly for ranks 2 and 3 |
| LeaderboardView.RankEmoji | src/components/LeaderboardScreen.tsx:158-169 | the star is exactly for ranks other than 1, 2 and 3 |
| LeaderboardView.DecorationsAgree | src/components/LeaderboardScreen.tsx:132-169 | gradient, icon and emoji always pick the same tier |
| LeaderboardView.LeaderboardScreen.constructor | src/components/LeaderboardScreen.tsx:89-92 | an empty board, loading, category `All` and an empty query |
| LeaderboardView.LeaderboardScreen.Shown | src/components/LeaderboardScreen.tsx:127-130 | the rows on screen are never more than the board holds |
| LeaderboardView.LeaderboardScreen.BeginLoad | src/components/LeaderboardScreen.tsx:100-103 | loading starts and the selected category is asked for (none for `All`) |
| LeaderboardView.LeaderboardScreen.FinishLoad | src/components/LeaderboardScreen.tsx:104-124 | the board becomes the loaded one and loading ends |
| LeaderboardView.LeaderboardScreen.SetQuery | src/components/LeaderboardScreen.tsx:256 | only the query changes |
| LeaderboardView.LeaderboardScreen.SelectCategory | src/components/LeaderboardScreen.tsx:277 | only the category changes |
| Inbox.FormatTimestamp | src/components/InboxScreen.tsx:139-150 | an empty timestamp is blank; minutes are the elapsed time floored to minutes and below 60; hours likewise below 24; an unreadable date gives the formatter's text |
| Inbox.TimestampBands | src/components/InboxScreen.tsx:143-149 | minutes show exactly under an hour, hours exactly from an hour to under a day, the clock from a day on |
| Inbox.Appended | src/components/InboxScreen.tsx:159-186 | a message is appended exactly when the request threw or answered success, and it carries the draft as the caller's own |
| Inbox.SentIsNewest | src/components/InboxScreen.tsx:166-185 | the list the handler sets ends with the sent message, which carries the draft text, after the messages captured before the request |
| Inbox.InboxScreen.constructor | src/components/InboxScreen.tsx:87-92 | the demo conversations, nothing open, no messages, an empty draft, loading |
| Inbox.InboxScreen.LoadConversations | src/components/InboxScreen.tsx:104-121 | a non-empty server list replaces the conversations; an empty list or a failure shows the demo ones; loading ends |
| Inbox.InboxScreen.SelectChat | src/components/InboxScreen.tsx:98-102 | the chosen chat is open; choosing a different chat reruns the message load, so the demo messages show; choosing the open chat again changes nothing |
| Inbox.InboxScreen.LoadMessages | src/components/InboxScreen.tsx:123-137 | the demo messages load, since the handler calls a function the api module does not have |
| Inbox.InboxScreen.SetDraft | src/components/InboxScreen.tsx:90 | only the draft changes |
| Inbox.InboxScreen.BeginSend | src/components/InboxScreen.tsx:152-157 | a blank draft or no open chat does nothing; otherwise sending starts with the chat, messages and draft captured |
| Inbox.InboxScreen.FinishSend | src/components/InboxScreen.tsx:158-190 | on success or a thrown request the draft clears and the message is appended to the captured list, except in a locked chat, which unlocks and so reloads the demo messages in place of that list; a non-success answer changes nothing; sending ends |
| AppFlow.AfterMe | src/App.tsx:82-93 | the main app follows exactly an answer with success and a musical genre; anything else, a failure included, leads to profile creation |
| AppFlow.App.constructor | src/App.tsx:21-23 | landing, the pool tab, loading, so the splash shows |
| AppFlow.App.Shown | src/App.tsx:46-126 | the splash shows exactly while loading, a tab screen exactly in the main state, and it is the active tab's |
| AppFlow.App.Mount | src/App.tsx:25-44 | a truthy stored auth token skips to the main app, any other stays on landing; loading ends and storage is untouched |
| AppFlow.App.GetStarted | src/App.tsx:63 | landing moves to onboarding |
| AppFlow.App.OnboardingBack | src/App.tsx:98 | onboarding moves back to landing |
| AppFlow.App.OnboardingComplete | src/App.tsx:75-97 | `/auth/me` is asked exactly when a truthy `userId` is stored; without one profile creation follows at once |
| AppFlow.App.MeAnswered | src/App.tsx:82-93 | the state becomes the one the answer leads to |
| AppFlow.App.ProfileCreated | src/App.tsx:109 | profile creation moves to the main app |
| AppFlow.App.SelectTab | src/App.tsx:120-126 | the chosen tab's screen is the one shown |
| OnboardingView.Interpolated | src/components/OnboardingScreen.tsx:48 | a missing id is interpolated as `undefined` |
| OnboardingView.SessionToken | src/components/OnboardingScreen.tsx:48 | the token is never empty: a truthy session token is kept, otherwise it is `auth_<id>_` followed by the clock's decimal text, which reads back as the clock |
| OnboardingView.OrEmpty | src/components/OnboardingScreen.tsx:50-51 | `x \|\| ''`: a truthy text is kept, anything else gives the empty text |
| OnboardingView.Signed | src/components/OnboardingScreen.tsx:49-52 | storage gains exactly the token, id, name and email keys with their values, and every other key keeps its value |
| OnboardingView.VerifiedTokenSent | src/components/OnboardingScreen.tsx:48-49 | after verification the token read from the cache, with or without memory, is the session token, and requests carry it as `Bearer` |
| OnboardingView.OnboardingScreen.constructor | src/components/OnboardingScreen.tsx:14-16 | an empty email, the email step, not loading |
| OnboardingView.OnboardingScreen.SetEmail | src/components/OnboardingScreen.tsx:14 | only the email changes |
| OnboardingView.OnboardingScreen.BeginSendOtp | src/components/OnboardingScreen.tsx:18-26 | the request is sent exactly when the email includes the campus domain, and then loading starts |
| OnboardingView.OnboardingScreen.FinishSendOtp | src/components/OnboardingScreen.tsx:27-39 | the code step shows exactly after a truthy success; loading ends |
| OnboardingView.OnboardingScreen.Resend | src/components/OnboardingScreen.tsx:213-217 | back to the email step, then the code is requested again under the same domain rule |
| OnboardingView.OnboardingScreen.BeginVerify | src/components/OnboardingScreen.tsx:42-45 | the request carries the email and the code; loading starts |
| OnboardingView.OnboardingScreen.FinishVerify | src/components/OnboardingScreen.tsx:46-71 | the screen completes exactly on a truthy success, which stores the session token and the user's id, name and email; otherwise nothing is stored; loading ends |
| ProfileView.StatsOf | src/components/ProfileScreen.tsx:83-85 | missing stats read every field as `undefined` |
| ProfileView.FromUser | src/components/ProfileScreen.tsx:79-88 | each field is the user's when truthy and its fallback otherwise: `You`, the default photo, 0, 0, `Indie` and the built-in songs |
| ProfileView.FullUserShownAsSent | src/components/ProfileScreen.tsx:79-88 | a user whose fields are all truthy is shown exactly as sent |
| ProfileView.EmptyUserFallbacks | src/components/ProfileScreen.tsx:14-62 | an empty user keeps the default name, photo and songs but zeroes the counts, so it differs from the built-in profile |
| ProfileView.ProfileScreen.constructor | src/components/ProfileScreen.tsx:67-69 | the built-in profile, loading, the main screen |
| ProfileView.ProfileScreen.FinishLoad | src/components/ProfileScreen.tsx:75-96 | only an answer with a user replaces the profile; loading ends |
| ProfileView.ProfileScreen.Open | src/components/ProfileScreen.tsx:110-121 | a button opens the chosen sub-screen |
| ProfileView.ProfileScreen.Back | src/components/ProfileScreen.tsx:110-121 | every sub-screen's back button returns to the main screen |
| ProfileView.ProfileScreen.Logout | src/components/ProfileScreen.tsx:98-107 | after confirmation the token and the current user id are gone from memory and storage and read as nothing; without it nothing changes |
| AccountSettings.SettingsScreen.constructor | src/components/AccountSettingsScreen.tsx:12-15 | every switch starts on |
| AccountSettings.SettingsScreen.Change | src/components/AccountSettingsScreen.tsx:54-96 | an enabled switch takes the new value and no other switch changes |
| AccountSettings.SettingsScreen.DeleteAccount | src/components/AccountSettingsScreen.tsx:17-21 | the notice shows exactly when the user confirms |
| AccountSettings.PushOffDisablesOthers | src/components/AccountSettingsScreen.test.tsx:7-20 | after push is switched off on a fresh screen, the email, match and message switches are disabled and keep their values |
| Pwa.InstallPrompts.constructor | src/utils/pwa.ts:107-125 | no prompt is held and no listener is attached before set-up |
| Pwa.InstallPrompts.Setup | src/utils/pwa.ts:107-125 | the listeners are attached exactly when the host name does not include `figma`; the held prompt is untouched |
| Pwa.InstallPrompts.BeforeInstallPrompt | src/utils/pwa.ts:114-119 | an attached listener holds the event; without one nothing changes |
| Pwa.InstallPrompts.AppInstalled | src/utils/pwa.ts:121-124 | an attached listener forgets the held event |
| Pwa.InstallPrompts.PromptInstall | src/utils/pwa.ts:138-161 | the result is true exactly when a prompt was held and the user accepted; the prompt is dropped whatever the outcome |
| Pwa.RequestNotificationPermission | src/utils/pwa.ts:182-198 | no support gives `denied`; a decided permission is returned as it is; an undecided one returns the user's answer |
| Pwa.AskedOnlyWhenUndecided | src/utils/pwa.ts:188-195 | the user's answer can change the result only when notifications are supported and the permission is undecided |
| Base64.StdChar | src/utils/pwa.ts:230 | every value maps to a character of the standard alphabet |
| Base64.ValueOf | src/utils/pwa.ts:230 | a character's value, when it has one, maps back to that character |
| Base64.ValueOfStdChar | src/utils/pwa.ts:230 | every value is read back from its own character |
| Base64.Sextets | src/utils/pwa.ts:230 | a readable text gives one value per character |
| Base64.Padding | src/utils/pwa.ts:225 | `(4 - n % 4) % 4` `=` characters, which bring the length to a multiple of four |
| Base64.ToStdAlphabet | src/utils/pwa.ts:226-228 | `-` becomes `+`, `_` becomes `/`, every other character is kept |
| Base64.DropSpace | src/utils/pwa.ts:230 | removing white space never lengthens the text and keeps a text without any |
| Base64.BinaryString | src/utils/pwa.ts:230 | one character per byte, its code the byte |
| Base64.Atob | src/utils/pwa.ts:230 | every character of a decoded string has a code below 256 |
| Base64.Prepared | src/utils/pwa.ts:225-228 | the prepared text's length is a multiple of four |
| Base64.UrlBase64ToBytes | src/utils/pwa.ts:224-237 | bytes come out exactly when `atob` accepts the prepared text, one per decoded character, equal to its code |
| Base64.DecodeEncode | src/utils/pwa.ts:230 | decoding what the reference encoder wrote gives the bytes back |
| Base64.SextetsOfStdText | src/utils/pwa.ts:230 | standard text reads back as the values it was written from |
| Base64.MappedUrlText | src/utils/pwa.ts:226-228 | mapping URL-safe text and its padding gives the standard text with the same padding |
| Base64.DropPadStd | src/utils/pwa.ts:230 | up to two `=` after standard text are exactly what the decoder drops |
| Base64.AtobStd | src/utils/pwa.ts:230 | `atob` of padded standard text decodes exactly the values it was written from |
| Base64.UrlRoundTrip | src/utils/pwa.ts:224-237 | any bytes written as unpadded URL-safe text come back from the conversion unchanged |
| Base64.UrlBase64ToUint8Array | src/utils/pwa.ts:224-237 | the conversion fails exactly when `atob` throws, and otherwise fills a fresh array with the decoded bytes |
| Spotify.StoreTokens | src/utils/spotify.ts:91-99 | the access token is always stored, the refresh token only when truthy, the expiry as `now + expires_in * 1000` only when given; every other key keeps its value |
| Spotify.TokenFreshness | src/utils/spotify.ts:111-125 | no token exactly when none or an empty one is stored; a token to use is the stored one |
| Spotify.ExpiryHonoured | src/utils/spotify.ts:91-125 | a token stored with an expiry is used up to the deadline and refreshed after it |
| Spotify.OldExpiryKept | src/utils/spotify.ts:96-99 | a reply without an expiry leaves the earlier expiry in place |
| Spotify.InitiateAuth | src/utils/spotify.ts:41-60 | the flow starts exactly when a client id is configured, and then the 16-character state is saved; otherwise nothing is stored |
| Spotify.ExchangeCode | src/utils/spotify.ts:66-106 | a state other than the saved one, or a failed request, gives no token and stores nothing; otherwise the reply's tokens are stored and its access token returned |
| Spotify.Refresh | src/utils/spotify.ts:130-167 | without a refresh token nothing happens; a failed refresh removes the access and refresh tokens but keeps the expiry; a success stores the new access token and expiry |
| Spotify.GetAccessToken | src/utils/spotify.ts:111-125 | no token gives none and a fresh one is returned as stored, storage untouched in both; an expired one is refreshed: the new token is returned and stored with its expiry, a failed refresh returns none and removes both tokens, and without a refresh token nothing changes |
| Spotify.Disconnect | src/utils/spotify.ts:288-293 | the three token keys and the saved state are removed, so nothing is connected |
| Spotify.GenerateRandomString | src/utils/spotify.ts:298-305 | `length` characters, each the drawn one of the 62 letters and digits |
| ServiceWorkerCore.Names | src/public/service-worker.js:29-32 | one name per cache, in order |
| ServiceWorkerCore.MatchIn | src/public/service-worker.js:73-79 | a response is found exactly when some cache holds the URL, and it is that cache's entry |
| ServiceWorkerCore.Opened | src/public/service-worker.js:16 | opening a missing cache adds it, empty, after the others; opening an existing one changes nothing |
| ServiceWorkerCore.PutAll | src/public/service-worker.js:96-97 | the entries land in the named cache, opened first; every other cache keeps its entries |
| ServiceWorkerCore.Without | src/public/service-worker.js:35 | exactly the caches whose names were not deleted remain |
| ServiceWorkerCore.KeepOnly | src/public/service-worker.js:33 | exactly the caches named `tunematch-v1` and `tunematch-runtime` remain |
| ServiceWorkerCore.WithoutNothing | src/public/service-worker.js:29-39 | deleting no name changes nothing |
| ServiceWorkerCore.WithoutMore | src/public/service-worker.js:31-37 | deleting one more name is deleting the larger set |
| ServiceWorkerCore.WithoutUnkept | src/public/service-worker.js:29-39 | deleting every unkept name leaves exactly the kept caches |
| ServiceWorkerCore.Unkept | src/public/service-worker.js:33 | every name collected for deletion is one activation does not keep |
| ServiceWorkerCore.UnkeptCovers | src/public/service-worker.js:32-36 | every cache is kept or collected for deletion |
| ServiceWorkerCore.KeptStep | src/public/service-worker.js:33 | a kept name adds nothing to the names deleted |
| ServiceWorkerCore.DeleteStep | src/public/service-worker.js:33-35 | deleting the next unkept name extends the deletion by that name |
| ServiceWorkerCore.ActivateDone | src/public/service-worker.js:29-39 | after the whole list exactly the kept caches remain |
| ServiceWorkerCore.CacheStorage.Delete | src/public/service-worker.js:35 | the named cache is gone and the others stay in order |
| ServiceWorkerCore.Activate | src/public/service-worker.js:26-42 | activation leaves exactly the two named caches, as they were |
| ServiceWorkerCore.AssetEntries | src/public/service-worker.js:19 | one entry per asset URL |
| ServiceWorkerCore.Precache | src/public/service-worker.js:15-21 | all assets are stored exactly when every fetch succeeds with `ok`; otherwise only the opened, empty cache is left |
| ServiceWorkerCore.PrecachedAssetsMatch | src/public/service-worker.js:15-21 | after a successful precache every asset is found by `caches.match` |
| ServiceWorkerCore.RouteOf | src/public/service-worker.js:49-86 | cross-origin requests are left alone, same-origin API paths go to the network, navigations go network-first, anything else cache-first |
| ServiceWorkerCore.FetchStep | src/public/service-worker.js:45-121 | a cross-origin request is exactly the one not answered; any answer is the network's, the cached entry or the cached root |
| ServiceWorkerCore.CachingRules | src/public/service-worker.js:54-118 | API and cross-origin requests are never cached; a navigation caches what the network answered; cache-first stores only status-200 responses, and never an `error` one from the network; a cache hit is answered from the cache |
| ServiceWorkerCore.OfflineNavigation | src/public/service-worker.js:71-81 | an offline navigation gets the cached page, else the cached root, else a network error |
| ServiceWorkerCore.HandleFetch | src/public/service-worker.js:45-121 | the answer is the fetch step's and the runtime cache gains exactly the response it stores |
| PublicWorker.Worker.constructor | src/public/service-worker.js:1-10 | a worker that has neither skipped waiting nor claimed its clients |
| PublicWorker.Worker.Install | src/public/service-worker.js:13-23 | the worker installs exactly when the four assets are precached, and then skips waiting |
| PublicWorker.Worker.Activate | src/public/service-worker.js:26-42 | only the two named caches survive, then the clients are claimed |
| PublicWorker.Worker.Fetch | src/public/service-worker.js:45-121 | the fetch step's answer, with its stored response written to the runtime cache |
| PublicWorker.Worker.Message | src/public/service-worker.js:124-128 | a message whose type is `SKIP_WAITING` makes the worker skip waiting |
| PublicWorker.NotificationClick | src/public/service-worker.js:186-196 | a window opens exactly for the `explore` action, on the inbox tab |
| SrcWorker.Worker.constructor | src/service-worker.js:1-9 | a worker that has neither skipped waiting nor claimed its clients |
| SrcWorker.Worker.Install | src/service-worker.js:12-24 | the three assets are stored all or none, and the worker skips waiting either way |
| SrcWorker.Worker.Activate | src/service-worker.js:27-43 | only the two named caches survive, then the clients are claimed |
| SrcWorker.Worker.Fetch | src/service-worker.js:46-122 | the same fetch step as the public worker |
| SrcWorker.Worker.Message | src/service-worker.js:125-129 | a message whose type is `SKIP_WAITING` makes the worker skip waiting |
| BuildWorker.CacheOrNetwork | build/service-worker.js:37-42 | every request is answered: from the cache when it holds the URL, else from the network, else a network error |
| BuildWorker.Worker.constructor | build/service-worker.js:1-10 | a worker that has neither skipped waiting nor claimed its clients |
| BuildWorker.Worker.Install | build/service-worker.js:13-19 | the worker installs exactly when the four assets are precached, and then skips waiting |
| BuildWorker.Worker.Activate | build/service-worker.js:22-34 | only the two named caches survive, then the clients are claimed |
| BuildWorker.Worker.Fetch | build/service-worker.js:37-42 | the cache-or-network answer; no cache is written |
| BuildWorker.ShellServedOffline | build/service-worker.js:13-42 | once the shell is precached the page is served from the cache whatever the network does |

## Left out

- The Supabase client and auth provider (`getUser`, `signInWithOtp`, `verifyOtp`, `admin.createUser`, `createSession`, `signInWithPassword`) are external services. Their answers are parameters.
- The key-value store of `supabase/functions/server/index_old.ts` is assumed never to fail, and request bodies are assumed to be JSON. Each route there answers 500 when a `kv.get` or `kv.set` rejects or the body does not parse, keeping the writes made before the failure (a swipe stored with only one side's match list written, say). `KvServer.KvStore.Signup`, `UpdateProfile`, `PotentialMatches`, `Swipe`, `ListConversations`, `SendMessage` and `Leaderboard` do not model that 500 path or its partial writes.
- Hono routing, CORS, logging, `Deno.serve` and `Deno.env` are framework plumbing. Each handler is a method of its own.
- Concurrency is not modelled. Each handler runs as one sequential step, so the following are out:
  - two users liking each other at the same moment, and the duplicate matches that can follow;
  - the leaderboard's un-awaited rank writes, which are modelled as done in order;
  - the service workers' background cache refresh, modelled as finishing within the same event;
  - `setTimeout` delays.
- Floating point is out:
  - Numbers are integers, so `expires_in * 1000` with a fractional `expires_in` is not covered.
  - `Math.floor(rightSwipes * 0.3)` on the leaderboard is not covered.
  - The random match score and the random fake-match draw of the swipe deck are left out; the draw is a boolean parameter.
- Text is a sequence of UTF-16 code units without surrogate pairs. Lower-casing covers ASCII letters only, and `trim` covers the usual white space.
- `JSON.stringify` dropping `undefined` is modelled only where a body is built: the profile update and the wizard's request. Other replies are datatypes, not JSON text.
- `toLocaleTimeString` and `new Date(...)` parsing are left out. Their results are parameters.
- Toasts are kept only where a handler's outcome is a toast (wizard, swipe deck, undo). Their emoji and durations are left out, and so are the form setters of plain text fields.
- Deck cards are the fields the handlers read. The mapped-in age, school, distance and match score are not modelled.
- `initiateSpotifyAuth`: the built authorisation URL and the page redirect are left out. The saved `state` is modelled.
- The Spotify profile and top-track fetches, and the server's Spotify routes, are network wrappers and are left out.
- `registerServiceWorker`, `showUpdateNotification`, `subscribeToPushNotifications`, `shareContent` and the network-status helpers of `src/utils/pwa.ts` are browser plumbing. `urlBase64ToUint8Array` is modelled.
- `isPWA` and `canInstall` are predicates with no contract of their own. They are defined in `Pwa`.
- The service workers' push and background-sync handlers are left out. The sync handlers only log, and the push handler only builds a notification.
- `cache.put` refusing non-GET requests and partial (206) responses is a browser rule and is not modelled.
- The install-prompt component, the landing page, the cards, the tab bar and the other presentation components only render state.
- The page reload after logout is a browser action and is left out.
- Client and server disagree on field names: the client sends `swiped_user_id` with `like`/`skip`, while the key-value server reads `targetUserId` with `right`. Each side is modelled as written, and the mismatch is not reconciled.
- `Inbox.InboxScreen.LoadMessages`: the handler calls `api.messages.get`, which the api module does not define (it has `getMessages`). The model therefore always loads the demo messages.
- `Inbox.InboxScreen.SelectChat`: React reruns the message load when `selectedChat` becomes a different object. The model compares chats by value, so choosing a chat equal to the open one but held in another object does not reload.
- `KvServer.SwipeKeyInjective` and `KvServer.ReciprocalSurvives` assume ids without ':'. With a ':' in an id, swipe keys of different pairs can collide, and the model does not say what happens then.
- `LeaderboardView.Search`: a row whose name is not a string makes `toLowerCase` throw. The model treats such a name as not matching.
- Counts stored as text (`"3"`) follow JavaScript's `+ 1` string concatenation in `KvServer.Increment`. A count stored as an array becomes 1 in the model, where JavaScript would concatenate the array's text (`[1] + 1` is `"11"`); the server only ever stores numbers there. The leaderboard sort reads every non-number count as 0, where JavaScript's subtraction would read `"3"` as 3.
- The relational conversation update is by the row's id. The model updates the pair's one conversation row, which is the same row when the pair has a single conversation.
- `JsNumber.ParseInt`: `parseInt` reads a `0x` or `0X` prefix as hexadecimal; the model reads only decimal digits, so such text parses as 0. The app writes only decimal text under the expiry key.
- `ApiClient.ApiResult`: a failed response whose JSON body is `null` or a primitive makes `error.error` throw a `TypeError` in place of the `Request failed` error. The model's bodies are always objects, so it does not represent that case.
- Error values that are not `Error` objects are shown by their message text only. Their string conversion is not modelled.

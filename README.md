# Luminate learning dashboard — a verified model of its stores and page logic

Luminate is a single-page learning dashboard. It is made of:

- a **session store** (`useAuth`): a mock login and signup that keep the
  signed-in user as JSON under the local-storage key `luminate_user`;
- a **learning store** (`useLearning`): the topic catalog and the user's
  per-topic progress records;
- two pages that derive views from both stores. The **dashboard** shows the
  status counts, the authentication gate and each topic card's caption. The
  **topic page** makes the redirect decision, builds the mock sections,
  sends the first-visit and "start learning" progress updates, and picks the
  button caption.

This project models those parts in Dafny and proves what they promise. The
modules are:

- `Wrappers`: an `Option` type with the `:-` failure protocol.
- `Format`: decimal text of integers, with its parser and round trip. It
  also has ASCII lower-casing.
- `JsonText`: JSON string literals and arrays of them, as `JSON.stringify`
  writes them (ECMA-404, section 9). It includes a decoder for every escape
  of that section except a `\u` escape naming a surrogate code unit, and a
  proved round trip.
- `Auth`: the user record, its stored JSON form, and the `SessionStore`
  class. The class holds `user`, `isLoading` and a `map<string, string>`
  standing for local storage.
- `Learning`: topics and progress records, the first-match lookups, and the
  upsert behind `updateProgress`. It also has the mock progress drawn at load
  and the `LearningStore` class, which holds `topics` and `userProgress`.
- `Dashboard`: the status counts, the authentication gate and the card
  caption, all as pure functions.
- `TopicDetail`: the topic page's decisions as pure functions. Its
  `TopicPage` class holds `sections` and `isLoading`, and its methods call
  into the learning store.

Inputs replace the sources of nondeterminism:

- each `Math.random()` draw is a `Random` real in `[0, 1)`;
- each `new Date()` is a `now` argument, in milliseconds for the learning
  store and as ISO text for the user record;
- the random id suffix of a new user is a string argument;
- the failure of a `localStorage.setItem` call is a boolean argument.

`loadTopics` keeps the mock catalog in declaration order
(src/hooks/useLearning.tsx:118); the model does not sort it.

## Model

| member | source | states |
|---|---|---|
| Learning.FindTopic | src/hooks/useLearning.tsx:147-149 | the result is the first topic with the id, and none exactly when no topic has it |
| Learning.FindProgress | src/hooks/useLearning.tsx:151-153 | the result is the first record for the topic, and none exactly when no record is for it |
| Learning.FindProgressAt | src/hooks/useLearning.tsx:151-153 | if position k is the first record for the topic, the lookup returns that record |
| Learning.LearningStore.GetTopicById | src/hooks/useLearning.tsx:147-149 | a first-match lookup in the catalog; while the catalog is still empty, nothing is found |
| Learning.LearningStore.GetProgressForTopic | src/hooks/useLearning.tsx:151-153 | a first-match lookup in the store's progress records |
| Learning.UpsertProgress | src/hooks/useLearning.tsx:160-183 | an existing topic keeps the list length; each of its records becomes the old record overlaid with the update and stamped with `now`; other records are unchanged. A new topic appends exactly one record: the defaults (in progress, 0 %, 0 min, `now`) with the update spread over them |
| Learning.Overlay | src/hooks/useLearning.tsx:167-167 | each field the update carries replaces the record's, and each field it lacks keeps the record's value |
| Learning.Merged | src/hooks/useLearning.tsx:167-167 | the merged record is stamped with `now`; a `lastAccessed` in the update is overridden, and every other field is as `Overlay` gives it |
| Learning.NewProgress | src/hooks/useLearning.tsx:172-178 | the defaults of a new record: the user's id, the topic's id, in progress, 0 %, 0 minutes, `now` |
| Learning.OverlayNoFields | src/hooks/useLearning.tsx:167-167 | spreading an empty update over a record leaves it as it was |
| Learning.UpsertKeepsAtMostOne | src/hooks/useLearning.tsx:160-183 | if the update does not name another topic, the upsert preserves "at most one record per topic" |
| Learning.FindAfterUpsert | src/hooks/useLearning.tsx:161-181 | after the upsert, looking up the topic finds the merged record, or the new one |
| Learning.FindOtherAfterUpsert | src/hooks/useLearning.tsx:165-169 | lookups for every other topic answer as before the upsert |
| Learning.UpsertTwice | src/hooks/useLearning.tsx:160-183 | two upserts of one topic still give one record for it; the list grows by at most one; the lookup sees the second update over the first |
| Learning.KeyOverrideDuplicates | src/hooks/useLearning.tsx:165-181 | an update carrying a different `topicId` is spread last, so it can create a second record for a topic |
| Learning.RandomBelow | src/hooks/useLearning.tsx:126-128 | `Math.floor(r * n)` lies in `0 .. n-1` |
| Learning.RandomStatus | src/hooks/useLearning.tsx:125-125 | the mock status is in progress exactly when the draw exceeds 0.5, otherwise not started; it is never completed |
| Learning.MockCatalogShape | src/hooks/useLearning.tsx:41-92 | the mock catalog has five topics; the first two are `topic-1` and `topic-2`; their ids are distinct; each topic's update date is no earlier than its creation date |
| Learning.MockRecord | src/hooks/useLearning.tsx:122-129 | one mock record: the user's id, the topic's id and `now`; in progress exactly when the status draw exceeds 0.5, never completed; 0..99 % and 0..119 minutes |
| Learning.MockProgress | src/hooks/useLearning.tsx:122-129 | exactly two records, for the first two mock topics, one per topic. Each has the user's id, a status that is not completed, 0..99 %, 0..119 minutes, and `now` |
| Learning.LearningStore.constructor | src/hooks/useLearning.tsx:96-97 | both sequences start empty |
| Learning.LearningStore.LoadTopics | src/hooks/useLearning.tsx:115-136 | the catalog becomes the five mock topics; with a user, the records become the mock progress; without one, they are unchanged |
| Learning.LearningStore.UserChanged | src/hooks/useLearning.tsx:138-145 | a signed-in user loads the catalog and the mock progress; no user empties both |
| Learning.LearningStore.UpdateProgress | src/hooks/useLearning.tsx:155-187 | no user changes nothing. Otherwise the records become the upsert, the topic's lookup finds the upserted record, and uniqueness is preserved when the update keeps the topic's key |
| Auth.LocalPart | src/hooks/useAuth.tsx:54-54 | the result is a prefix of the email with no '@', followed in the email by '@' unless it is all of it |
| Auth.LocalPartWithoutAt | src/hooks/useAuth.tsx:54-54 | an email without '@' is its own local part |
| Auth.LoginUser | src/hooks/useAuth.tsx:51-57 | the email is the one given; the name is its local part; the id is `user-` followed by the suffix; no friends; created now |
| Auth.SignupUser | src/hooks/useAuth.tsx:74-80 | the email and the name are exactly the ones given; the id is `user-` followed by the suffix; no friends; created now |
| Auth.Serialize | src/hooks/useAuth.tsx:59-59 | the stored text opens with the `id` key and ends with the closing brace; `ParseSerialize` proves it reads back as the user |
| Auth.Parse | src/hooks/useAuth.tsx:34-34 | text that parses has the outline of a stored user (opens with the `id` key, ends with the closing brace); weaker than `JSON.parse`, as admitted under "Left out" |
| Auth.ParseSerialize | src/hooks/useAuth.tsx:59-59 | parsing the JSON written for a user gives back that user, field for field |
| Auth.StoredUser | src/hooks/useAuth.tsx:32-35 | an absent key or an empty stored value yields no user |
| Auth.StoredAfterWrite | src/hooks/useAuth.tsx:32-35 | after the user is written under the key, reading storage yields that user |
| Auth.SessionStore.constructor | src/hooks/useAuth.tsx:25-26 | no user, loading, and storage as the browser kept it |
| Auth.SessionStore.IsAuthenticated | src/hooks/useAuth.tsx:101-101 | true exactly when a user is set |
| Auth.SessionStore.CheckAuth | src/hooks/useAuth.tsx:30-41 | a stored user that parses is adopted; an absent key, an empty value or a parse failure leaves the user as it was; loading ends; storage is unchanged |
| Auth.SessionStore.Adopt | src/hooks/useAuth.tsx:47-66 | on success the user is written under the key and becomes current, and reading storage yields it. A failed write changes neither. Loading ends in both cases |
| Auth.SessionStore.Login | src/hooks/useAuth.tsx:46-67 | on success the current user is the login user, and storage holds exactly its JSON under the key; a failed write changes nothing; loading ends |
| Auth.SessionStore.Signup | src/hooks/useAuth.tsx:69-90 | as for login, with the email and name exactly as given |
| Auth.SessionStore.Logout | src/hooks/useAuth.tsx:92-95 | the key is removed and the user is cleared; storage then yields no user, and the store is not authenticated |
| Auth.LogoutTwice | src/hooks/useAuth.tsx:92-95 | logging out twice leaves the same state as logging out once: no user, the key removed from storage, and the loading flag unchanged |
| Auth.FreshSignup | src/hooks/useAuth.tsx:69-90 | a client with empty storage is not authenticated after `checkAuth`; after `signup` its user is the signup user, with exactly the given email and name |
| Auth.LoginThenRestart | src/hooks/useAuth.tsx:30-67 | after `login`, a new provider over the same storage restores exactly the user that logged in, whatever the storage held before |
| JsonText.HexValue | src/hooks/useAuth.tsx:34-34 | a hexadecimal digit of either case has a value below 16 |
| JsonText.HexDigitValue | src/hooks/useAuth.tsx:59-59 | the lower-case digit written for a value reads back as that value |
| JsonText.EscapeChar | src/hooks/useAuth.tsx:59-59 | every escaped character is non-empty and never begins with a quote mark |
| JsonText.ReadString | src/hooks/useAuth.tsx:34-34 | a successful decode consumes at least the closing quote; weaker than `JSON.parse` on surrogate escapes, as admitted under "Left out" |
| JsonText.ReadStringRest | src/hooks/useAuth.tsx:34-34 | the decoder consumes a prefix: what it leaves is a suffix of its input |
| JsonText.ReadQuoted | src/hooks/useAuth.tsx:34-34 | a decoded literal leaves a strictly shorter suffix of the input |
| JsonText.ReadStringArray | src/hooks/useAuth.tsx:34-34 | a decoded array of literals leaves a strictly shorter suffix of the input |
| JsonText.ReadItemsRest | src/hooks/useAuth.tsx:34-34 | reading a list of literals leaves a suffix of its input |
| JsonText.ReadEscapedChar | src/hooks/useAuth.tsx:59-59 | one escaped character decodes back to that character, and the decoder then continues on the rest |
| JsonText.EscapeRoundTrip | src/hooks/useAuth.tsx:59-59 | decoding an escaped text and its closing quote gives back the text and leaves what follows |
| JsonText.QuoteRoundTrip | src/hooks/useAuth.tsx:59-59 | a string literal decodes to its text |
| JsonText.ItemsRoundTrip | src/hooks/useAuth.tsx:59-59 | a non-empty comma-separated list of literals decodes to its strings |
| JsonText.ArrayRoundTrip | src/hooks/useAuth.tsx:59-59 | an array of strings decodes to those strings, and leaves what follows |
| Format.NatDigits | src/pages/Dashboard.tsx:265-265 | decimal text is non-empty, all digits, with no leading zero |
| Format.IntString | src/pages/Dashboard.tsx:265-265 | the text starts with '-' exactly when the number is negative |
| Format.NatDigitsValue | src/pages/Dashboard.tsx:265-265 | the digits of n read back as n |
| Format.IntStringRoundTrip | src/pages/Dashboard.tsx:265-265 | the text of any integer parses back to it |
| Format.AsciiLower | src/pages/TopicDetail.tsx:65-65 | the length is kept; every upper-case ASCII letter becomes its lower-case letter (32 code points up), so none is left; every other character is unchanged |
| Dashboard.CountStatus | src/pages/Dashboard.tsx:60-61 | the count is at most the number of records; it is 0 exactly when no record has the status, and equals the number of records exactly when all have it |
| Dashboard.StatusCountsPartition | src/pages/Dashboard.tsx:58-63 | the three status counts add up to the number of records |
| Dashboard.GetTopicCounts | src/pages/Dashboard.tsx:57-66 | `total` is the catalog size; `completed` and `inProgress` are the status counts; `notStarted` is the catalog size less the number of records. The sum is at most `total`, and equal exactly when no record is not started |
| Dashboard.AuthGate | src/pages/Dashboard.tsx:40-46 | a signed-out visitor is sent to `/login`, and the catalog is loaded exactly when the visitor is signed in |
| Dashboard.ProgressLabel | src/pages/Dashboard.tsx:237-265 | a card with a record reads its percentage followed by `% complete`, and one without reads `Not started` |
| Dashboard.LabelShowsPercent | src/pages/Dashboard.tsx:265-265 | a card with a record never reads `Not started`; the caption ends in `% complete`, and what precedes that parses to the record's percentage |
| TopicDetail.MockSections | src/pages/TopicDetail.tsx:60-96 | five sections: text, text, exercise, video, quiz, lasting 10, 15, 20, 18 and 12 minutes. Their total is the 75-minute estimate the page shows (line 190) |
| TopicDetail.PageTopic | src/pages/TopicDetail.tsx:41-41 | a missing or empty topic id (both falsy) means no topic; otherwise a first-match lookup in the catalog |
| TopicDetail.PageProgress | src/pages/TopicDetail.tsx:42-42 | a missing or empty topic id means no record; otherwise a first-match lookup in the progress records |
| TopicDetail.MountAction | src/pages/TopicDetail.tsx:44-53 | a signed-out visitor goes to `/login` whatever the topic; a signed-in one with an unknown topic goes to `/dashboard`; otherwise the topic is shown |
| TopicDetail.Prose | src/pages/TopicDetail.tsx:65-93 | the paragraphs for the introduction, the core concepts and the advanced techniques name the lower-cased topic title right after their opening words |
| TopicDetail.OrDefault | src/pages/TopicDetail.tsx:120-121 | the default that a JavaScript logical "or" gives: the value when it is present and nonzero, else the default |
| TopicDetail.StartLearningUpdate | src/pages/TopicDetail.tsx:118-122 | the update is in progress. It keeps a nonzero percentage and sends 5 when the percentage is missing or 0. Its time is the old time (or 0) plus 5. It touches no other field |
| TopicDetail.StartLearning | src/pages/TopicDetail.tsx:114-122 | nothing is sent exactly when there is no topic; otherwise the update goes to the topic's id |
| TopicDetail.ButtonCaption | src/pages/TopicDetail.tsx:231-231 | `Continue Learning` exactly when a record with a nonzero percentage exists, otherwise `Start Learning` |
| TopicDetail.ActiveLearners | src/pages/TopicDetail.tsx:37-37 | the number of active learners shown lies in 50..249 |
| TopicDetail.InitialUpdateIsDefaults | src/pages/TopicDetail.tsx:103-107 | the first-visit update keeps the topic's key, and spread over a new record's defaults it changes nothing |
| TopicDetail.FirstVisitRecord | src/pages/TopicDetail.tsx:101-108 | the first-visit update leaves exactly the default record: in progress, 0 %, 0 min, `now` |
| TopicDetail.StartLearningRecord | src/pages/TopicDetail.tsx:114-122 | after "start learning" the record is in progress, has 5 more minutes, a nonzero percentage and `now`, and the button then reads `Continue Learning` |
| TopicDetail.TopicPage.constructor | src/pages/TopicDetail.tsx:38-39 | no sections, loading |
| TopicDetail.TopicPage.Mount | src/pages/TopicDetail.tsx:44-56 | the page takes the mount decision, and it starts loading only when the topic is shown |
| TopicDetail.TopicPage.SectionsReady | src/pages/TopicDetail.tsx:58-109 | the sections are the mock ones and loading is over. Without a record, the learning store receives the first-visit upsert; with a record, nothing else changes |
| TopicDetail.TopicPage.StartLearningClicked | src/pages/TopicDetail.tsx:114-122 | with a topic and a user, the store receives the "start learning" upsert; otherwise nothing changes |

## Left out

- The optional `avatar` field of a user is not modelled. Nothing sets it or reads it.
- JsonText.ReadString refuses a `\u` escape naming a surrogate code unit (U+D800 to U+DFFF), such as the pair `\ud83d\ude00`, which `JSON.parse` decodes to one character; `Auth.Parse` then treats such a stored user as unreadable. A Dafny `char` is a Unicode scalar value, so no modelled string holds a surrogate, and `JSON.stringify` writes no such escape for any of them: `ParseSerialize` is unaffected.
- Auth.Parse recognises only the layout `JSON.stringify` gives a user: the keys in declaration order, with no whitespace. Any other stored text counts as a parse failure. `JSON.parse` also accepts other layouts, and then adopts any value it returns, even a non-user such as `null` or a number.
- Auth.User.createdAt is kept as its ISO-8601 text: a `Date` becomes that text in storage and stays that text after a restore. Date arithmetic and formatting are not modelled.
- `login` and `signup` are asynchronous and rethrow a storage failure. The model reports that failure as the `ok` result and does not model the promise.
- The learning store's `new Date()` readings are one `now` per call. At load time the two mock records share it.
- Format.AsciiLower lower-cases only ASCII letters, whereas `toLowerCase` follows the full Unicode case mapping.
- TopicDetail.Prose: each section's content is kept as a `TopicDetail.Paragraph` value (which paragraph, and the topic title it names), rendered by `Prose`. Its contract states only that three paragraphs name the lower-cased title right after their opening words. The rest of the wording appears only in its definition, because contracts over those long texts exceed the solver's resource budget.
- Timers (`setTimeout`, `clearTimeout`), toast notifications and the `navigate` side effect are left out. Only the chosen route or action is modelled.
- The portfolio value, change and daily-activity constants in `src/hooks/useLearning.tsx:99-113` carry no logic, and are left out.
- The catalog popularity delta shown on the topic page (`popularity - 750`) is rendering only, and is left out.
- `src/pages/Dashboard.tsx` reads a later store revision, with snake_case fields, popularity history and an `isLoading` flag. That revision is not part of this model. The dashboard's counts and captions are modelled over the progress records of `src/hooks/useLearning.tsx`.
- React's concurrent state updates and effect scheduling are not modelled; every method runs to completion.
- The `try`/`catch` blocks around `loadTopics` and the `updateProgress` updater are not modelled: nothing in their bodies can throw here.
- Rendering, styling, the canvas background, the custom cursor, the chart component, routing and the login form are left out.

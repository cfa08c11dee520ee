# Mindi mental-health companion — a Dafny model of its core

Mindi is a Next.js web app. A signed-in user logs moods on a 1–10 slider,
keeps a journal, chats with an AI companion and gets music picked for their
latest mood. Data lives in a hosted Postgres store reached through a
PostgREST-style client, and text comes from a hosted language model.

This project models the app's core in Dafny:

- the profile bootstrap run before every write;
- the AI gateway with its fallbacks;
- the six components that read and write the store;
- the navigation bar's link highlighting.

Whatever the outside world decides becomes a parameter of the model:

- the auth client's answer;
- the rows and errors the store returns;
- the model's completion or thrown error;
- `JSON.parse`;
- fresh ids, the clock and date formatting.

Each operation returns what it sends to the outside world: the store query, the rows inserted or the model call made. So "nothing is sent" can be stated and proved.

Modules and files:

| file | module | models |
|---|---|---|
| `common.dfy` | `Wrappers`, `Errors`, `Text`, `Sequences` | optional values and results; the values a `catch` sees and how the code turns them into text; `String.prototype.trim`; `split('@')[0]`; `Array.prototype.find` |
| `types.dfy` | `Types` | the records of `lib/types.ts` and the auth client's answer |
| `store.dfy` | `Store` | the shape of a select (table, `.eq` filters, order on `created_at`, `.limit`) and a reference reading of what it returns |
| `profiles.dfy` | `Profiles` | `ensureUserProfileExists` |
| `ai.dfy` | `Ai` | `generateAIResponse`, `generateJournalPrompt`, `generateMusicSuggestion` |
| `mood_tracker.dfy` | `MoodTracking` | the mood form: label table, current label, submit |
| `mood_chart.dfy` | `MoodHistory` | the seven-day chart: fetch, day slots, bars, average |
| `chat_interface.dfy` | `Chat` | history load with welcome message, send |
| `journal_editor.dfy` | `JournalEditing` | prompt seeding, create/update submit, the update's effect |
| `journal_list.dfy` | `JournalListing` | list load, delete |
| `music_recommendations.dfy` | `MusicPicks` | stored picks or a fresh round from the latest mood, refresh |
| `nav_bar.dfy` | `Navigation` | which sidebar link is highlighted |

Each of the six components that hold state becomes a class. Its `useState` variables are fields. Each handler is a method whose `modifies` names the state it sets. Its `ensures` gives the new state in every branch: success, auth failure, no user and store error. The navigation bar holds no state; its highlighting rule becomes a predicate with lemmas.

`ensureUserProfileExists` and the three AI gateway functions are pure functions of their inputs and the outside answers. They return the requests they make together with their value (a `Bootstrap` or a `GatewayRun`).

The store's ordering is not recomputed. `Store.Run` takes the table's rows already in the order the query names, then applies the filters and the limit.

Behaviours of the code worth knowing, each stated by a member:

- **Chat history size.** The history query orders ascending with `.limit(50)` (chat-interface.tsx:38-39), so it loads the 50 *oldest* messages. `Chat.HistoryKeepsOldest` proves this.
- **Journal update with no match.** An update that matches no row is reported as a success, since only the store's error is checked (journal-editor.tsx:85, 104). `JournalEditing.UpdateTouchesOnlyTheEntry` shows such an update changes no row.
- **Journal prompt fallback.** The `catch` at journal-editor.tsx:49-51, with its text "What are you thinking about today?", cannot be reached: `generateJournalPrompt` catches every error itself and answers with its own texts (lib/ai.ts:61-64). `JournalEditing.JournalEditor.FetchJournalPrompt` states the prompt shown.
- **New-user profiles.** The comment at lib/db/profiles.ts:24 says a missing profile is created; the condition on line 25 does not create it (see Findings). `Profiles.EnsureUserProfileExists` uses the corrected condition. The condition as written is kept as `Profiles.InsertWanted`.
- **Store error messages.** The model assumes the store client reports errors as plain objects with a `message` property, not as `Error` instances. Under that assumption, where the code rethrows one unwrapped and formats it with `instanceof Error ? message : String(error)`, the user sees "[object Object]" (`Errors.Describe`). The mood form reads the `message` property instead (`Errors.DescribeOrUnknown`).

## Model

| member | source | states |
|---|---|---|
| Text.TrimStartSpec | components/mood-tracker.tsx:57 | trimming the start removes exactly a whitespace prefix and stops at the first other character |
| Text.TrimEndSpec | components/mood-tracker.tsx:57 | trimming the end removes exactly a whitespace suffix and stops at the last other character |
| Text.TrimSpec | components/mood-tracker.tsx:57 | `trim()` yields a slice of the text with only whitespace before and after it, and neither starting nor ending with whitespace |
| Text.TrimEmptyIff | components/chat-interface.tsx:74 | `s.trim()` is empty exactly when `s` is whitespace only |
| Text.TrimIdempotent | components/journal-editor.tsx:77-78 | trimming a trimmed text changes nothing |
| Text.BeforeFirst | lib/db/profiles.ts:31 | `split('@')[0]` is a prefix of the text with no '@', ending at the first '@' or at the end |
| Sequences.FindSpec | components/mood-chart.tsx:69 | `find` yields nothing exactly when no element matches, else the first matching element |
| Sequences.Reverse | components/mood-chart.tsx:62-65 | `reverse()` keeps the length and puts element `i` at position `n-1-i` |
| Store.Where | components/mood-chart.tsx:37-40 | the `.eq` filters keep exactly the rows whose columns match, never more rows than given |
| Store.Run | components/mood-chart.tsx:37-42 | a select returns only matching rows of the table, as a prefix of all matches, and exactly as many of them as there are matches or `limit`, whichever is fewer |
| Store.WhereKeepsOrder | components/journal-list.tsx:40-44 | filtering keeps the order the store sorted the rows in |
| Store.RunKeepsOrder | components/mood-chart.tsx:37-42 | a select's result is sorted in its `.order` direction when the table's rows are |
| Store.OwnerFilter | components/journal-list.tsx:43 | `.eq("user_id", id)` selects exactly the rows that user owns |
| Store.IdAndOwnerFilter | components/journal-list.tsx:75 | `.eq("id", x).eq("user_id", u)` selects exactly row `x`, and only if `u` owns it |
| Profiles.InsertWantedTruthTable | lib/db/profiles.ts:25 | the insert condition holds exactly when the lookup error is not "no rows" and the profile is missing or the lookup failed |
| Profiles.NoRowsSkipsInsert | lib/db/profiles.ts:24-25 | a lookup that finds nothing and reports PGRST116 does not insert |
| Profiles.CorrectedInsertsMissingProfile | lib/db/profiles.ts:24-25 | the intended condition inserts whenever no profile was found and never for a found one; it differs from the written one exactly on a "no rows" miss |
| Profiles.DisplayName | lib/db/profiles.ts:31 | the display name is the email's text before its first '@', or "User" when the email is absent or that text is empty; it is never empty and holds no '@' |
| Profiles.EnsureUserProfileExists | lib/db/profiles.ts:7-48 | an auth error or no user throws before any store request; otherwise the profile is looked up, inserted (with display name and both timestamps) exactly when the corrected condition holds (see Findings), and the user's id is returned unless the insert fails, whose error is rethrown |
| Profiles.NewUserGetsProfile | lib/db/profiles.ts:24-43 | a user whose lookup reports "no rows" gets a profile named after the email, and the id is returned |
| Profiles.FoundProfileIsKept | lib/db/profiles.ts:18-25 | a found profile with no lookup error causes only the lookup and returns the user's id |
| Ai.SystemPrompt | lib/ai.ts:20-25 | the system prompt starts with the persona and continues past it exactly when a non-empty context is given, with "Context about the user: " and the context |
| Ai.GenerateAIResponse | lib/ai.ts:10-39 | unconfigured: the fixed notice and no model call; configured: one call with the prompt as given, the persona system prompt and a 500-token budget, answering with the model's text or the "having trouble" text with the error's description; it never throws |
| Ai.MoodWord | lib/ai.ts:52 | `mood \|\| "reflective"` is the mood when a non-empty one is given, and "reflective" otherwise |
| Ai.GenerateJournalPrompt | lib/ai.ts:42-65 | unconfigured: the fixed question and no call; configured: one call with the instruction naming the mood, no system text and a 100-token budget, answering with the model's text or the error question |
| Ai.AbsentMoodIsReflective | lib/ai.ts:52 | asking without a mood sends the same instruction as asking for "reflective" |
| Ai.FallbackShape | lib/ai.ts:106-110 | the fallback is three tracks, each with a non-empty track, artist and album |
| Ai.FirstIndexOf | lib/ai.ts:95 | the first occurrence of a character, or none exactly when it does not occur |
| Ai.LastIndexOf | lib/ai.ts:95 | the last occurrence of a character, or none exactly when it does not occur |
| Ai.ExtractArraySpec | lib/ai.ts:95 | `/\[.*\]/s` matches exactly when some ']' follows a '[', and the match runs from the first '[' to the last ']' |
| Ai.GreedyExtraction | lib/ai.ts:95 | with no '[' before and no ']' after a bracketed array, the match is the whole array, inner brackets included |
| Ai.GenerateMusicSuggestion | lib/ai.ts:68-119 | unconfigured, a thrown call, no bracketed text, or text that does not parse all yield the three-track fallback; otherwise whatever the text parses to, unchecked (a list of songs, or a list holding a null); configured calls use the mood instruction, the JSON-only system text and a 300-token budget |
| Ai.FallbackIgnoresMood | lib/ai.ts:111-118 | when the call throws or the key is missing, the answer is the fallback whatever the mood |
| Ai.NoArrayFallsBack | lib/ai.ts:95-110 | a reply without a ']' after a '[' yields the fallback whatever the decoder does |
| MoodTracking.TableIsOneToOne | components/mood-tracker.tsx:15-26 | the label table lists scores 1 to 10 in order with ten distinct labels |
| MoodTracking.CurrentMoodIsTotalOnSlider | components/mood-tracker.tsx:37 | each slider value finds exactly its own table entry; any other score finds none |
| MoodTracking.MoodLabelText | components/mood-tracker.tsx:56 | `currentMood?.label \|\| ""` is the score's non-empty label on the slider's range and "" elsewhere |
| MoodTracking.InitialScoreIsOkay | components/mood-tracker.tsx:29 | the form starts at the score labelled "Okay" |
| MoodTracking.NotesValue | components/mood-tracker.tsx:57 | `notes.trim() \|\| null` is null exactly for whitespace-only notes, else the non-empty trimmed notes |
| MoodTracking.PayloadFields | components/mood-tracker.tsx:53-58 | the entry saved for a slider score carries that score's label, and the notes trimmed or null |
| MoodTracking.MoodTracker.constructor | components/mood-tracker.tsx:29-33 | the form starts at score 5 with empty notes, not loading, no error, no success |
| MoodTracking.MoodTracker.SetMoodScore | components/mood-tracker.tsx:114-119 | the slider sets a score in 1..10 |
| MoodTracking.MoodTracker.SetNotes | components/mood-tracker.tsx:131 | typing sets the notes |
| MoodTracking.MoodTracker.HandleSubmit | components/mood-tracker.tsx:40-85 | a failed bootstrap sends nothing; otherwise the user's entry is sent; success clears the notes and reports success, a failure keeps them and shows "Failed to save mood: " with the error's message; loading ends false and the score stays a slider value |
| MoodHistory.Last7Days | components/mood-chart.tsx:62-65 | seven day labels, oldest first, slot `i` being the day `6-i` days before now |
| MoodHistory.ChartData | components/mood-chart.tsx:68-75 | one point per day slot, in the slots' order, labelled with its day; each slot is the point `PointForDay` describes for that day |
| MoodHistory.PointForDay | components/mood-chart.tsx:68-75 | a day without entries shows score 0 and "No data"; otherwise the first entry of that day gives the score and the label (or "No data" for an empty label) |
| MoodHistory.PointShowsLatestOfDay | components/mood-chart.tsx:37-75 | with entries newest first, a day's bar shows an entry of that day at least as recent as every other entry of that day |
| MoodHistory.AverageMood | components/mood-chart.tsx:78-80 | "N/A" exactly when there are no entries, else the sum of scores over their count |
| MoodHistory.AverageBounds | components/mood-chart.tsx:78-80 | scores from the slider give a sum between the count and ten times the count, so the average lies in 1..10 |
| MoodHistory.BarBounds | components/mood-chart.tsx:110-111 | a score 0..10 gives a bar height 0..100%, rising with the score, and a scored bar is more opaque than an empty one |
| MoodHistory.MoodChart.constructor | components/mood-chart.tsx:12-14 | the chart starts loading, with no data and no error |
| MoodHistory.MoodChart.Render | components/mood-chart.tsx:89-124 | loading first, then the error with its message, then the empty notice exactly when there is no data, else the seven bars of `ChartData` over `Last7Days` with the average of `AverageMood` |
| MoodHistory.MoodChart.FetchMoodData | components/mood-chart.tsx:18-56 | an auth error or query error sets "Failed to load mood data: Auth error/Database error: …"; no user only stops loading; otherwise the data is the user's newest seven entries at most, all the user's own |
| MoodHistory.FetchedNewestFirst | components/mood-chart.tsx:37-42 | the fetched entries stay newest first |
| Chat.CanSendIff | components/chat-interface.tsx:74 | a send goes ahead exactly when the input is not whitespace only and no send is running |
| Chat.ChatInterface.constructor | components/chat-interface.tsx:17-20 | no messages, empty input, not loading, initial load pending |
| Chat.ChatInterface.SetInput | components/chat-interface.tsx:161 | typing sets the input |
| Chat.ChatInterface.FetchChatHistory | components/chat-interface.tsx:26-62 | only a signed-in user's history is queried; a query error or no user leaves the messages; an empty history shows and stores the welcome message; the messages shown are 1 to 50 of the user's own |
| Chat.ChatInterface.HandleSendMessage | components/chat-interface.tsx:72-117 | a blank input or a running send changes nothing; without a user nothing is sent and the input is kept; otherwise the typed text and the reply to it are appended and stored in that order, the input is cleared, and the conversation stays the user's own |
| Chat.HistoryOldestFirst | components/chat-interface.tsx:34-39 | the loaded history is oldest first |
| Chat.HistoryKeepsOldest | components/chat-interface.tsx:38-39 | with more than fifty messages, the fifty oldest are loaded |
| Chat.WhereAllPass | components/chat-interface.tsx:37 | when every row is the user's, the owner filter keeps them all |
| JournalEditing.CanSaveIff | components/journal-editor.tsx:59 | a save goes ahead exactly when title and content are not whitespace only and no save is running |
| JournalEditing.UpdateTouchesOnlyTheEntry | components/journal-editor.tsx:74-83 | the update changes title, content and `updated_at` of exactly the entry with that id owned by that user; id, owner, `created_at` and `prompt_used` are kept, and other rows are unchanged |
| JournalEditing.JournalEditor.constructor | components/journal-editor.tsx:23-30 | the form starts with the given title and content (or ""), no prompt, no flags set |
| JournalEditing.JournalEditor.FetchJournalPrompt | components/journal-editor.tsx:42-55 | the prompt shown is the gateway's answer for no mood, and loading ends false |
| JournalEditing.JournalEditor.Mount | components/journal-editor.tsx:36-40 | a prompt is fetched, with its model call, only when creating; editing changes nothing |
| JournalEditing.JournalEditor.SetTitle | components/journal-editor.tsx:152 | typing sets the title |
| JournalEditing.JournalEditor.SetContent | components/journal-editor.tsx:158 | typing sets the content |
| JournalEditing.JournalEditor.HandleSubmit | components/journal-editor.tsx:57-117 | blank fields or a running save change nothing; a failed bootstrap writes nothing and shows its error; editing updates the entry by id and owner, creating inserts with the prompt shown, both with trimmed fields; the store's error decides between success and "Failed to save journal entry: Database error: …" |
| JournalEditing.SavedFieldsAreNotBlank | components/journal-editor.tsx:59-78 | a saved title and content are never empty or whitespace only |
| JournalListing.RemoveIdMembership | components/journal-list.tsx:79 | the filter keeps exactly the entries with another id |
| JournalListing.RemoveAbsentId | components/journal-list.tsx:79 | removing an id no entry has keeps the list |
| JournalListing.RemoveIdAppend | components/journal-list.tsx:79 | filtering distributes over concatenation, so the order is kept |
| JournalListing.RemoveIdIdempotent | components/journal-list.tsx:79 | deleting the same id twice removes nothing more |
| JournalListing.JournalList.constructor | components/journal-list.tsx:14-16 | the list starts empty and loading, without error |
| JournalListing.JournalList.FetchJournalEntries | components/journal-list.tsx:21-58 | an auth or query error sets "Failed to load journal entries: …"; no user only stops loading; otherwise the entries are exactly the user's, in the store's order |
| JournalListing.JournalList.HandleDelete | components/journal-list.tsx:63-84 | declining or no user does nothing; an auth error is alerted; the delete names the entry and its owner; a failure is alerted and keeps the list, a success removes that id and keeps the rest in order |
| MusicPicks.ToRecommendationsKeepsSuggestions | components/music-recommendations.tsx:75-84 | each suggestion becomes one row, in order, owned by the user and tagged with the mood, track and artist kept, a missing album or link stored as "" |
| MusicPicks.GenerationRound | components/music-recommendations.tsx:64-97 | without a user nothing is asked, sent or shown; with one the gateway is asked about the mood; a reply holding a null sends nothing; otherwise one row per suggestion, the user's and tagged with the mood, built from that suggestion as `ToRecommendationsKeepsSuggestions` describes, is sent, and shown exactly when the insert succeeds |
| MusicPicks.FallbackRecommendations | components/music-recommendations.tsx:73-84 | without a key or when the call throws, a signed-in user's round sends the three fallback tracks, tagged with the mood |
| MusicPicks.NullReplyStoresNothing | components/music-recommendations.tsx:75-92 | a reply that parses to a list holding a null makes the mapping throw: nothing is stored and the list shown is kept |
| MusicPicks.MusicRecommendations.constructor | components/music-recommendations.tsx:12-14 | no picks, no latest mood, not loading |
| MusicPicks.MusicRecommendations.GenerateRecommendations | components/music-recommendations.tsx:64-97 | the call made, the rows sent and the list shown are those of `GenerationRound` for the mood; loading ends false |
| MusicPicks.MusicRecommendations.FetchData | components/music-recommendations.tsx:21-62 | no user or a failed mood query does nothing more; the newest mood becomes the latest mood; stored picks (at most three, the user's own) win; without them the round of `GenerationRound` for the latest mood's label is run, with its call, rows and list; with neither nothing changes |
| MusicPicks.MusicRecommendations.HandleRefresh | components/music-recommendations.tsx:99-103 | without a latest mood nothing changes; with one, the call, rows and list shown are those of `GenerationRound` for its label, and loading ends false |
| Navigation.ActiveOnPageAndBelow | components/nav-bar.tsx:39 | a link is active on its own path and every path below it, and never without a path |
| Navigation.SharedPrefixIsNotActive | components/nav-bar.tsx:39 | a path that starts with the href but continues it with a character other than '/' does not activate the link |
| Navigation.SiblingPagesAreNotActive | components/nav-bar.tsx:22-39 | "/chatroom" does not highlight "/chat", nor "/journalist" "/journal" |
| Navigation.BothActive | components/nav-bar.tsx:39 | two links active on one path are equal or one continues the other with "/" |
| Navigation.NavItemsIndependent | components/nav-bar.tsx:21-29 | no two of the seven links share an href or continue one another with "/" |
| Navigation.AtMostOneActive | components/nav-bar.tsx:21-39 | whatever the path, at most one link is highlighted |

## Left out

- I/O, the network, the store and the language model are not executed. Their answers are parameters. `JSON.parse` is a parameter `decode` that yields a list of songs (`Songs`), a list holding a `null` (`NullElement`), or nothing when the text does not parse.
- The model does not check what the hosted model writes, beyond the text returned.
- Clock, `crypto.randomUUID()`, `toISOString()` and `format(…, "MMM dd")` are parameters: `now`, `ids` and `dayOf`. Timestamps are integers that order like their ISO text.
- `subDays` is modelled as stepping back 86 400 000 ms. Daylight-saving days are not modelled.
- React's scheduling, re-rendering, effects' dependency lists and concurrent handlers are not modelled. Each handler runs to completion on the state it started from. The fire-and-forget `generateRecommendations` call in `fetchData` is modelled as running at once.
- `router.refresh`, `router.push`, `setTimeout`, scrolling and the sign-out handler (nav-bar.tsx:15-19) only navigate and are not modelled. So are `console` logging and all markup.
- The `confirm` dialog's answer is a parameter, and the `alert` text is returned.
- The inserts the chat makes (chat-interface.tsx:55, 96, 111) ignore their errors. They are returned as rows, and a failed insert does not change the state.
- MoodHistory.AverageMood: the result is the exact sum and count. The division and `toFixed(1)` (floating point) are not modelled.
- MoodHistory.BarBounds: opacity is stated in twentieths (`0.6 + score/20` is `(12 + score)/20`). Floating point and CSS's clamping of opacity above 1 are not modelled.
- `JSON.parse`'s result: a parsed array whose elements are not `null` but lack `track_name` or `artist_name` (a number, or an object with other keys) gives rows with undefined names in the source. The model's `decode` yields either well-formed songs or a list holding a `null`, so such rows are not modelled.
- Ai.SystemPrompt: states that the context line follows the persona exactly when a context is given. It does not state that the marker text occurs nowhere else in the persona.
- Store.Run: the store's ordering by `created_at` is taken as given (the rows arrive already ordered). Sorting itself is not modelled.
- `null` data with no error is treated like an empty result (`data || []`).
- The emoji shown for a mood and the mood label's lower-casing in the music card header are display-only and not modelled.

## Findings

| source | as written | input that shows it | evidently intended | confidence | as-written member | corrected member |
|---|---|---|---|---|---|---|
| lib/db/profiles.ts:25 | the insert condition is `(!existingProfile && code !== "PGRST116") \|\| (profileError && code !== "PGRST116")`, so it is false whenever the error code is PGRST116 | a signed-in user with no profile row: `.single()` answers no data and error code PGRST116, and no profile is inserted | insert whenever no profile exists, as the comment on line 24 says: `!existingProfile \|\| (profileError && code !== "PGRST116")` | not executed | Profiles.NoRowsSkipsInsert | Profiles.CorrectedInsertsMissingProfile |

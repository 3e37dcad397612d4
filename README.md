# SiteBuilder Chat client core, in Dafny

This project models the client logic of SiteBuilder Chat, an embeddable chat
widget and a full-page chat that talk to an n8n-style webhook. It covers six
parts:

- **Webhook client** (`Api`). One `sendMessage` call posts the request. It
  retries with exponential backoff (2, 4 and 8 seconds) while the webhook
  answers 429. It validates the reply and turns every failure into a
  `ChatError`.
- **Session identity** (`Session`). One UUID-v4 is kept in localStorage. It is
  reused while it is well formed and regenerated otherwise.
- **Remote conversation store** (`Supabase`). The hosted database is modelled
  as two tables of rows, with a per-request error schedule. Every service
  method is a filter, insert, update or delete over those rows, scoped to an
  anonymous user.
- **Full-page chat** (`FullPageChat`). This is a list of conversations saved to
  localStorage, one of them open. It can create, retitle, switch to and delete
  conversations, and it runs the chat turn.
- **Embeddable widget** (`ChatWidget`). It runs the same turn over one message
  list.
- **Markdown detector** (`Markdown`). Its seven regular expressions are stated
  as predicates on strings.

The shared data shapes live in `Types`. The shared turn logic lives in `Turn`:
the 500 ms gate, the welcome message, what one send appends, and the retry
lookup. `Browser` holds the two browser facilities as injected inputs:

- a fallible `localStorage`;
- a random identifier source.

`Query` holds the two query operators the database applies: filter and order by.

How the environment is modelled:

- The network is a sequence of outcomes. The k-th request of a call gets the
  k-th outcome, and an outcome slower than the 30-second abort timer reads as
  an abort.
- Clocks are parameters, in milliseconds.
- Identifiers are drawn in order from `IdGenerator.supply`.
- React state is a class whose fields the handlers update in the order the
  source calls its setters.

## Model

| member | source | states |
|---|---|---|
| Types.Identified | src/components/ChatWidget.tsx:55-59 | a message made from a draft carries the new identifier, and dropping the identifier gives back exactly the draft |
| Types.Take | src/components/FullPageChat.tsx:115 | `substring(0, n)` counts UTF-16 code units: the cut is a prefix of at most `n` code units, the whole string when it fits, and otherwise the next character would not fit |
| Types.Utf16Length | src/components/FullPageChat.tsx:115 | `length` counts one code unit per character of the Basic Multilingual Plane and two per character outside it, so it lies between one and two per character |
| Types.TakeCons | src/components/FullPageChat.tsx:115 | a cut with room for the first character keeps it and cuts the rest in what room remains |
| Types.TakeWithinBmp | src/components/FullPageChat.tsx:115 | in text of the Basic Multilingual Plane the cut keeps exactly the first `n` characters |
| Types.Utf16LengthAstral | src/components/FullPageChat.tsx:115 | text wholly outside the Basic Multilingual Plane is two code units per character long |
| Types.TakeAstral | src/components/FullPageChat.tsx:115 | in such text a cut after `2k` or `2k + 1` code units keeps `k` characters |
| Types.Decimal | src/utils/api.ts:60 | the status is printed as a non-empty run of decimal digits that spells exactly that number |
| Api.Caught | src/utils/api.ts:75-95 | an `Error` becomes a retryable error: an `AbortError` is `timeout` with "Connection lost – retry"; any other `Error` is `network`, with "Network error. Please check your connection." when its message mentions `fetch` and "An unexpected error occurred" otherwise; a thrown `ChatError` is rethrown unchanged |
| Api.Observed | src/utils/api.ts:25-41 | a request is seen to settle only when it settles within the 30 s timer, and then as it settled; a later or missing answer is the timer's `AbortError` |
| Api.Accept | src/utils/api.ts:58-73 | a non-429 response is accepted exactly when it is 2xx with a non-empty string `reply`; a failure the client reports itself is a `server` error; an `Error` thrown here comes only from reading a 2xx body and is never an `AbortError` |
| Api.Final | src/utils/api.ts:58-73 | non-2xx gives `server`, retryable iff status >= 500; success iff 2xx with a non-empty string `reply`, which is passed through; `follow_up` is kept iff it is an array; any other parsed 2xx body gives the non-retryable "Invalid response format"; a rejection gives a retryable `timeout`/`network`; a response that is not 429 never gives `rate_limit` |
| Api.Deliver | src/utils/api.ts:23-96 | once the retry budget is spent no more waits are taken, and a `rate_limit` result comes only after the whole budget of retries |
| Api.DeliverWaits | src/utils/api.ts:45-52 | a chain never retries more often than the retry budget left, and its waits are the doubling backoffs from `2000 * 2^retryCount` on |
| Api.DeliverStopsAtFirstOther | src/utils/api.ts:45-52 | after `k` answers of 429, the first other answer decides the result, after exactly the first `k` backoffs |
| Api.DeliverExhausted | src/utils/api.ts:47-54 | when every request the budget allows gets 429, the result is the non-retryable `rate_limit` error, after all remaining backoffs |
| Api.DeliverNeverUnknown | src/utils/api.ts:75-95 | no failure has kind `unknown`, and the only `rate_limit` failure is the exhausted-retries error |
| Api.BackoffsTotal | src/utils/api.ts:48 | the total wait of `count` retries from `retryCount` is `2000 * (2^(retryCount+count) - 2^retryCount)` |
| Api.BackoffsPrefix | src/utils/api.ts:48 | fewer retries wait a prefix of the waits of more retries |
| Api.FreshCallWaits | src/utils/api.ts:18-21 | a fresh call waits a prefix of 2000, 4000 and 8000 ms (at most 3 retries, so at most 4 requests), totalling `2000 * (2^retries - 1)` |
| Api.WebhookHeadersUnique | src/utils/api.ts:28-34 | the header rules fix the headers completely: two header maps that obey them are equal |
| Api.Backoffs | src/utils/api.ts:48 | `count` retries wait exactly `count` times |
| Api.ApiClient.constructor | src/utils/api.ts:13-16 | the client keeps the URL and token and starts with no retries |
| Api.ApiClient.Headers | src/utils/api.ts:28-34 | Content-Type is always `application/json`; `Authorization: Bearer <token>` is present iff a non-empty token is configured; no other header |
| Api.ApiClient.SendMessage | src/utils/api.ts:18-21 | the retry counter is reset, so the result and waits are those of a fresh chain; at most 3 retries; every request issued is the same POST of the given body to the webhook URL |
| Api.ApiClient.MakeRequest | src/utils/api.ts:23-96 | result and waits are those of the chain from the current retry count; the counter grows by one per wait; one identical request per attempt |
| Session.HexRunWithin | src/utils/session.ts:48 | a `[0-9a-f]{n}` group of the pattern holds exactly when every character in its span is a hexadecimal digit |
| Session.IsValidUUID | src/utils/session.ts:47-50 | an accepted string has 36 characters, version digit 4, a variant digit 8/9/a/b, and a hexadecimal digit at every position but the four dashes |
| Session.ValidHasShape | src/utils/session.ts:47-50 | every accepted string is 36 characters of UUID-v4 shape |
| Session.ShapeIsValid | src/utils/session.ts:47-50 | every 36-character string of UUID-v4 shape (either case, version 4, variant 8/9/a/b) is accepted |
| Session.ValidUUIDIffShape | src/utils/session.ts:47-50 | the validator accepts exactly the UUID-v4 shaped strings |
| Session.Adopted | src/utils/session.ts:19-36 | a stored UUID-v4 is reused; anything else (absent, malformed, or a read that throws) adopts the generated identifier |
| Session.SessionManager.constructor | src/utils/session.ts:11-13 | the session identifier is the adopted one; reuse leaves storage and the generator untouched, otherwise one identifier is drawn and stored when storage is writable |
| Session.SessionManager.GetOrCreateSession | src/utils/session.ts:19-36 | returns the adopted identifier; reuse stores nothing and draws nothing; otherwise one draw, written back when storage is writable |
| Session.SessionManager.SaveSession | src/utils/session.ts:38-45 | the identifier is stored under the session key when storage is writable; a failing write changes nothing and is swallowed |
| Session.SessionManager.ClearSession | src/utils/session.ts:52-60 | the session becomes a newly drawn identifier, which storage holds under the key when writable |
| Query.Where | src/utils/supabase.ts:75 | the filter keeps exactly the rows that satisfy the condition, and nothing else |
| Query.WhereAppend | src/utils/supabase.ts:75 | filtering a concatenation is concatenating the filtered parts, so order is kept |
| Query.WhereCount | src/utils/supabase.ts:138 | a kept row occurs as often as in the table, a dropped one not at all |
| Query.WhereAll | src/utils/supabase.ts:215 | a condition every row meets keeps the whole table |
| Query.WhereNone | src/utils/supabase.ts:215 | a condition no row meets keeps nothing |
| Query.SortedCons | src/utils/supabase.ts:164 | a row with a key no greater than the head of a sorted list can go in front |
| Query.Insert | src/utils/supabase.ts:164 | inserting into a sorted list keeps it sorted and adds exactly that row |
| Query.SortBy | src/utils/supabase.ts:164 | the ordered result is sorted by the key and is a permutation of the input |
| Query.SameMembers | src/utils/supabase.ts:76 | a permutation has the same members |
| Supabase.AdvanceTwice | src/utils/supabase.ts:217-219 | two runs of requests use up the error schedule like one run of both |
| Supabase.OwnConversations | src/utils/supabase.ts:72-76 | the conversation query returns the user's rows, each exactly as often as stored, and no more rows than the table holds |
| Supabase.OwnConversationsScoped | src/utils/supabase.ts:72-76 | the conversation query returns exactly the user's rows, each as often as stored, by `updated_at` descending |
| Supabase.ConversationRows | src/utils/supabase.ts:160-164 | the message query returns the conversation's rows, each exactly as often as stored, and no more rows than the table holds |
| Supabase.ConversationRowsScoped | src/utils/supabase.ts:160-164 | the message query returns exactly the conversation's rows, each as often as stored, by `timestamp` ascending |
| Supabase.AsMessage | src/utils/supabase.ts:168-174 | the snake_case row maps field by field to the camelCase message |
| Supabase.AsMessages | src/utils/supabase.ts:168 | the mapping keeps length and maps each row in place |
| Supabase.Messages | src/utils/supabase.ts:156-174 | every message `getMessages` reads is the mapping of a stored row of that conversation, and there are no more than rows |
| Supabase.MessageRow | src/utils/supabase.ts:185-195 | the inserted row carries the new identifier, the conversation, content, author and timestamp, and `is_markdown` true only for an explicit `true` |
| Supabase.Retitled | src/utils/supabase.ts:112-120 | only the row matching both identifier and user changes, and in it only title, preview and update time |
| Supabase.AnonymousUser | src/utils/supabase.ts:47-57 | a non-empty stored identifier is adopted; otherwise the generated one, only once it is stored; a throwing storage call adopts none |
| Supabase.Backend.constructor | src/utils/supabase.ts:8-25 | the database starts with the given tables, error schedule and clock |
| Supabase.Backend.Answer | src/utils/supabase.ts:78 | each request takes the next outcome off the error schedule |
| Supabase.Backend.SelectConversations | src/utils/supabase.ts:72-78 | a successful select gives the user's rows in order of recency; an error gives none |
| Supabase.Backend.InsertConversation | src/utils/supabase.ts:91-100 | a successful insert appends the row; an error changes nothing |
| Supabase.Backend.UpdateConversation | src/utils/supabase.ts:112-122 | a successful update retitles the matching row; an error changes nothing |
| Supabase.Backend.DeleteConversation | src/utils/supabase.ts:141-147 | a successful delete drops the rows with that identifier and user; an error changes nothing |
| Supabase.Backend.SelectMessages | src/utils/supabase.ts:160-166 | a successful select gives the conversation's rows by timestamp; an error gives none |
| Supabase.Backend.InsertMessage | src/utils/supabase.ts:186-197 | a successful insert appends the row; an error changes nothing |
| Supabase.Backend.DeleteMessages | src/utils/supabase.ts:135-138 | a successful delete drops every message of the conversation; an error changes nothing |
| Supabase.Unsynced | src/utils/supabase.ts:212-215 | the messages sent are exactly the local messages whose identifier is not remote, no more than there are local messages |
| Supabase.SentRows | src/utils/supabase.ts:217-219 | the reference run in which every insert lands: one row per message, the `k`-th being that message's row under the `k`-th identifier drawn |
| Supabase.SentRowsStep | src/utils/supabase.ts:217-219 | the rows of all messages but the first, drawn from the next identifier on, follow the first message's row |
| Supabase.SyncPending | src/utils/supabase.ts:208-215 | one sync sends only local messages, at most all of them |
| Supabase.AddedRows | src/utils/supabase.ts:217-219 | the loop adds at most one row per message |
| Supabase.AddedRowsAllSent | src/utils/supabase.ts:217-219 | with no insert failing, the loop adds exactly the reference rows: one per message, in order, the `k`-th under the `k`-th identifier drawn |
| Supabase.AddedRowsOnlySent | src/utils/supabase.ts:217-219 | whatever the inserts give, every row the loop adds is some message's row under the identifier drawn for it |
| Supabase.SyncedRows | src/utils/supabase.ts:206-221 | a sync keeps every stored row in place and adds only rows of unsynced local messages, at most one per local message, each in the synced conversation; when no insert fails it adds exactly one row per unsynced message, in local order |
| Supabase.AddedRowsFirst | src/utils/supabase.ts:217-219 | sending one more message of the loop appends its row (unless its insert fails) and leaves the remaining rows in step |
| Supabase.ReadBack | src/utils/supabase.ts:156-174 | every stored row of a conversation is read back by `getMessages` |
| Supabase.AddedMessageReadsBack | src/utils/supabase.ts:185-195 | a message stored by `addMessage` reads back with its content, author and timestamp, flag `isMarkdown \|\| false`, and the newly generated identifier |
| Supabase.SyncAfterFailedReadResendsAll | src/utils/supabase.ts:175-177 | when reading the remote messages fails, sync sends every local message |
| Supabase.SyncTwiceDuplicates | src/utils/supabase.ts:211-219 | as written, a second sync of the same local message stores it a second time |
| Supabase.FirstSyncStores | src/utils/supabase.ts:206-219 | a first sync of `local-1` stores it under the generated `row-a` |
| Supabase.SecondSyncStoresAgain | src/utils/supabase.ts:206-219 | with `row-a` stored, a second sync finds no remote `local-1` and stores the message again under `row-b` |
| Supabase.AddedRowsKeepingIds | src/utils/supabase.ts:217-219 | the corrected loop stores each sent message under its own identifier |
| Supabase.ReadFrom | src/utils/supabase.ts:168-174 | every message read back comes from a row of that conversation |
| Supabase.SyncedKeepingIdsHolds | src/utils/supabase.ts:206-221 | after a corrected sync with every request succeeding, every local identifier is remote |
| Supabase.NoneUnsynced | src/utils/supabase.ts:215 | nothing is sent when every local identifier is remote |
| Supabase.SyncKeepingIdsIdempotent | src/utils/supabase.ts:206-221 | corrected, a second sync of the same messages adds nothing |
| Supabase.SupabaseService.constructor | src/utils/supabase.ts:31-45 | enabled exactly when both URL and key are set; disabled means no user and no storage or generator use; enabled adopts the anonymous user |
| Supabase.SupabaseService.InitializeUser | src/utils/supabase.ts:47-57 | adopts the stored or newly stored anonymous identifier; only an empty or absent value draws an identifier and writes it |
| Supabase.SupabaseService.GetConversations | src/utils/supabase.ts:68-84 | `[]` when disabled, without a user, or on error; otherwise the user's conversations as stored before the call, most recent first; an enabled service leaves both tables unchanged, and without a user it also sends no request |
| Supabase.SupabaseService.CreateConversation | src/utils/supabase.ts:86-106 | one row with a new identifier, the user, the title and the preview, whose identifier is returned; `None` and no row when disabled, without a user or on error; the messages table is unchanged |
| Supabase.SupabaseService.UpdateConversation | src/utils/supabase.ts:108-128 | retitles only the user's row with that identifier; `false` and no change when disabled, without a user or on error; the messages table is unchanged |
| Supabase.SupabaseService.DeleteConversation | src/utils/supabase.ts:130-153 | deletes the conversation's messages first, unchecked, then the user's conversation row; the result is the second delete's |
| Supabase.SupabaseService.GetMessages | src/utils/supabase.ts:156-179 | `[]` when disabled or on error; otherwise the conversation's messages by timestamp, tables unchanged, no user needed |
| Supabase.SupabaseService.AddMessage | src/utils/supabase.ts:181-203 | stores the message's row under a new identifier and returns it; `None` when disabled or on error; the conversations table is unchanged |
| Supabase.SupabaseService.SyncConversation | src/utils/supabase.ts:206-226 | `true` exactly when enabled; one `addMessage` per unsynced local message, in local order, whatever the inserts give; the conversations table is unchanged |
| Supabase.SupabaseService.AddEach | src/utils/supabase.ts:217-219 | the loop adds the rows of one `addMessage` call per message, drawing one identifier and one request each; the conversations table is unchanged |
| Turn.WelcomeMessage | src/components/ChatWidget.tsx:45-51 | the greeting is from the assistant and flagged as plain text |
| Turn.Accepts | src/components/ChatWidget.tsx:78 | a send passes the gate exactly when it comes at least 500 ms after the last accepted one |
| Turn.UserDraft | src/components/ChatWidget.tsx:88-93 | the user's message carries the content and send time, is from the user, and has no markdown flag |
| Turn.BotDraft | src/components/ChatWidget.tsx:110-116 | the reply carries the reply text and reply time, is from the assistant, and is flagged as markdown |
| Turn.TurnDrafts | src/components/ChatWidget.tsx:88-116 | an accepted send appends the user's message, then one markdown-flagged reply exactly when the webhook answered |
| Turn.FollowUpsAfter | src/components/ChatWidget.tsx:119-121 | follow-ups are shown only when the reply carries a non-empty list, and then exactly that list |
| Turn.ErrorAfter | src/components/ChatWidget.tsx:123-125 | an error is shown iff the send failed, and it is the client's error |
| Turn.Stamped | src/components/ChatWidget.tsx:55-60 | each appended message gets the next identifier, in order |
| Turn.StampedTurn | src/components/ChatWidget.tsx:93-116 | one send appends the user's message under the first new identifier and, on a reply, the reply under the second |
| Turn.LastUserAt | src/components/ChatWidget.tsx:141 | the reverse `find` stops at the most recent user message, or finds none iff there is no user message |
| Turn.RetryResendsLastSend | src/components/ChatWidget.tsx:139-146 | right after an accepted send, a retry resends that send's content |
| Turn.LastUserAtUnique | src/components/ChatWidget.tsx:141 | a user message with no user message after it is the one retry finds |
| ChatWidget.ChatWidget.constructor | src/components/ChatWidget.tsx:44-53 | after mount the list is exactly the welcome message, with no error, follow-ups or typing |
| ChatWidget.ChatWidget.AddMessage | src/components/ChatWidget.tsx:55-60 | appends exactly one message under a new identifier; earlier messages unchanged |
| ChatWidget.ChatWidget.SendMessage | src/components/ChatWidget.tsx:74-133 | inside 500 ms nothing changes and nothing is sent; otherwise records the time, appends the user's message and the reply, or publishes the error, sets follow-ups only when non-empty, ends not typing, and sends `{session_id, message, timestamp}` |
| ChatWidget.ChatWidget.Exchange | src/components/ChatWidget.tsx:81-132 | an accepted send records the time, appends the user's message and, on a reply, the reply; sets the error or the non-empty follow-ups; ends not typing; every request is the same |
| ChatWidget.ChatWidget.Conclude | src/components/ChatWidget.tsx:109-132 | on a reply, one markdown-flagged message and its follow-ups; on failure, the error and no message; typing off either way |
| ChatWidget.ChatWidget.HandleRetry | src/components/ChatWidget.tsx:139-146 | resends the most recent user message's content with the full state of an accepted send (messages, identifiers drawn, error, follow-ups, typing off, one to four identical requests); nothing when there is none or inside 500 ms |
| FullPageChat.NewConversation | src/components/FullPageChat.tsx:79-91 | a new conversation is titled "New Chat" and holds only the welcome message |
| FullPageChat.Preview | src/components/FullPageChat.tsx:115 | the preview is the text when it fits in 50 UTF-16 code units; otherwise the longest prefix that fits, then "..." |
| FullPageChat.PreviewOfAstralText | src/components/FullPageChat.tsx:115 | a text of more than 25 emoji previews as its first 25 emoji and "...": each emoji takes two of the 50 code units |
| FullPageChat.FirstUserAt | src/components/FullPageChat.tsx:117 | `find` stops at the first user message, or finds none iff there is no user message |
| FullPageChat.Title | src/components/FullPageChat.tsx:117 | the recomputed title always ends in "...": the first user message cut at 30 UTF-16 code units, or "undefined" when there is none, so the "New Chat" fallback never applies |
| FullPageChat.Updated | src/components/FullPageChat.tsx:109-119 | the open entry takes the messages, the last message's preview and timestamp, and a new title only while it is "New Chat" |
| FullPageChat.UpdateAll | src/components/FullPageChat.tsx:108-121 | only the entries with the open identifier change; the order and every other entry are kept |
| FullPageChat.Recorded | src/components/FullPageChat.tsx:105-121 | the list keeps its length and identifiers, and every entry but the open one is unchanged |
| FullPageChat.Find | src/components/FullPageChat.tsx:128 | `find` gives the first entry with that identifier, or none iff no entry has it |
| FullPageChat.Without | src/components/FullPageChat.tsx:139 | no entry left carries the deleted identifier, and the list does not grow |
| FullPageChat.TitleFreezes | src/components/FullPageChat.tsx:117 | once set, a title is never recomputed |
| FullPageChat.FirstUserExtended | src/components/FullPageChat.tsx:117 | appending messages keeps the first user message |
| FullPageChat.UpdatedTwice | src/components/FullPageChat.tsx:105-121 | updating with a list and then its extension is one update with the extension |
| FullPageChat.RecordedTwice | src/components/FullPageChat.tsx:105-125 | the same for the whole list, open conversation or not |
| FullPageChat.TurnRecorded | src/components/FullPageChat.tsx:199-222 | the two writes of one turn (user message, then reply) leave the list as writing both at once |
| FullPageChat.FindSameIds | src/components/FullPageChat.tsx:128 | entries with the same identifiers are found at the same place |
| FullPageChat.FindCons | src/components/FullPageChat.tsx:128 | `find` on a list with one entry in front |
| FullPageChat.FindSurvivesHeadDropped | src/components/FullPageChat.tsx:139 | the step of `FindWithout` when the first entry is deleted |
| FullPageChat.FindSurvivesHeadKept | src/components/FullPageChat.tsx:139 | the step of `FindWithout` when the first entry is kept |
| FullPageChat.FindWithout | src/components/FullPageChat.tsx:139 | deleting one identifier leaves the entry found for any other identifier |
| FullPageChat.DeleteUnknownKeepsList | src/components/FullPageChat.tsx:139 | deleting an identifier no entry has leaves the list unchanged |
| FullPageChat.DeleteRemovesExactly | src/components/FullPageChat.tsx:139 | deleting removes exactly the entries with that identifier and keeps every other as often as it occurs |
| FullPageChat.FullPageChat.constructor | src/components/FullPageChat.tsx:46-62 | a saved list is adopted and its first entry opened; an empty one opens none; without one a first conversation is created; the saved list mirrors the sidebar |
| FullPageChat.FullPageChat.CreateNewConversation | src/components/FullPageChat.tsx:78-103 | prepends a welcome-only "New Chat", saves the list, opens it, clears follow-ups and error |
| FullPageChat.FullPageChat.UpdateCurrentConversation | src/components/FullPageChat.tsx:105-125 | writes the messages into the open entry and saves; nothing changes when no conversation is open |
| FullPageChat.FullPageChat.SwitchConversation | src/components/FullPageChat.tsx:127-135 | opens the first entry with that identifier and clears follow-ups and error; an unknown identifier changes nothing |
| FullPageChat.FullPageChat.DeleteConversation | src/components/FullPageChat.tsx:137-154 | drops that identifier's entries and saves; an open deleted conversation is replaced by the first remaining one, or by a new one when none remain; the open messages stay those of the open entry |
| FullPageChat.FullPageChat.AddMessage | src/components/FullPageChat.tsx:156-166 | appends one message under a new identifier to the open conversation and writes it into the list |
| FullPageChat.FullPageChat.SendMessage | src/components/FullPageChat.tsx:180-239 | as in the widget, with every appended message also written into the open entry and the saved list kept in step |
| FullPageChat.FullPageChat.Exchange | src/components/FullPageChat.tsx:193-238 | an accepted turn appends the user's message and, on a reply, the reply; sets the error or the non-empty follow-ups; ends not typing |
| FullPageChat.FullPageChat.Ask | src/components/FullPageChat.tsx:193-213 | the user's message is appended, typing shown, and the webhook asked once with retries |
| FullPageChat.FullPageChat.Conclude | src/components/FullPageChat.tsx:215-238 | on a reply, one markdown-flagged message and its follow-ups; on failure, the error and no message; typing off either way |
| FullPageChat.FullPageChat.HandleRetry | src/components/FullPageChat.tsx:245-252 | resends the open conversation's most recent user message with the full state of an accepted send: the same conversation stays open, the messages and the list are recorded, one identifier per appended message, one to four identical requests; nothing when there is none or inside 500 ms |
| Markdown.BoldIsItalic | src/utils/markdown.ts:48-49 | every bold match is also an italic match |
| Markdown.Bold | src/utils/markdown.ts:48 | `**` then `**` on one line; the shortest match has 4 characters |
| Markdown.Italic | src/utils/markdown.ts:49 | `*` then `*` on one line; the shortest match has 2 characters |
| Markdown.Code | src/utils/markdown.ts:50 | a backtick then a backtick on one line; the shortest match has 2 characters |
| Markdown.Header | src/utils/markdown.ts:51 | one to six `#` then white space; the shortest match has 2 characters |
| Markdown.ListItem | src/utils/markdown.ts:52 | at a line start, white space, a bullet and white space; the shortest match has 2 characters |
| Markdown.NumberedItem | src/utils/markdown.ts:53 | at a line start, white space, digits, `.` and white space; the shortest match has 3 characters |
| Markdown.Link | src/utils/markdown.ts:54 | `[...]` then `(...)`, each on one line; the shortest match has 4 characters |
| Markdown.IsMarkdown | src/utils/markdown.ts:45-58 | the detector is the disjunction of the seven patterns; no text shorter than 2 characters is markdown |
| Markdown.BoldRedundant | src/utils/markdown.ts:47-57 | the detector gives the same answer without the bold pattern |
| Markdown.PairOnOneLine | src/utils/markdown.ts:49-50 | two `*`, or two backticks, on one line make a text markdown |
| Markdown.HeaderIffHashSpace | src/utils/markdown.ts:51 | the header pattern matches exactly when some `#` is followed by white space, anywhere in the text |
| Markdown.BulletLine | src/utils/markdown.ts:52 | a line whose first non-space character is `*`, `-` or `+` followed by white space makes a text markdown |
| Markdown.NumberedLine | src/utils/markdown.ts:53 | a line whose first non-space characters are digits, `.` and white space makes a text markdown |
| Markdown.LinkOnOneLine | src/utils/markdown.ts:54 | `[...](...)` on one line makes a text markdown |
| Markdown.PlainText | src/utils/markdown.ts:45-58 | a text without any marker character is not markdown |
| Markdown.MidLineDashIgnored | src/utils/markdown.ts:52 | a dash in the middle of a line is no list item |
| Markdown.StarsAcrossLinesIgnored | src/utils/markdown.ts:48-49 | `*` on different lines are no emphasis |
| Markdown.HashesAnywhere | src/utils/markdown.ts:51 | `#` mid-line, and a run of seven `#`, still count as headers |

## Left out

- Concurrency is not modelled. Overlapping `sendMessage` calls share one retry counter. `initializeUser` is not awaited. React handlers read stale closures, and two handlers nest a state update inside another: `deleteConversation` calls `setCurrentConversationId` inside its `setConversations` updater, and `addMessage` calls `updateCurrentConversation` (a `setConversations`) inside its `setCurrentMessages` updater (src/components/FullPageChat.tsx:162-166). Each handler here runs alone, to completion, on the current state.
- Real `fetch`, `AbortController`, `setTimeout` and `Date.now` are not modelled. The network is a sequence of outcomes, and a request slower than 30 s is an abort. Clocks are parameters: one `now` serves for the gate, the user message and the request, and one `repliedAt` for the reply.
- Timestamps are integers in milliseconds. ISO-8601 strings made by `toISOString` order like the instants they denote.
- The `apiClientRef.current` null check is not modelled: the client made by the initialisation effect is always there.
- The debug `console.error`/`console.warn` logging is not modelled.
- Scrolling, screen-reader announcements, rendering and the presentational components are not modelled: ErrorToast, QuickReplyButtons, TypingIndicator, MessageBubble and ChatInput (its debounce lives in a file that is not part of this model).
- `renderMarkdown` and `escapeHtml` (src/utils/markdown.ts:13-43) are not modelled. They call into marked, DOMPurify and the DOM.
- FullPageChat's JSON encoding of the saved list is treated as the identity. Its localStorage calls are taken to succeed: the source does not catch their errors.
- The supabase-js client is not modelled. The database is two in-memory tables. Its `created_at`/`updated_at` defaults come from one fixed clock, and primary-key conflicts are not modelled: an insert fails only when the error schedule says so.
- Rows with equal sort keys come back from the database in an unspecified order. `Query.SortBy` fixes one order, and no lemma depends on that choice.
- `getUserId` is not modelled. It only returns the `userId` field, which the contracts state directly.
- The optional numeric `code` of `ChatError` is not modelled: the client never sets it.
- Generated identifiers are drawn from an injected supply. The model does not assume they are distinct or valid UUIDs.
- The remote/local sync engine, offline fallback and dual write are not modelled. No component calls the remote store, and FullPageChat persists only to localStorage.
- The application shell, configuration defaults, embedding script and the development webhook mock are not modelled.
- Types.Take: a cut that falls between the two code units of a character outside the Basic Multilingual Plane leaves a lone high surrogate in JavaScript. A Dafny string cannot hold one, so the model ends the cut before that character. A title or preview then has one code unit fewer.
- Markdown.PlainText: requires the text to hold no `-`, `+` or `.` anywhere. The source only needs no list marker at the start of a line; `Markdown.MidLineDashIgnored` shows one mid-line case.

## Findings

| source | as written | input that shows it | evidently intended | confidence | as-written member | corrected member |
|---|---|---|---|---|---|---|
| src/utils/supabase.ts:206-219 | `syncConversation` sends every local message whose identifier is not remote, but `addMessage` stores each one under a newly generated identifier, so the local identifier never becomes remote | one local message `local-1` synced twice with every request succeeding: the table ends with two copies of it (`row-a`, `row-b`) | sync is idempotent: a message, once stored, is not sent again | not executed | Supabase.SyncTwiceDuplicates | Supabase.SyncKeepingIdsIdempotent |

// The remote conversation store (src/utils/supabase.ts). The hosted
// database is modelled as two in-memory tables, `conversations` and
// `messages`, together with the outcome of each request it will receive;
// every service method is a filter, insert, update or delete over those
// rows. Without both a URL and a key the service is disabled and every
// operation returns its neutral value without contacting the database.

module Supabase {
  import opened Types
  import opened Browser
  import opened Query

  const UserIdKey := "sitebuilder-user-id"

  /** A row of `conversations`. */
  datatype DbConversation = DbConversation(
    id: string,
    userId: string,
    title: string,
    lastMessage: string,
    createdAt: Instant,
    updatedAt: Instant)

  /** A row of `messages`. */
  datatype DbMessage = DbMessage(
    id: string,
    conversationId: string,
    content: string,
    isUser: bool,
    isMarkdown: bool,
    timestamp: Instant,
    createdAt: Instant)

  /** Two runs of requests use up the schedule like one run of both. */
  lemma AdvanceTwice(failures: seq<bool>, m: nat, n: nat)
    ensures Advance(Advance(failures, m), n) == Advance(failures, m + n)
  {
  }

  /** Whether the next request of a failure schedule reports an error. */
  function NextFails(failures: seq<bool>): bool {
    failures != [] && failures[0]
  }

  /** The failure schedule left after `n` requests. */
  function Advance(failures: seq<bool>, n: nat): seq<bool> {
    if n <= |failures| then failures[n..] else []
  }

  function Owner(userId: string): DbConversation -> bool {
    (c: DbConversation) => c.userId == userId
  }

  function BelongsTo(conversationId: string): DbMessage -> bool {
    (m: DbMessage) => m.conversationId == conversationId
  }

  function Timestamp(m: DbMessage): int {
    m.timestamp
  }

  function Recency(c: DbConversation): int {
    -c.updatedAt
  }

  /** `select * from conversations where user_id = userId order by updated_at desc`. */
  function OwnConversations(rows: seq<DbConversation>, userId: string): (r: seq<DbConversation>)
    ensures multiset(r) == multiset(Where(rows, Owner(userId))) && |r| <= |rows|
  {
    var owned := Where(rows, Owner(userId));
    var r := SortBy(owned, Recency);
    assert |r| == |multiset(r)| == |multiset(owned)| == |owned|;
    r
  }

  /** The conversation query gives exactly the user's rows, each as often as
      stored, most recently updated first. */
  lemma OwnConversationsScoped(rows: seq<DbConversation>, userId: string)
    ensures var r := OwnConversations(rows, userId);
      && (forall i :: 0 <= i < |r| ==> r[i] in rows && r[i].userId == userId)
      && (forall i :: 0 <= i < |rows| && rows[i].userId == userId ==> rows[i] in r)
      && (forall i, j :: 0 <= i < j < |r| ==> r[i].updatedAt >= r[j].updatedAt)
      && multiset(r) == multiset(Where(rows, Owner(userId)))
  {
    var owned := Where(rows, Owner(userId));
    var r := SortBy(owned, Recency);
    SameMembers(r, owned);
    assert forall i :: 0 <= i < |rows| && rows[i].userId == userId ==> Owner(userId)(rows[i]);
    assert forall i, j :: 0 <= i < j < |r| ==> Recency(r[i]) <= Recency(r[j]);
  }

  /** `select * from messages where conversation_id = conversationId order by timestamp`. */
  function ConversationRows(rows: seq<DbMessage>, conversationId: string): (r: seq<DbMessage>)
    ensures multiset(r) == multiset(Where(rows, BelongsTo(conversationId))) && |r| <= |rows|
  {
    var belonging := Where(rows, BelongsTo(conversationId));
    var r := SortBy(belonging, Timestamp);
    assert |r| == |multiset(r)| == |multiset(belonging)| == |belonging|;
    r
  }

  /** The message query gives exactly the conversation's rows, each as often
      as stored, oldest first. */
  lemma ConversationRowsScoped(rows: seq<DbMessage>, conversationId: string)
    ensures var r := ConversationRows(rows, conversationId);
      && (forall i :: 0 <= i < |r| ==> r[i] in rows && r[i].conversationId == conversationId)
      && (forall i :: 0 <= i < |rows| && rows[i].conversationId == conversationId ==> rows[i] in r)
      && (forall i, j :: 0 <= i < j < |r| ==> r[i].timestamp <= r[j].timestamp)
      && multiset(r) == multiset(Where(rows, BelongsTo(conversationId)))
  {
    var belonging := Where(rows, BelongsTo(conversationId));
    var r := SortBy(belonging, Timestamp);
    SameMembers(r, belonging);
    assert forall i :: 0 <= i < |rows| && rows[i].conversationId == conversationId ==> BelongsTo(conversationId)(rows[i]);
    assert forall i, j :: 0 <= i < j < |r| ==> Timestamp(r[i]) <= Timestamp(r[j]);
  }

  /** The snake_case row read back as a camelCase message. */
  function AsMessage(row: DbMessage): (m: ChatMessage)
    ensures m.id == row.id && m.content == row.content && m.timestamp == row.timestamp
    ensures m.isUser == row.isUser && m.isMarkdown == Some(row.isMarkdown)
  {
    ChatMessage(row.id, row.content, row.timestamp, row.isUser, Some(row.isMarkdown))
  }

  function AsMessages(rows: seq<DbMessage>): (ms: seq<ChatMessage>)
    ensures |ms| == |rows|
    ensures forall i :: 0 <= i < |rows| ==> ms[i] == AsMessage(rows[i])
  {
    if rows == [] then [] else [AsMessage(rows[0])] + AsMessages(rows[1..])
  }

  /** What `getMessages` reads from a successful query. */
  function Messages(rows: seq<DbMessage>, conversationId: string): (ms: seq<ChatMessage>)
    ensures |ms| <= |rows|
    ensures forall i :: 0 <= i < |ms| ==>
              exists row :: row in rows && row.conversationId == conversationId && ms[i] == AsMessage(row)
  {
    var found := ConversationRows(rows, conversationId);
    ConversationRowsScoped(rows, conversationId);
    var ms := AsMessages(found);
    assert forall i :: 0 <= i < |ms| ==> found[i] in rows && ms[i] == AsMessage(found[i]);
    ms
  }

  /** JavaScript's `flag || false`. */
  function OrFalse(flag: Option<bool>): bool {
    flag.Some? && flag.value
  }

  /** The row `addMessage` inserts for a message, under a new identifier. */
  function MessageRow(conversationId: string, d: Draft, id: string, createdAt: Instant): (row: DbMessage)
    ensures row.id == id && row.conversationId == conversationId
    ensures row.content == d.content && row.isUser == d.isUser && row.timestamp == d.timestamp
    ensures row.isMarkdown == (d.isMarkdown == Some(true))
  {
    DbMessage(id, conversationId, d.content, d.isUser, OrFalse(d.isMarkdown), d.timestamp, createdAt)
  }

  /** The rows `updateConversation` leaves: only the row with that identifier
      and owner changes, and in it only the title, the preview and the
      update time. */
  function Retitled(rows: seq<DbConversation>, id: string, userId: string, title: string, lastMessage: string, at: Instant)
    : (r: seq<DbConversation>)
    ensures |r| == |rows|
    ensures forall i :: 0 <= i < |rows| && !(rows[i].id == id && rows[i].userId == userId) ==> r[i] == rows[i]
    ensures forall i :: 0 <= i < |rows| && rows[i].id == id && rows[i].userId == userId ==>
              r[i] == DbConversation(id, userId, title, lastMessage, rows[i].createdAt, at)
  {
    if rows == [] then []
    else
      var head := if rows[0].id == id && rows[0].userId == userId
                  then rows[0].(title := title, lastMessage := lastMessage, updatedAt := at)
                  else rows[0];
      [head] + Retitled(rows[1..], id, userId, title, lastMessage, at)
  }

  function OutsideConversation(conversationId: string): DbMessage -> bool {
    (m: DbMessage) => m.conversationId != conversationId
  }

  function NotTheConversation(id: string, userId: string): DbConversation -> bool {
    (c: DbConversation) => !(c.id == id && c.userId == userId)
  }

  /** Whether a start-up has to generate the anonymous identifier: nothing,
      or an empty string, is stored. */
  predicate MustGenerate(stored: StorageRead) {
    stored.Absent? || stored == Found("")
  }

  /** The anonymous user a start-up adopts: the stored identifier if there is
      a non-empty one, otherwise the generated one once it has been stored.
      `None` when a storage call throws: that rejects the (unawaited)
      initialisation before the user is set. */
  function AnonymousUser(stored: StorageRead, writable: bool, generated: string): (u: Option<string>)
    ensures stored.Threw? ==> u == None
    ensures stored.Found? && stored.value != "" ==> u == Some(stored.value)
    ensures MustGenerate(stored) ==> u == (if writable then Some(generated) else None)
  {
    match stored
    case Threw => None
    case Found(v) => if v != "" then Some(v) else if writable then Some(generated) else None
    case Absent => if writable then Some(generated) else None
  }

  /** The hosted database: its two tables, the outcome of the requests it
      will receive (`failures[k]` says whether the k-th next request reports
      an error; past the end every request succeeds), and its clock, which
      fills the `created_at`/`updated_at` defaults. */
  class Backend {
    var conversations: seq<DbConversation>
    var messages: seq<DbMessage>
    var failures: seq<bool>
    const clock: Instant

    constructor (conversations: seq<DbConversation>, messages: seq<DbMessage>, failures: seq<bool>, clock: Instant)
      ensures this.conversations == conversations && this.messages == messages
      ensures this.failures == failures && this.clock == clock
    {
      this.conversations := conversations;
      this.messages := messages;
      this.failures := failures;
      this.clock := clock;
    }

    /** Takes the next request's outcome off the schedule. */
    method Answer() returns (ok: bool)
      modifies this`failures
      ensures ok == !NextFails(old(failures)) && failures == Advance(old(failures), 1)
    {
      ok := !NextFails(failures);
      failures := Advance(failures, 1);
    }

    method SelectConversations(userId: string) returns (rows: Option<seq<DbConversation>>)
      modifies this`failures
      ensures failures == Advance(old(failures), 1)
      ensures rows == if NextFails(old(failures)) then None else Some(OwnConversations(conversations, userId))
    {
      var ok := Answer();
      rows := if ok then Some(OwnConversations(conversations, userId)) else None;
    }

    method InsertConversation(row: DbConversation) returns (ok: bool)
      modifies this`conversations, this`failures
      ensures failures == Advance(old(failures), 1) && ok == !NextFails(old(failures))
      ensures conversations == if ok then old(conversations) + [row] else old(conversations)
    {
      ok := Answer();
      if ok {
        conversations := conversations + [row];
      }
    }

    method UpdateConversation(id: string, userId: string, title: string, lastMessage: string, at: Instant)
      returns (ok: bool)
      modifies this`conversations, this`failures
      ensures failures == Advance(old(failures), 1) && ok == !NextFails(old(failures))
      ensures conversations == if ok then Retitled(old(conversations), id, userId, title, lastMessage, at)
                               else old(conversations)
    {
      ok := Answer();
      if ok {
        conversations := Retitled(conversations, id, userId, title, lastMessage, at);
      }
    }

    method DeleteConversation(id: string, userId: string) returns (ok: bool)
      modifies this`conversations, this`failures
      ensures failures == Advance(old(failures), 1) && ok == !NextFails(old(failures))
      ensures conversations == if ok then Where(old(conversations), NotTheConversation(id, userId))
                               else old(conversations)
    {
      ok := Answer();
      if ok {
        conversations := Where(conversations, NotTheConversation(id, userId));
      }
    }

    method SelectMessages(conversationId: string) returns (rows: Option<seq<DbMessage>>)
      modifies this`failures
      ensures failures == Advance(old(failures), 1)
      ensures rows == if NextFails(old(failures)) then None else Some(ConversationRows(messages, conversationId))
    {
      var ok := Answer();
      rows := if ok then Some(ConversationRows(messages, conversationId)) else None;
    }

    method InsertMessage(row: DbMessage) returns (ok: bool)
      modifies this`messages, this`failures
      ensures failures == Advance(old(failures), 1) && ok == !NextFails(old(failures))
      ensures messages == if ok then old(messages) + [row] else old(messages)
    {
      ok := Answer();
      if ok {
        messages := messages + [row];
      }
    }

    method DeleteMessages(conversationId: string) returns (ok: bool)
      modifies this`messages, this`failures
      ensures failures == Advance(old(failures), 1) && ok == !NextFails(old(failures))
      ensures messages == if ok then Where(old(messages), OutsideConversation(conversationId)) else old(messages)
    {
      ok := Answer();
      if ok {
        messages := Where(messages, OutsideConversation(conversationId));
      }
    }
  }

  /** The identifiers of some messages. */
  function IdsOf(ms: seq<ChatMessage>): set<string> {
    set m | m in ms :: m.id
  }

  function NotAmong(ids: set<string>): ChatMessage -> bool {
    (m: ChatMessage) => m.id !in ids
  }

  /** The local messages `syncConversation` sends: those whose identifier is
      not among the remote ones, in local order. */
  function Unsynced(local: seq<ChatMessage>, remote: seq<ChatMessage>): (pending: seq<ChatMessage>)
    ensures |pending| <= |local|
    ensures forall i :: 0 <= i < |pending| ==> pending[i] in local && pending[i].id !in IdsOf(remote)
    ensures forall i :: 0 <= i < |local| && local[i].id !in IdsOf(remote) ==> local[i] in pending
  {
    var pending := Where(local, NotAmong(IdsOf(remote)));
    assert forall i :: 0 <= i < |local| && local[i].id !in IdsOf(remote) ==> NotAmong(IdsOf(remote))(local[i]);
    pending
  }

  /** The row the `k`-th message of a run of `addMessage` calls is stored
      as: under the `k`-th identifier the run draws. */
  function SentRow(conversationId: string, pending: seq<ChatMessage>, supply: nat -> string, issued: nat,
                   createdAt: Instant, k: nat): DbMessage
    requires k < |pending|
  {
    MessageRow(conversationId, Unidentified(pending[k]), supply(issued + k), createdAt)
  }

  /** The rows a run of `addMessage` calls adds when every insert lands:
      one row per message, in order, each under the identifier drawn for it. */
  function SentRows(conversationId: string, pending: seq<ChatMessage>, supply: nat -> string, issued: nat,
                    createdAt: Instant): (r: seq<DbMessage>)
    ensures |r| == |pending|
    ensures forall k :: 0 <= k < |pending| ==> r[k] == SentRow(conversationId, pending, supply, issued, createdAt, k)
    decreases |pending|
  {
    if pending == [] then []
    else
      var rest := SentRows(conversationId, pending[1..], supply, issued + 1, createdAt);
      SentRowsStep(conversationId, pending, supply, issued, createdAt, rest);
      [SentRow(conversationId, pending, supply, issued, createdAt, 0)] + rest
  }

  /** The rows of the messages after the first, drawn from the next
      identifier on, are the rows of all messages but the first. */
  lemma SentRowsStep(conversationId: string, pending: seq<ChatMessage>, supply: nat -> string, issued: nat,
                     createdAt: Instant, rest: seq<DbMessage>)
    requires pending != [] && |rest| == |pending| - 1
    requires forall j :: 0 <= j < |rest| ==> rest[j] == SentRow(conversationId, pending[1..], supply, issued + 1, createdAt, j)
    ensures var r := [SentRow(conversationId, pending, supply, issued, createdAt, 0)] + rest;
            forall k :: 0 <= k < |pending| ==> r[k] == SentRow(conversationId, pending, supply, issued, createdAt, k)
  {
    var r := [SentRow(conversationId, pending, supply, issued, createdAt, 0)] + rest;
    forall k | 1 <= k < |pending| ensures r[k] == SentRow(conversationId, pending, supply, issued, createdAt, k) {
      assert r[k] == rest[k - 1];
      assert pending[1..][k - 1] == pending[k];
    }
  }

  /** The rows a run of `addMessage` calls adds, one call per message in
      order: each call draws an identifier, and its insert lands unless the
      schedule says that request fails. */
  function AddedRows(conversationId: string, pending: seq<ChatMessage>, failures: seq<bool>,
                     supply: nat -> string, issued: nat, createdAt: Instant): (r: seq<DbMessage>)
    ensures |r| <= |pending|
    decreases |pending|
  {
    if pending == [] then []
    else
      var row := MessageRow(conversationId, Unidentified(pending[0]), supply(issued), createdAt);
      (if NextFails(failures) then [] else [row])
        + AddedRows(conversationId, pending[1..], Advance(failures, 1), supply, issued + 1, createdAt)
  }

  /** With no insert failing, the loop adds exactly the rows of the
      reference run. */
  lemma {:induction false} AddedRowsAllSent(conversationId: string, pending: seq<ChatMessage>, failures: seq<bool>,
                                            supply: nat -> string, issued: nat, createdAt: Instant)
    ensures failures == [] ==>
              AddedRows(conversationId, pending, failures, supply, issued, createdAt)
              == SentRows(conversationId, pending, supply, issued, createdAt)
    decreases |pending|
  {
    if pending != [] && failures == [] {
      assert Advance(failures, 1) == [] && !NextFails(failures);
      AddedRowsAllSent(conversationId, pending[1..], failures, supply, issued + 1, createdAt);
    }
  }

  /** Whatever the inserts give, the loop adds only rows of the reference
      run: each added row is some message's row under the identifier drawn
      for it. */
  lemma {:induction false} AddedRowsOnlySent(conversationId: string, pending: seq<ChatMessage>, failures: seq<bool>,
                                             supply: nat -> string, issued: nat, createdAt: Instant)
    ensures forall row :: row in AddedRows(conversationId, pending, failures, supply, issued, createdAt) ==>
              row in SentRows(conversationId, pending, supply, issued, createdAt)
    decreases |pending|
  {
    if pending != [] {
      var row := MessageRow(conversationId, Unidentified(pending[0]), supply(issued), createdAt);
      var rest := AddedRows(conversationId, pending[1..], Advance(failures, 1), supply, issued + 1, createdAt);
      var sent := SentRows(conversationId, pending[1..], supply, issued + 1, createdAt);
      AddedRowsOnlySent(conversationId, pending[1..], Advance(failures, 1), supply, issued + 1, createdAt);
      assert SentRows(conversationId, pending, supply, issued, createdAt) == [row] + sent;
      var r := AddedRows(conversationId, pending, failures, supply, issued, createdAt);
      assert r == (if NextFails(failures) then [] else [row]) + rest;
      forall x | x in r ensures x in [row] + sent {
        if x != row {
          assert x in rest;
        }
      }
    }
  }

  /** The `messages` table after one `syncConversation` call on an enabled
      service: a read of the remote messages (an error reads as none), then
      one insert per unsynced local message. */
  function SyncedRows(rows: seq<DbMessage>, failures: seq<bool>, conversationId: string, local: seq<ChatMessage>,
                      supply: nat -> string, issued: nat, createdAt: Instant): (r: seq<DbMessage>)
    ensures |rows| <= |r| <= |rows| + |local|
    ensures r[..|rows|] == rows
    ensures forall i :: |rows| <= i < |r| ==> r[i].conversationId == conversationId
    ensures var sent := SentRows(conversationId, SyncPending(rows, failures, conversationId, local), supply, issued, createdAt);
            && (Advance(failures, 1) == [] ==> r == rows + sent)
            && forall i :: |rows| <= i < |r| ==> r[i] in sent
  {
    var added := AddedRows(conversationId, SyncPending(rows, failures, conversationId, local), Advance(failures, 1),
                           supply, issued, createdAt);
    var sent := SentRows(conversationId, SyncPending(rows, failures, conversationId, local), supply, issued, createdAt);
    AddedRowsOnlySent(conversationId, SyncPending(rows, failures, conversationId, local), Advance(failures, 1),
                      supply, issued, createdAt);
    AddedRowsAllSent(conversationId, SyncPending(rows, failures, conversationId, local), Advance(failures, 1),
                     supply, issued, createdAt);
    forall i | |rows| <= i < |rows| + |added|
      ensures (rows + added)[i] in sent && (rows + added)[i].conversationId == conversationId
    {
      assert (rows + added)[i] == added[i - |rows|] && added[i - |rows|] in added;
    }
    rows + AddedRows(conversationId, SyncPending(rows, failures, conversationId, local), Advance(failures, 1),
                     supply, issued, createdAt)
  }

  /** The local messages one `syncConversation` call sends. */
  function SyncPending(rows: seq<DbMessage>, failures: seq<bool>, conversationId: string, local: seq<ChatMessage>)
    : (pending: seq<ChatMessage>)
    ensures |pending| <= |local|
    ensures forall i :: 0 <= i < |pending| ==> pending[i] in local
  {
    Unsynced(local, if NextFails(failures) then [] else Messages(rows, conversationId))
  }

  /** The rows from the `i`-th message on are that message's row, unless
      its request fails, then the rows of the messages after it: one more
      message sent leaves the rows still to come in step. */
  lemma AddedRowsFirst(all: seq<DbMessage>, done: seq<DbMessage>, after: seq<DbMessage>, conversationId: string,
                       pending: seq<ChatMessage>, i: nat, failures: seq<bool>, laterFailures: seq<bool>,
                       supply: nat -> string, issued: nat, laterIssued: nat, createdAt: Instant)
    requires i < |pending|
    requires all == done + AddedRows(conversationId, pending[i..], failures, supply, issued, createdAt)
    requires after == done + (if NextFails(failures) then []
                              else [MessageRow(conversationId, Unidentified(pending[i]), supply(issued), createdAt)])
    requires laterFailures == Advance(failures, 1) && laterIssued == issued + 1
    ensures all == after + AddedRows(conversationId, pending[i + 1..], laterFailures, supply, laterIssued, createdAt)
  {
    var tail := pending[i..];
    assert tail[0] == pending[i] && tail[1..] == pending[i + 1..];
    var first := if NextFails(failures) then []
                 else [MessageRow(conversationId, Unidentified(pending[i]), supply(issued), createdAt)];
    var later := AddedRows(conversationId, pending[i + 1..], Advance(failures, 1), supply, issued + 1, createdAt);
    assert AddedRows(conversationId, tail, failures, supply, issued, createdAt) == first + later;
    assert done + (first + later) == (done + first) + later;
  }

  /** A row of a conversation is read back by `getMessages`, mapped to a message. */
  lemma ReadBack(rows: seq<DbMessage>, row: DbMessage, conversationId: string)
    requires row in rows && row.conversationId == conversationId
    ensures AsMessage(row) in Messages(rows, conversationId)
  {
    var i :| 0 <= i < |rows| && rows[i] == row;
    ConversationRowsScoped(rows, conversationId);
    var r := ConversationRows(rows, conversationId);
    var j :| 0 <= j < |r| && r[j] == row;
    assert Messages(rows, conversationId)[j] == AsMessage(row);
  }

  /** A message stored by `addMessage` is read back by `getMessages` with its
      content, author and timestamp, `isMarkdown || false` as its flag, and
      the identifier `addMessage` generated. */
  lemma AddedMessageReadsBack(rows: seq<DbMessage>, conversationId: string, d: Draft, id: string, createdAt: Instant)
    ensures ChatMessage(id, d.content, d.timestamp, d.isUser, Some(OrFalse(d.isMarkdown)))
              in Messages(rows + [MessageRow(conversationId, d, id, createdAt)], conversationId)
  {
    var row := MessageRow(conversationId, d, id, createdAt);
    assert (rows + [row])[|rows|] == row;
    ReadBack(rows + [row], row, conversationId);
  }

  /** A failed read of the remote messages makes `syncConversation` send
      every local message again. */
  lemma SyncAfterFailedReadResendsAll(local: seq<ChatMessage>)
    ensures Unsynced(local, []) == local
  {
    assert IdsOf([]) == {};
    WhereAll(local, NotAmong({}));
  }

  /** As written, `syncConversation` is not idempotent: run twice over the
      same local message, with every request succeeding, it stores that
      message twice. The first run stores it under the identifier
      `addMessage` generates, so the second run finds no remote message
      carrying the local identifier and sends it again. */
  lemma SyncTwiceDuplicates()
    ensures var m := ChatMessage("local-1", "hi", 0, true, None);
            var supply := (k: nat) => if k == 0 then "row-a" else "row-b";
            var once := SyncedRows([], [], "c", [m], supply, 0, 7);
            var twice := SyncedRows(once, [], "c", [m], supply, 1, 7);
            twice == [DbMessage("row-a", "c", "hi", true, false, 0, 7), DbMessage("row-b", "c", "hi", true, false, 0, 7)]
  {
    var m := ChatMessage("local-1", "hi", 0, true, None);
    var supply := (k: nat) => if k == 0 then "row-a" else "row-b";
    var first := DbMessage("row-a", "c", "hi", true, false, 0, 7);
    FirstSyncStores(m, supply, first);
    SecondSyncStoresAgain(m, supply, first, DbMessage("row-b", "c", "hi", true, false, 0, 7));
  }

  /** The first run of `SyncTwiceDuplicates`: the message is stored under `row-a`. */
  lemma FirstSyncStores(m: ChatMessage, supply: nat -> string, first: DbMessage)
    requires m == ChatMessage("local-1", "hi", 0, true, None) && supply(0) == "row-a"
    requires first == DbMessage("row-a", "c", "hi", true, false, 0, 7)
    ensures SyncedRows([], [], "c", [m], supply, 0, 7) == [first]
  {
    SyncAfterFailedReadResendsAll([m]);
    assert SyncPending([], [], "c", [m]) == [m];
    assert Advance([], 1) == [] && [m][1..] == [];
    assert Unidentified(m) == Draft("hi", 0, true, None);
    assert AddedRows("c", [m], [], supply, 0, 7) == [first];
  }

  /** The second run of `SyncTwiceDuplicates`: the stored row carries
      `row-a`, not `local-1`, so the message is stored again under `row-b`. */
  lemma SecondSyncStoresAgain(m: ChatMessage, supply: nat -> string, first: DbMessage, second: DbMessage)
    requires m == ChatMessage("local-1", "hi", 0, true, None) && supply(1) == "row-b"
    requires first == DbMessage("row-a", "c", "hi", true, false, 0, 7)
    requires second == DbMessage("row-b", "c", "hi", true, false, 0, 7)
    ensures SyncedRows([first], [], "c", [m], supply, 1, 7) == [first, second]
  {
    assert Where([first], BelongsTo("c")) == [first];
    assert ConversationRows([first], "c") == [first];
    assert Messages([first], "c") == [AsMessage(first)];
    assert IdsOf([AsMessage(first)]) == {"row-a"};
    assert Where([m], NotAmong({"row-a"})) == [m];
    assert SyncPending([first], [], "c", [m]) == [m];
    assert Advance([], 1) == [] && [m][1..] == [];
    assert Unidentified(m) == Draft("hi", 0, true, None);
    assert AddedRows("c", [m], [], supply, 1, 7) == [second];
  }


  /** The rows the corrected loop adds: each insert keeps the local
      message's own identifier. */
  function AddedRowsKeepingIds(conversationId: string, pending: seq<ChatMessage>, failures: seq<bool>, createdAt: Instant)
    : (added: seq<DbMessage>)
    ensures failures == [] ==>
              forall i :: 0 <= i < |pending| ==>
                MessageRow(conversationId, Unidentified(pending[i]), pending[i].id, createdAt) in added
    decreases |pending|
  {
    if pending == [] then []
    else
      var row := MessageRow(conversationId, Unidentified(pending[0]), pending[0].id, createdAt);
      var rest := AddedRowsKeepingIds(conversationId, pending[1..], Advance(failures, 1), createdAt);
      assert failures == [] ==> Advance(failures, 1) == [];
      assert forall i :: 1 <= i < |pending| ==> pending[i] == pending[1..][i - 1];
      (if NextFails(failures) then [] else [row]) + rest
  }

  /** The `messages` table after one corrected `syncConversation` call. */
  function SyncedRowsKeepingIds(rows: seq<DbMessage>, failures: seq<bool>, conversationId: string,
                                local: seq<ChatMessage>, createdAt: Instant): seq<DbMessage>
  {
    rows + AddedRowsKeepingIds(conversationId, SyncPending(rows, failures, conversationId, local),
                               Advance(failures, 1), createdAt)
  }

  /** Every message read back for a conversation comes from one of its rows. */
  lemma ReadFrom(rows: seq<DbMessage>, conversationId: string, m: ChatMessage)
    requires m in Messages(rows, conversationId)
    ensures exists row :: row in rows && row.conversationId == conversationId && AsMessage(row) == m
  {
    ConversationRowsScoped(rows, conversationId);
    var r := ConversationRows(rows, conversationId);
    var j :| 0 <= j < |r| && Messages(rows, conversationId)[j] == m;
    assert r[j] in rows && r[j].conversationId == conversationId;
  }

  /** After a corrected sync with every request succeeding, each local
      message's identifier is read back from the conversation. */
  lemma SyncedKeepingIdsHolds(rows: seq<DbMessage>, conversationId: string, local: seq<ChatMessage>,
                              createdAt: Instant, i: nat)
    requires i < |local|
    ensures local[i].id in IdsOf(Messages(SyncedRowsKeepingIds(rows, [], conversationId, local, createdAt), conversationId))
  {
    var pending := SyncPending(rows, [], conversationId, local);
    var added := AddedRowsKeepingIds(conversationId, pending, [], createdAt);
    assert Advance([], 1) == [];
    var once := rows + added;
    assert once == SyncedRowsKeepingIds(rows, [], conversationId, local, createdAt);
    var m := local[i];
    var row: DbMessage;
    if m.id in IdsOf(Messages(rows, conversationId)) {
      var before :| before in Messages(rows, conversationId) && before.id == m.id;
      ReadFrom(rows, conversationId, before);
      row :| row in rows && row.conversationId == conversationId && AsMessage(row) == before;
    } else {
      var j :| 0 <= j < |pending| && pending[j] == m;
      row := MessageRow(conversationId, Unidentified(pending[j]), pending[j].id, createdAt);
    }
    assert row in once;
    ReadBack(once, row, conversationId);
  }

  /** Nothing is unsynced once every local identifier is remote. */
  lemma NoneUnsynced(local: seq<ChatMessage>, remote: seq<ChatMessage>)
    requires forall i :: 0 <= i < |local| ==> local[i].id in IdsOf(remote)
    ensures Unsynced(local, remote) == []
  {
    assert forall i :: 0 <= i < |local| ==> !NotAmong(IdsOf(remote))(local[i]);
    WhereNone(local, NotAmong(IdsOf(remote)));
  }

  /** Corrected, a second sync of the same messages with every request
      succeeding adds nothing: every local identifier is then remote. */
  lemma SyncKeepingIdsIdempotent(rows: seq<DbMessage>, conversationId: string,
                                 local: seq<ChatMessage>, createdAt: Instant)
    ensures var once := SyncedRowsKeepingIds(rows, [], conversationId, local, createdAt);
            SyncedRowsKeepingIds(once, [], conversationId, local, createdAt) == once
  {
    var once := SyncedRowsKeepingIds(rows, [], conversationId, local, createdAt);
    forall i | 0 <= i < |local| ensures local[i].id in IdsOf(Messages(once, conversationId)) {
      SyncedKeepingIdsHolds(rows, conversationId, local, createdAt, i);
    }
    NoneUnsynced(local, Messages(once, conversationId));
    assert SyncPending(once, [], conversationId, local) == [];
  }

  /** `SupabaseService`: the database client (null when unconfigured) and
      the anonymous user the rows are scoped to. */
  class SupabaseService {
    var client: Backend?
    var userId: Option<string>

    /** `initialize`: enabled exactly when both the URL and the key are set,
        and then the anonymous user is looked up or created. */
    constructor (url: string, key: string, backend: Backend, storage: LocalStorage, ids: IdGenerator)
      modifies storage`items, ids`issued
      ensures client == (if url != "" && key != "" then backend else null)
      ensures client == null ==> userId == None && storage.items == old(storage.items) && ids.issued == old(ids.issued)
      ensures client != null ==> userId == AnonymousUser(old(storage.Peek(UserIdKey)), storage.writable, old(ids.Upcoming()))
      ensures client != null && MustGenerate(old(storage.Peek(UserIdKey))) ==>
                ids.issued == old(ids.issued) + 1 &&
                storage.items == if storage.writable then old(storage.items)[UserIdKey := old(ids.Upcoming())]
                                 else old(storage.items)
      ensures client != null && !MustGenerate(old(storage.Peek(UserIdKey))) ==>
                ids.issued == old(ids.issued) && storage.items == old(storage.items)
    {
      client := null;
      userId := None;
      new;
      if url != "" && key != "" {
        client := backend;
        InitializeUser(storage, ids);
      }
    }

    /** `initializeUser`: adopts the stored anonymous identifier, or a new one
        once stored; a storage call that throws leaves the user as it was. */
    method InitializeUser(storage: LocalStorage, ids: IdGenerator)
      modifies this`userId, storage`items, ids`issued
      ensures client == null ==> userId == old(userId)
      ensures client != null ==>
                var u := AnonymousUser(old(storage.Peek(UserIdKey)), storage.writable, old(ids.Upcoming()));
                userId == if u.Some? then u else old(userId)
      ensures client != null && MustGenerate(old(storage.Peek(UserIdKey))) ==>
                ids.issued == old(ids.issued) + 1 &&
                storage.items == if storage.writable then old(storage.items)[UserIdKey := old(ids.Upcoming())]
                                 else old(storage.items)
      ensures !(client != null && MustGenerate(old(storage.Peek(UserIdKey)))) ==>
                ids.issued == old(ids.issued) && storage.items == old(storage.items)
    {
      if client == null {
        return;
      }
      var stored := storage.GetItem(UserIdKey);
      if stored.Threw? {
        return;
      }
      var id: string;
      if stored.Found? && stored.value != "" {
        id := stored.value;
      } else {
        id := ids.Next();
        var ok := storage.SetItem(UserIdKey, id);
        if !ok {
          return;
        }
      }
      userId := Some(id);
    }

    function IsEnabled(): bool
      reads this
    {
      client != null
    }

    /** The `!this.userId` guard, negated. */
    function HasUser(): bool
      reads this
    {
      userId.Some? && userId.value != ""
    }

    /** `getConversations`: the current user's rows, most recently updated
        first; `[]` when disabled, without a user, or on an error. */
    method GetConversations() returns (rows: seq<DbConversation>)
      modifies client
      ensures !IsEnabled() || !HasUser() ==> rows == []
      ensures IsEnabled() ==> client.conversations == old(client.conversations) && client.messages == old(client.messages)
      ensures IsEnabled() && !HasUser() ==> client.failures == old(client.failures)
      ensures IsEnabled() && HasUser() ==>
                client.failures == Advance(old(client.failures), 1) &&
                rows == if NextFails(old(client.failures)) then [] else OwnConversations(old(client.conversations), userId.value)
    {
      if client == null || !HasUser() {
        return [];
      }
      var result := client.SelectConversations(userId.value);
      rows := if result.Some? then result.value else [];
    }

    /** `createConversation`: one new row owned by the current user under a
        new identifier, which is returned; `None` when disabled, without a
        user, or on an error. */
    method CreateConversation(title: string, lastMessage: string, ids: IdGenerator) returns (id: Option<string>)
      modifies client, ids`issued
      ensures !IsEnabled() || !HasUser() ==> id == None && ids.issued == old(ids.issued)
      ensures IsEnabled() && !HasUser() ==> unchanged(client)
      ensures IsEnabled() && HasUser() ==>
                var row := DbConversation(old(ids.Upcoming()), userId.value, title, lastMessage, client.clock, client.clock);
                && ids.issued == old(ids.issued) + 1
                && client.failures == Advance(old(client.failures), 1)
                && id == (if NextFails(old(client.failures)) then None else Some(row.id))
                && client.conversations == (if id.Some? then old(client.conversations) + [row] else old(client.conversations))
                && client.messages == old(client.messages)
    {
      if client == null || !HasUser() {
        return None;
      }
      var conversationId := ids.Next();
      var ok := client.InsertConversation(DbConversation(conversationId, userId.value, title, lastMessage, client.clock, client.clock));
      id := if ok then Some(conversationId) else None;
    }

    /** `updateConversation`: retitles the current user's row with that
        identifier; `false` when disabled, without a user, or on an error. */
    method UpdateConversation(conversationId: string, title: string, lastMessage: string, now: Instant) returns (ok: bool)
      modifies client
      ensures !IsEnabled() || !HasUser() ==> !ok
      ensures IsEnabled() && !HasUser() ==> unchanged(client)
      ensures IsEnabled() && HasUser() ==>
                && client.failures == Advance(old(client.failures), 1)
                && ok == !NextFails(old(client.failures))
                && client.conversations ==
                     (if ok then Retitled(old(client.conversations), conversationId, userId.value, title, lastMessage, now)
                      else old(client.conversations))
                && client.messages == old(client.messages)
    {
      if client == null || !HasUser() {
        return false;
      }
      ok := client.UpdateConversation(conversationId, userId.value, title, lastMessage, now);
    }

    /** `deleteConversation`: first the conversation's messages (whoever owns
        them, and whether or not that delete fails), then the current user's
        conversation row; the result is the second delete's. */
    method DeleteConversation(conversationId: string) returns (ok: bool)
      modifies client
      ensures !IsEnabled() || !HasUser() ==> !ok
      ensures IsEnabled() && !HasUser() ==> unchanged(client)
      ensures IsEnabled() && HasUser() ==>
                && client.failures == Advance(old(client.failures), 2)
                && client.messages == (if NextFails(old(client.failures)) then old(client.messages)
                                       else Where(old(client.messages), OutsideConversation(conversationId)))
                && ok == !NextFails(Advance(old(client.failures), 1))
                && client.conversations ==
                     if ok then Where(old(client.conversations), NotTheConversation(conversationId, userId.value))
                     else old(client.conversations)
    {
      if client == null || !HasUser() {
        return false;
      }
      var _ := client.DeleteMessages(conversationId);
      ok := client.DeleteConversation(conversationId, userId.value);
    }

    /** `getMessages`: the conversation's messages by ascending timestamp,
        whoever owns it; `[]` when disabled or on an error. No user is needed. */
    method GetMessages(conversationId: string) returns (ms: seq<ChatMessage>)
      modifies client
      ensures !IsEnabled() ==> ms == []
      ensures IsEnabled() ==>
                && client.failures == Advance(old(client.failures), 1)
                && client.messages == old(client.messages) && client.conversations == old(client.conversations)
                && ms == if NextFails(old(client.failures)) then [] else Messages(client.messages, conversationId)
    {
      if client == null {
        return [];
      }
      var rows := client.SelectMessages(conversationId);
      ms := if rows.Some? then AsMessages(rows.value) else [];
    }

    /** `addMessage`: stores the message under a new identifier, which is
        returned; `None` when disabled or on an error. No user is needed. */
    method AddMessage(conversationId: string, message: Draft, ids: IdGenerator) returns (id: Option<string>)
      modifies client, ids`issued
      ensures !IsEnabled() ==> id == None && ids.issued == old(ids.issued)
      ensures IsEnabled() ==>
                var row := MessageRow(conversationId, message, old(ids.Upcoming()), client.clock);
                && ids.issued == old(ids.issued) + 1
                && client.failures == Advance(old(client.failures), 1)
                && id == (if NextFails(old(client.failures)) then None else Some(row.id))
                && client.messages == old(client.messages) + (if NextFails(old(client.failures)) then [] else [row])
                && client.conversations == old(client.conversations)
    {
      if client == null {
        return None;
      }
      var messageId := ids.Next();
      var ok := client.InsertMessage(MessageRow(conversationId, message, messageId, client.clock));
      id := if ok then Some(messageId) else None;
    }

    /** `syncConversation`: reads the remote messages, then calls `addMessage`
        once per local message whose identifier is not among them, in local
        order; `true` whenever enabled, whatever the inserts gave. */
    method SyncConversation(conversationId: string, local: seq<ChatMessage>, ids: IdGenerator) returns (ok: bool)
      modifies client, ids`issued
      ensures ok == IsEnabled()
      ensures !IsEnabled() ==> ids.issued == old(ids.issued)
      ensures IsEnabled() ==>
                && client.messages == SyncedRows(old(client.messages), old(client.failures), conversationId, local,
                                                 ids.supply, old(ids.issued), client.clock)
                && ids.issued == old(ids.issued) + |SyncPending(old(client.messages), old(client.failures), conversationId, local)|
                && client.failures == Advance(old(client.failures),
                                              1 + |SyncPending(old(client.messages), old(client.failures), conversationId, local)|)
                && client.conversations == old(client.conversations)
    {
      if client == null {
        return false;
      }
      ghost var rows0, failures0 := client.messages, client.failures;
      var existing := GetMessages(conversationId);
      var pending := Unsynced(local, existing);
      assert pending == SyncPending(rows0, failures0, conversationId, local);
      AddEach(conversationId, pending, ids);
      AdvanceTwice(failures0, 1, |pending|);
      ok := true;
    }

    /** The `for ... of` loop of `syncConversation`: one `addMessage` per message. */
    method AddEach(conversationId: string, pending: seq<ChatMessage>, ids: IdGenerator)
      requires IsEnabled()
      modifies client, ids`issued
      ensures client.messages == old(client.messages) +
                AddedRows(conversationId, pending, old(client.failures), ids.supply, old(ids.issued), client.clock)
      ensures ids.issued == old(ids.issued) + |pending|
      ensures client.failures == Advance(old(client.failures), |pending|)
      ensures client.conversations == old(client.conversations)
    {
      ghost var rows0, failures0, issued0 := client.messages, client.failures, ids.issued;
      ghost var all := rows0 + AddedRows(conversationId, pending, failures0, ids.supply, issued0, client.clock);
      assert pending[0..] == pending;
      var i := 0;
      while i < |pending|
        invariant 0 <= i <= |pending|
        invariant ids.issued == issued0 + i
        invariant client.failures == Advance(failures0, i)
        invariant client.conversations == old(client.conversations)
        invariant all == client.messages + AddedRows(conversationId, pending[i..], client.failures, ids.supply, ids.issued, client.clock)
      {
        ghost var done, now, drawn := client.messages, client.failures, ids.issued;
        var _ := AddMessage(conversationId, Unidentified(pending[i]), ids);
        AddedRowsFirst(all, done, client.messages, conversationId, pending, i, now, client.failures,
                       ids.supply, drawn, ids.issued, client.clock);
        AdvanceTwice(failures0, i, 1);
        i := i + 1;
      }
    }
  }
}

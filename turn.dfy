// What the two chat components (src/components/ChatWidget.tsx and
// src/components/FullPageChat.tsx) share: the welcome message, the 500 ms
// gate on sends, the messages and follow-ups one accepted send produces from
// the webhook's answer, and the retry lookup of the most recent user message.

module Turn {
  import opened Types

  /** Sends closer than this many milliseconds to the last accepted one are dropped. */
  const SendInterval: int := 500

  const WelcomeText := "Hello! I'm SiteBuilder, your AI assistant. How can I help you build your website today?"

  /** Whether a send at `now` passes the gate: the source drops it when
      `now - lastMessageTime < 500`. */
  predicate Accepts(now: Instant, lastMessageTime: Instant)
    ensures Accepts(now, lastMessageTime) <==> now >= lastMessageTime + SendInterval
  {
    !(now - lastMessageTime < SendInterval)
  }

  /** The greeting every new chat starts with: from the assistant, plain text. */
  function WelcomeMessage(id: string, at: Instant): (m: ChatMessage)
    ensures m.id == id && m.timestamp == at && m.content == WelcomeText
    ensures !m.isUser && m.isMarkdown == Some(false)
  {
    ChatMessage(id, WelcomeText, at, false, Some(false))
  }

  /** The user's message of a send; it carries no markdown flag. */
  function UserDraft(content: string, at: Instant): (d: Draft)
    ensures d.isUser && d.isMarkdown.None?
    ensures d.content == content && d.timestamp == at
  {
    Draft(content, at, true, None)
  }

  /** The assistant's reply, always flagged as markdown. */
  function BotDraft(reply: string, at: Instant): (d: Draft)
    ensures !d.isUser && d.isMarkdown == Some(true)
    ensures d.content == reply && d.timestamp == at
  {
    Draft(reply, at, false, Some(true))
  }

  /** The messages an accepted send appends, in order: the user's message,
      then the reply exactly when the webhook answered. */
  function TurnDrafts(content: string, sentAt: Instant, repliedAt: Instant,
                      result: Result<WebhookResponse, ChatError>): (ds: seq<Draft>)
    ensures 1 <= |ds| <= 2 && ds[0] == UserDraft(content, sentAt)
    ensures |ds| == 2 <==> result.Ok?
    ensures result.Ok? ==> ds[1] == BotDraft(result.value.reply, repliedAt)
    ensures forall i :: 0 <= i < |ds| ==> (ds[i].isUser <==> i == 0)
  {
    [UserDraft(content, sentAt)] + if result.Ok? then [BotDraft(result.value.reply, repliedAt)] else []
  }

  /** The follow-up suggestions shown after a send: the webhook's list when it
      sent a non-empty one, otherwise none (they were cleared before the send). */
  function FollowUpsAfter(result: Result<WebhookResponse, ChatError>): (f: seq<string>)
    ensures f != [] ==> result.Ok? && result.value.followUp == Some(f)
    ensures result.Ok? && result.value.followUp.Some? ==> f == result.value.followUp.value
    ensures result.Err? ==> f == []
  {
    if result.Ok? && result.value.followUp.Some? && |result.value.followUp.value| > 0
    then result.value.followUp.value
    else []
  }

  /** The error shown after a send: the client's error on failure, none on success. */
  function ErrorAfter(result: Result<WebhookResponse, ChatError>): (e: Option<ChatError>)
    ensures e.Some? <==> result.Err?
    ensures e.Some? ==> e.value == result.error
  {
    if result.Err? then Some(result.error) else None
  }

  /** Drafts given identifiers in order, the k-th draft getting the k-th
      identifier the generator hands out from `issued` on. */
  function Stamped(ds: seq<Draft>, supply: nat -> string, issued: nat): (ms: seq<ChatMessage>)
    ensures |ms| == |ds|
    ensures forall i :: 0 <= i < |ds| ==> ms[i] == Identified(ds[i], supply(issued + i))
    decreases |ds|
  {
    if ds == [] then []
    else [Identified(ds[0], supply(issued))] + Stamped(ds[1..], supply, issued + 1)
  }

  /** The messages one send appends, identifiers drawn in order. */
  lemma StampedTurn(content: string, sentAt: Instant, repliedAt: Instant,
                    result: Result<WebhookResponse, ChatError>, supply: nat -> string, issued: nat)
    ensures Stamped(TurnDrafts(content, sentAt, repliedAt, result), supply, issued) ==
            [Identified(UserDraft(content, sentAt), supply(issued))] +
            if result.Ok? then [Identified(BotDraft(result.value.reply, repliedAt), supply(issued + 1))] else []
  {
  }

  /** Where `[...messages].reverse().find(m => m.isUser)` stops: the index of
      the most recent user message, if any. */
  function LastUserAt(ms: seq<ChatMessage>): (r: Option<nat>)
    ensures r.None? <==> forall i :: 0 <= i < |ms| ==> !ms[i].isUser
    ensures r.Some? ==> r.value < |ms| && ms[r.value].isUser
    ensures r.Some? ==> forall j :: r.value < j < |ms| ==> !ms[j].isUser
    decreases |ms|
  {
    if ms == [] then None
    else if ms[|ms| - 1].isUser then Some(|ms| - 1)
    else
      var earlier := LastUserAt(ms[..|ms| - 1]);
      assert forall i :: 0 <= i < |ms| - 1 ==> ms[..|ms| - 1][i] == ms[i];
      earlier
  }

  /** A send that was just accepted is what a retry sends again: the user's
      message is the most recent one from the user, whatever reply follows. */
  lemma {:induction false} RetryResendsLastSend(before: seq<ChatMessage>, content: string, sentAt: Instant,
                                                repliedAt: Instant, result: Result<WebhookResponse, ChatError>,
                                                supply: nat -> string, issued: nat)
    ensures var after := before + Stamped(TurnDrafts(content, sentAt, repliedAt, result), supply, issued);
            LastUserAt(after) == Some(|before|) && after[|before|].content == content
  {
    var added := Stamped(TurnDrafts(content, sentAt, repliedAt, result), supply, issued);
    var after := before + added;
    assert after[|before|] == added[0];
    forall j | |before| < j < |after| ensures !after[j].isUser {
      assert after[j] == added[j - |before|];
    }
    LastUserAtUnique(after, |before|);
  }

  /** The most recent user message is the only index with its two defining
      properties. */
  lemma LastUserAtUnique(ms: seq<ChatMessage>, k: nat)
    requires k < |ms| && ms[k].isUser
    requires forall j :: k < j < |ms| ==> !ms[j].isUser
    ensures LastUserAt(ms) == Some(k)
  {
  }
}

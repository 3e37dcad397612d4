// The embeddable chat widget (src/components/ChatWidget.tsx): one message
// list that starts with the welcome message, and a send that passes the
// 500 ms gate, appends the user's message, asks the webhook and appends its
// reply or shows its error. The React state setters become field updates,
// applied in the order the handler runs them.

module ChatWidget {
  import opened Types
  import opened Browser
  import opened Api
  import opened Session
  import opened Turn

  class ChatWidget {
    var messages: seq<ChatMessage>
    var isTyping: bool
    var error: Option<ChatError>
    var followUps: seq<string>
    var lastMessageTime: Instant
    /** The client the initialisation effect makes from the configuration. */
    const api: ApiClient
    /** The page's session manager singleton. */
    const session: SessionManager

    /** The state initialisers followed by the mount effect, which replaces
        the empty list with the welcome message. */
    constructor (api: ApiClient, session: SessionManager, ids: IdGenerator, now: Instant)
      modifies ids`issued
      ensures this.api == api && this.session == session
      ensures messages == [WelcomeMessage(ids.supply(old(ids.issued)), now)]
      ensures !isTyping && error == None && followUps == [] && lastMessageTime == 0
      ensures ids.issued == old(ids.issued) + 1
    {
      this.api := api;
      this.session := session;
      messages := [];
      isTyping := false;
      error := None;
      followUps := [];
      lastMessageTime := 0;
      new;
      var id := ids.Next();
      messages := [WelcomeMessage(id, now)];
    }

    /** `addMessage`: appends the message under a new identifier; nothing
        before it changes. */
    method AddMessage(message: Draft, ids: IdGenerator)
      modifies this`messages, ids`issued
      ensures messages == old(messages) + [Identified(message, ids.supply(old(ids.issued)))]
      ensures ids.issued == old(ids.issued) + 1
    {
      var id := ids.Next();
      messages := messages + [Identified(message, id)];
    }

    /** `sendMessage`. A send inside the 500 ms window changes nothing and
        issues no request. An accepted one records `now`, appends the user's
        message, sends `{session_id, message, timestamp}` through the client
        (`requests` are the HTTP requests it issues, all the same), then
        appends the reply or shows the error, and ends with the typing
        indicator off. `now` is the send's clock reading and `repliedAt` the
        reply's. */
    method SendMessage(content: string, now: Instant, repliedAt: Instant, network: seq<Outcome>, ids: IdGenerator)
      returns (requests: seq<HttpRequest>)
      modifies this, api, ids`issued
      ensures !Accepts(now, old(lastMessageTime)) ==>
                requests == [] && unchanged(this, api) && ids.issued == old(ids.issued)
      ensures Accepts(now, old(lastMessageTime)) ==>
                var result := Deliver(network, 0).result;
                var appended := TurnDrafts(content, now, repliedAt, result);
                && lastMessageTime == now
                && messages == old(messages) + Stamped(appended, ids.supply, old(ids.issued))
                && ids.issued == old(ids.issued) + |appended|
                && error == ErrorAfter(result)
                && followUps == FollowUpsAfter(result)
                && !isTyping
                && 1 <= |requests| <= 1 + MaxRetries
                && requests[0].body == WebhookRequest(session.GetSessionId(), content, now)
                && forall k :: 0 <= k < |requests| ==> requests[k] == requests[0]
    {
      if now - lastMessageTime < SendInterval {
        return [];
      }
      requests := Exchange(content, now, repliedAt, network, ids);
    }

    /** An accepted `sendMessage`, from recording `now` on. */
    method Exchange(content: string, now: Instant, repliedAt: Instant, network: seq<Outcome>, ids: IdGenerator)
      returns (requests: seq<HttpRequest>)
      modifies this, api, ids`issued
      ensures var result := Deliver(network, 0).result;
              var appended := TurnDrafts(content, now, repliedAt, result);
              && lastMessageTime == now
              && messages == old(messages) + Stamped(appended, ids.supply, old(ids.issued))
              && ids.issued == old(ids.issued) + |appended|
              && error == ErrorAfter(result)
              && followUps == FollowUpsAfter(result)
              && !isTyping
              && 1 <= |requests| <= 1 + MaxRetries
              && requests[0].body == WebhookRequest(session.GetSessionId(), content, now)
              && forall k :: 0 <= k < |requests| ==> requests[k] == requests[0]
    {
      lastMessageTime := now;
      error := None;
      followUps := [];
      ghost var before, issued0 := messages, ids.issued;
      AddMessage(UserDraft(content, now), ids);
      isTyping := true;
      var result, delays;
      result, delays, requests := api.SendMessage(WebhookRequest(session.sessionId, content, now), network);
      Conclude(result, repliedAt, ids);
      StampedTurn(content, now, repliedAt, result, ids.supply, issued0);
    }

    /** The part of `sendMessage` after the webhook has answered, with the
        error and follow-ups cleared before the send: the reply and its
        follow-ups, or the error, then the typing indicator off. */
    method Conclude(result: Result<WebhookResponse, ChatError>, repliedAt: Instant, ids: IdGenerator)
      requires error == None && followUps == []
      modifies this`messages, this`followUps, this`error, this`isTyping, ids`issued
      ensures result.Err? ==> messages == old(messages) && ids.issued == old(ids.issued)
      ensures result.Ok? ==>
                && messages == old(messages) + [Identified(BotDraft(result.value.reply, repliedAt), ids.supply(old(ids.issued)))]
                && ids.issued == old(ids.issued) + 1
      ensures error == ErrorAfter(result) && followUps == FollowUpsAfter(result) && !isTyping
    {
      if result.Ok? {
        AddMessage(BotDraft(result.value.reply, repliedAt), ids);
        if result.value.followUp.Some? && |result.value.followUp.value| > 0 {
          followUps := result.value.followUp.value;
        }
      } else {
        error := Some(result.error);
      }
      isTyping := false;
    }

    /** `handleRetry`: sends the most recent user message's content again;
        nothing happens when the list holds no user message. */
    method HandleRetry(now: Instant, repliedAt: Instant, network: seq<Outcome>, ids: IdGenerator)
      returns (requests: seq<HttpRequest>)
      modifies this, api, ids`issued
      ensures LastUserAt(old(messages)).None? || !Accepts(now, old(lastMessageTime)) ==>
                requests == [] && unchanged(this, api) && ids.issued == old(ids.issued)
      ensures LastUserAt(old(messages)).Some? && Accepts(now, old(lastMessageTime)) ==>
                var content := old(messages)[LastUserAt(old(messages)).value].content;
                var result := Deliver(network, 0).result;
                var appended := TurnDrafts(content, now, repliedAt, result);
                && lastMessageTime == now
                && messages == old(messages) + Stamped(appended, ids.supply, old(ids.issued))
                && ids.issued == old(ids.issued) + |appended|
                && error == ErrorAfter(result) && followUps == FollowUpsAfter(result) && !isTyping
                && 1 <= |requests| <= 1 + MaxRetries
                && requests[0].body == WebhookRequest(session.GetSessionId(), content, now)
                && forall k :: 0 <= k < |requests| ==> requests[k] == requests[0]
    {
      requests := [];
      if |messages| > 0 {
        var last := LastUserAt(messages);
        if last.Some? {
          requests := SendMessage(messages[last.value].content, now, repliedAt, network, ids);
        }
      }
    }
  }
}

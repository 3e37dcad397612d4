// The full-page chat (src/components/FullPageChat.tsx): a list of
// conversations kept in localStorage, one of them open. The list transforms
// (prepend, retitle-by-`map`, `filter`, `find`) are functions; the handlers
// are methods of a class whose fields are the component's state, updated in
// the order the handlers call their setters.

module FullPageChat {
  import opened Types
  import opened Browser
  import opened Api
  import opened Session
  import opened Query
  import opened Turn

  const NewChatTitle := "New Chat"
  const WelcomePreview := "Hello! I'm SiteBuilder..."
  /** The preview keeps this many UTF-16 code units of the last message. */
  const PreviewLength: nat := 50
  /** The title keeps this many UTF-16 code units of the first user message. */
  const TitleLength: nat := 30
  /** The localStorage key the list is saved under. */
  const ConversationsKey := "sitebuilder-conversations"

  /** A conversation of the sidebar. */
  datatype Conversation = Conversation(
    id: string,
    title: string,
    messages: seq<ChatMessage>,
    lastMessage: string,
    timestamp: Instant)

  /** The conversation `createNewConversation` makes: titled "New Chat",
      holding only the welcome message. */
  function NewConversation(id: string, messageId: string, at: Instant): (c: Conversation)
    ensures c.id == id && c.title == NewChatTitle && c.timestamp == at
    ensures c.messages == [WelcomeMessage(messageId, at)] && c.lastMessage == WelcomePreview
  {
    Conversation(id, NewChatTitle, [WelcomeMessage(messageId, at)], WelcomePreview, at)
  }

  /** The sidebar preview of a message: its first 50 UTF-16 code units, with
      "..." added only when something was cut off. */
  function Preview(content: string): (p: string)
    ensures Utf16Length(content) <= PreviewLength ==> p == content
    ensures Utf16Length(content) > PreviewLength ==>
              && |p| >= 3 && p[|p| - 3..] == "..."
              && var cut := p[..|p| - 3];
                 && cut < content && Utf16Length(cut) <= PreviewLength
                 && Utf16Length(cut) + CodeUnits(content[|cut|]) > PreviewLength
  {
    var cut := Take(content, PreviewLength);
    var p := cut + if Utf16Length(content) > PreviewLength then "..." else "";
    assert Utf16Length(content) > PreviewLength ==> p[..|p| - 3] == cut && cut != content && |cut| < |content|;
    p
  }

  /** A message of more than 25 emoji outside the Basic Multilingual Plane
      is previewed as its first 25 and "...": each takes two of the 50 code
      units. */
  lemma PreviewOfAstralText(content: string)
    requires forall i :: 0 <= i < |content| ==> CodeUnits(content[i]) == 2
    requires |content| > 25
    ensures Preview(content) == content[..25] + "..."
  {
    Utf16LengthAstral(content);
    TakeAstral(content, PreviewLength, 25);
  }

  /** Where `messages.find(m => m.isUser)` stops: the first user message. */
  function FirstUserAt(ms: seq<ChatMessage>): (r: Option<nat>)
    ensures r.None? <==> forall i :: 0 <= i < |ms| ==> !ms[i].isUser
    ensures r.Some? ==> r.value < |ms| && ms[r.value].isUser
    ensures r.Some? ==> forall j :: 0 <= j < r.value ==> !ms[j].isUser
    decreases |ms|
  {
    if ms == [] then None
    else if ms[0].isUser then Some(0)
    else
      var later := FirstUserAt(ms[1..]);
      assert forall i :: 1 <= i < |ms| ==> ms[i] == ms[1..][i - 1];
      if later.Some? then Some(later.value + 1) else None
  }

  /** The title a "New Chat" conversation takes: the first user message's
      first 30 UTF-16 code units and "...", always appended. Without a user message
      the optional chain yields `undefined`, which the concatenation prints,
      so the `|| 'New Chat'` fallback is never reached. */
  function Title(ms: seq<ChatMessage>): (t: string)
    ensures |t| >= 3 && t[|t| - 3..] == "..."
    ensures FirstUserAt(ms).Some? ==> t == Take(ms[FirstUserAt(ms).value].content, TitleLength) + "..."
    ensures FirstUserAt(ms).None? ==> t == "undefined..."
  {
    var first := FirstUserAt(ms);
    var head := if first.Some? then Take(ms[first.value].content, TitleLength) else "undefined";
    head + "..."
  }

  /** The entry `updateCurrentConversation` writes for the open conversation:
      the new messages, the last one's preview and timestamp, and a title
      that is recomputed only while it is still "New Chat". */
  function Updated(c: Conversation, ms: seq<ChatMessage>): (r: Conversation)
    requires |ms| > 0
    ensures r.id == c.id && r.messages == ms
    ensures r.lastMessage == Preview(ms[|ms| - 1].content) && r.timestamp == ms[|ms| - 1].timestamp
    ensures c.title != NewChatTitle ==> r.title == c.title
    ensures c.title == NewChatTitle ==> r.title == Title(ms)
  {
    var last := ms[|ms| - 1];
    c.(messages := ms,
       lastMessage := Preview(last.content),
       timestamp := last.timestamp,
       title := if c.title == NewChatTitle then Title(ms) else c.title)
  }

  /** The `map` of `updateCurrentConversation`: every entry with the open
      identifier is updated, every other entry is left as it is, and the
      order is kept. */
  function UpdateAll(convs: seq<Conversation>, id: string, ms: seq<ChatMessage>): (r: seq<Conversation>)
    requires |ms| > 0
    ensures |r| == |convs|
    ensures forall i :: 0 <= i < |convs| ==> r[i].id == convs[i].id
    ensures forall i :: 0 <= i < |convs| && convs[i].id != id ==> r[i] == convs[i]
    ensures forall i :: 0 <= i < |convs| && convs[i].id == id ==> r[i] == Updated(convs[i], ms)
    decreases |convs|
  {
    if convs == [] then []
    else
      var rest := UpdateAll(convs[1..], id, ms);
      assert forall i :: 1 <= i < |convs| ==> convs[i] == convs[1..][i - 1];
      [if convs[0].id == id then Updated(convs[0], ms) else convs[0]] + rest
  }

  /** The list after `updateCurrentConversation(ms)`: unchanged when no
      conversation is open (a missing or empty identifier). */
  function Recorded(convs: seq<Conversation>, current: Option<string>, ms: seq<ChatMessage>): (r: seq<Conversation>)
    requires |ms| > 0
    ensures |r| == |convs|
    ensures forall i :: 0 <= i < |convs| ==> r[i].id == convs[i].id
    ensures forall i :: 0 <= i < |convs| && (current.None? || convs[i].id != current.value) ==> r[i] == convs[i]
  {
    if current.None? || current.value == "" then convs else UpdateAll(convs, current.value, ms)
  }

  /** Where `conversations.find(c => c.id === id)` stops: the first entry
      with that identifier. */
  function Find(convs: seq<Conversation>, id: string): (r: Option<nat>)
    ensures r.None? <==> forall i :: 0 <= i < |convs| ==> convs[i].id != id
    ensures r.Some? ==> r.value < |convs| && convs[r.value].id == id
    ensures r.Some? ==> forall j :: 0 <= j < r.value ==> convs[j].id != id
    decreases |convs|
  {
    if convs == [] then None
    else if convs[0].id == id then Some(0)
    else
      var later := Find(convs[1..], id);
      assert forall i :: 1 <= i < |convs| ==> convs[i] == convs[1..][i - 1];
      if later.Some? then Some(later.value + 1) else None
  }

  function Other(id: string): Conversation -> bool {
    (c: Conversation) => c.id != id
  }

  /** The `filter` of `deleteConversation`. */
  function Without(convs: seq<Conversation>, id: string): (r: seq<Conversation>)
    ensures |r| <= |convs|
    ensures forall i :: 0 <= i < |r| ==> r[i].id != id
  {
    Where(convs, Other(id))
  }

  /** A retitled conversation keeps its title: once the title has left
      "New Chat" it always ends in "...", so later updates never recompute it. */
  lemma TitleFreezes(c: Conversation, ms1: seq<ChatMessage>, ms2: seq<ChatMessage>)
    requires |ms1| > 0 && |ms2| > 0
    ensures Updated(Updated(c, ms1), ms2).title == Updated(c, ms1).title
  {
    var t := Updated(c, ms1).title;
    if c.title == NewChatTitle {
      assert t[|t| - 3..] == "...";
      assert NewChatTitle[|NewChatTitle| - 3..] == "hat";
    }
  }

  /** The first user message of a list is still the first once more
      messages follow it. */
  lemma {:induction false} FirstUserExtended(ms: seq<ChatMessage>, more: seq<ChatMessage>)
    requires FirstUserAt(ms).Some?
    ensures FirstUserAt(ms + more) == FirstUserAt(ms)
  {
    var k := FirstUserAt(ms).value;
    var r := FirstUserAt(ms + more);
    assert (ms + more)[k] == ms[k];
    assert forall j :: 0 <= j < k ==> (ms + more)[j] == ms[j];
  }

  /** Updating an entry twice, the second time with the first list
      extended, is updating it once with the extended list, provided the
      first list already holds a user message (so both choose the same title). */
  lemma UpdatedTwice(c: Conversation, ms: seq<ChatMessage>, more: seq<ChatMessage>)
    requires |ms| > 0 && FirstUserAt(ms).Some?
    ensures Updated(Updated(c, ms), ms + more) == Updated(c, ms + more)
  {
    FirstUserExtended(ms, more);
    var k := FirstUserAt(ms).value;
    assert (ms + more)[k] == ms[k];
    TitleFreezes(c, ms, ms + more);
  }

  /** The same for the whole list. */
  lemma {:induction false} RecordedTwice(convs: seq<Conversation>, current: Option<string>, ms: seq<ChatMessage>, more: seq<ChatMessage>)
    requires |ms| > 0 && FirstUserAt(ms).Some?
    ensures Recorded(Recorded(convs, current, ms), current, ms + more) == Recorded(convs, current, ms + more)
  {
    if current.Some? && current.value != "" {
      var once := UpdateAll(convs, current.value, ms);
      var twice := UpdateAll(once, current.value, ms + more);
      var direct := UpdateAll(convs, current.value, ms + more);
      forall i | 0 <= i < |convs| ensures twice[i] == direct[i] {
        if convs[i].id == current.value {
          UpdatedTwice(convs[i], ms, more);
        }
      }
    }
  }

  /** The messages and the list one accepted send leaves: the user's message
      is written in, then, on a reply, the reply as well; the second write
      agrees with writing both at once. */
  lemma TurnRecorded(convs: seq<Conversation>, current: Option<string>, ms: seq<ChatMessage>,
                     content: string, sentAt: Instant, repliedAt: Instant,
                     result: Result<WebhookResponse, ChatError>, supply: nat -> string, issued: nat)
    ensures var withUser := ms + [Identified(UserDraft(content, sentAt), supply(issued))];
            var all := ms + Stamped(TurnDrafts(content, sentAt, repliedAt, result), supply, issued);
            && (result.Err? ==> all == withUser)
            && (result.Ok? ==>
                  && all == withUser + [Identified(BotDraft(result.value.reply, repliedAt), supply(issued + 1))]
                  && Recorded(Recorded(convs, current, withUser), current, all) == Recorded(convs, current, all))
  {
    StampedTurn(content, sentAt, repliedAt, result, supply, issued);
    var withUser := ms + [Identified(UserDraft(content, sentAt), supply(issued))];
    assert withUser[|withUser| - 1].isUser;
    if result.Ok? {
      RecordedTwice(convs, current, withUser, [Identified(BotDraft(result.value.reply, repliedAt), supply(issued + 1))]);
    }
  }

  /** Entries with the same identifiers, position by position, are found at
      the same place. */
  lemma {:induction false} FindSameIds(a: seq<Conversation>, b: seq<Conversation>, id: string)
    requires |a| == |b| && forall i :: 0 <= i < |a| ==> a[i].id == b[i].id
    ensures Find(a, id) == Find(b, id)
    decreases |a|
  {
    if a != [] && a[0].id != id {
      FindSameIds(a[1..], b[1..], id);
    }
  }

  /** `find` on a list with one more entry in front. */
  lemma FindCons(c: Conversation, rest: seq<Conversation>, id: string)
    ensures Find([c] + rest, id) ==
            if c.id == id then Some(0)
            else if Find(rest, id).Some? then Some(Find(rest, id).value + 1) else None
  {
    var all := [c] + rest;
    assert all[0] == c && all != [];
    if c.id != id {
      assert all[1..] == rest;
      var later := Find(rest, id);
      assert Find(all, id) == if later.Some? then Some(later.value + 1) else None;
    }
  }

  /** What `find` gives for `other` survives deleting `id`. */
  predicate FindSurvives(convs: seq<Conversation>, id: string, other: string) {
    var k, kept := Find(convs, other), Without(convs, id);
    && (k.None? ==> Find(kept, other).None?)
    && (k.Some? ==> Find(kept, other).Some? && kept[Find(kept, other).value] == convs[k.value])
  }

  /** Deleting one identifier leaves what `find` gives for any other. */
  lemma {:induction false} FindWithout(convs: seq<Conversation>, id: string, other: string)
    requires other != id
    ensures var k, kept := Find(convs, other), Without(convs, id);
            && (k.None? ==> Find(kept, other).None?)
            && (k.Some? ==> Find(kept, other).Some? && kept[Find(kept, other).value] == convs[k.value])
    decreases |convs|
  {
    if convs != [] {
      var c, tail := convs[0], convs[1..];
      FindWithout(tail, id, other);
      assert convs == [c] + tail;
      if c.id == id {
        FindSurvivesHeadDropped(c, tail, id, other);
      } else {
        FindSurvivesHeadKept(c, tail, id, other);
      }
      assert FindSurvives(convs, id, other);
    }
  }

  /** The step of `FindWithout` when the first entry is deleted. */
  lemma FindSurvivesHeadDropped(c: Conversation, tail: seq<Conversation>, id: string, other: string)
    requires other != id && c.id == id && FindSurvives(tail, id, other)
    ensures FindSurvives([c] + tail, id, other)
  {
    var convs := [c] + tail;
    assert convs[0] == c && convs[1..] == tail;
    var rest := Without(tail, id);
    assert Without(convs, id) == rest;
    FindCons(c, tail, other);
    var k := Find(tail, other);
    if k.Some? {
      assert convs[k.value + 1] == tail[k.value];
    }
  }

  /** The step of `FindWithout` when the first entry is kept. */
  lemma FindSurvivesHeadKept(c: Conversation, tail: seq<Conversation>, id: string, other: string)
    requires other != id && c.id != id && FindSurvives(tail, id, other)
    ensures FindSurvives([c] + tail, id, other)
  {
    var convs := [c] + tail;
    assert convs[0] == c && convs[1..] == tail;
    var rest := Without(tail, id);
    assert Without(convs, id) == [c] + rest;
    FindCons(c, tail, other);
    FindCons(c, rest, other);
    var k, r := Find(tail, other), Find(rest, other);
    if c.id != other && k.Some? {
      assert ([c] + rest)[r.value + 1] == rest[r.value];
      assert convs[k.value + 1] == tail[k.value];
    }
  }

  /** Deleting an identifier no entry carries leaves the list as it is. */
  lemma DeleteUnknownKeepsList(convs: seq<Conversation>, id: string)
    requires forall i :: 0 <= i < |convs| ==> convs[i].id != id
    ensures Without(convs, id) == convs
  {
    assert forall i :: 0 <= i < |convs| ==> Other(id)(convs[i]);
    WhereAll(convs, Other(id));
  }

  /** Deleting removes exactly the entries with the identifier, keeping the
      others as often as they occur. */
  lemma DeleteRemovesExactly(convs: seq<Conversation>, id: string, c: Conversation)
    ensures multiset(Without(convs, id))[c] == if c.id == id then 0 else multiset(convs)[c]
  {
    WhereCount(convs, Other(id), c);
  }

  /** The full-page chat's state. `stored` is the localStorage entry under
      `ConversationsKey`, `None` when absent; the JSON encoding is the
      identity here. */
  class FullPageChat {
    var conversations: seq<Conversation>
    var currentConversationId: Option<string>
    var currentMessages: seq<ChatMessage>
    var isTyping: bool
    var error: Option<ChatError>
    var followUps: seq<string>
    var lastMessageTime: Instant
    var stored: Option<seq<Conversation>>
    /** The client the initialisation effect makes from the configuration. */
    const api: ApiClient
    /** The page's session manager singleton. */
    const session: SessionManager

    /** The saved list mirrors the sidebar, and the open conversation's
        messages are those the list holds for its identifier. */
    predicate Consistent()
      reads this`stored, this`conversations, this`currentConversationId, this`currentMessages
    {
      && stored == Some(conversations)
      && (currentConversationId.Some? && currentConversationId.value != "" ==>
            var k := Find(conversations, currentConversationId.value);
            k.Some? && conversations[k.value].messages == currentMessages)
    }

    /** The state initialisers followed by the load effect: a saved list is
        adopted and its first entry opened (none when it is empty); without
        one a first conversation is created. */
    constructor (api: ApiClient, session: SessionManager, saved: Option<seq<Conversation>>, ids: IdGenerator, now: Instant)
      modifies ids`issued
      ensures this.api == api && this.session == session && Consistent()
      ensures !isTyping && error == None && followUps == [] && lastMessageTime == 0
      ensures saved.Some? ==> conversations == saved.value && ids.issued == old(ids.issued)
      ensures saved.Some? && |saved.value| > 0 ==>
                currentConversationId == Some(saved.value[0].id) && currentMessages == saved.value[0].messages
      ensures saved == Some([]) ==> currentConversationId == None && currentMessages == []
      ensures saved.None? ==>
                var c := NewConversation(ids.supply(old(ids.issued)), ids.supply(old(ids.issued) + 1), now);
                && conversations == [c]
                && currentConversationId == Some(c.id) && currentMessages == c.messages
                && ids.issued == old(ids.issued) + 2
    {
      this.api := api;
      this.session := session;
      conversations := [];
      currentConversationId := None;
      currentMessages := [];
      isTyping := false;
      error := None;
      followUps := [];
      lastMessageTime := 0;
      stored := saved;
      new;
      if saved.Some? {
        conversations := saved.value;
        if |saved.value| > 0 {
          currentConversationId := Some(saved.value[0].id);
          currentMessages := saved.value[0].messages;
        }
      } else {
        CreateNewConversation(ids, now);
      }
    }

    /** `createNewConversation`: prepends a welcome-only "New Chat", saves
        the list, opens the new conversation and clears follow-ups and error. */
    method CreateNewConversation(ids: IdGenerator, now: Instant)
      modifies this`conversations, this`stored, this`currentConversationId, this`currentMessages,
               this`followUps, this`error, ids`issued
      ensures var c := NewConversation(ids.supply(old(ids.issued)), ids.supply(old(ids.issued) + 1), now);
              && conversations == [c] + old(conversations)
              && currentConversationId == Some(c.id) && currentMessages == c.messages
      ensures stored == Some(conversations) && followUps == [] && error == None
      ensures ids.issued == old(ids.issued) + 2
      ensures Consistent()
    {
      var id := ids.Next();
      var messageId := ids.Next();
      var c := NewConversation(id, messageId, now);
      conversations := [c] + conversations;
      stored := Some(conversations);
      currentConversationId := Some(c.id);
      currentMessages := c.messages;
      followUps := [];
      error := None;
    }

    /** `updateCurrentConversation`: writes `ms` into the open conversation
        and saves the list; nothing happens when no conversation is open. */
    method UpdateCurrentConversation(ms: seq<ChatMessage>)
      requires |ms| > 0
      modifies this`conversations, this`stored
      ensures conversations == Recorded(old(conversations), currentConversationId, ms)
      ensures stored == if currentConversationId.None? || currentConversationId.value == "" then old(stored)
                        else Some(conversations)
    {
      if currentConversationId.None? || currentConversationId.value == "" {
        return;
      }
      conversations := UpdateAll(conversations, currentConversationId.value, ms);
      stored := Some(conversations);
    }

    /** `switchConversation`: opens the first conversation with that
        identifier and clears follow-ups and error; an unknown identifier
        changes nothing. */
    method SwitchConversation(id: string)
      requires Consistent()
      modifies this`currentConversationId, this`currentMessages, this`followUps, this`error
      ensures Find(conversations, id).None? ==> unchanged(this)
      ensures Find(conversations, id).Some? ==>
                && currentConversationId == Some(id)
                && currentMessages == conversations[Find(conversations, id).value].messages
                && followUps == [] && error == None
      ensures Consistent()
    {
      var k := Find(conversations, id);
      if k.Some? {
        currentConversationId := Some(id);
        currentMessages := conversations[k.value].messages;
        followUps := [];
        error := None;
      }
    }

    /** `deleteConversation`: drops every entry with that identifier and
        saves the list. When the open conversation was deleted the first
        remaining one is opened, or a new one created when none remain. */
    method DeleteConversation(id: string, ids: IdGenerator, now: Instant)
      requires Consistent()
      modifies this`conversations, this`stored, this`currentConversationId, this`currentMessages,
               this`followUps, this`error, ids`issued
      ensures Consistent()
      ensures var kept := Without(old(conversations), id);
              if old(currentConversationId) != Some(id) then
                && conversations == kept
                && currentConversationId == old(currentConversationId) && currentMessages == old(currentMessages)
                && followUps == old(followUps) && error == old(error) && ids.issued == old(ids.issued)
              else if |kept| > 0 then
                && conversations == kept
                && currentConversationId == Some(kept[0].id) && currentMessages == kept[0].messages
                && followUps == old(followUps) && error == old(error) && ids.issued == old(ids.issued)
              else
                var c := NewConversation(ids.supply(old(ids.issued)), ids.supply(old(ids.issued) + 1), now);
                && conversations == [c]
                && currentConversationId == Some(c.id) && currentMessages == c.messages
                && followUps == [] && error == None && ids.issued == old(ids.issued) + 2
    {
      var filtered := Without(conversations, id);
      if currentConversationId.Some? && currentConversationId.value != "" && currentConversationId.value != id {
        FindWithout(conversations, id, currentConversationId.value);
      }
      conversations := filtered;
      stored := Some(filtered);
      if currentConversationId == Some(id) {
        if |filtered| > 0 {
          currentConversationId := Some(filtered[0].id);
          currentMessages := filtered[0].messages;
        } else {
          CreateNewConversation(ids, now);
        }
      }
    }

    /** `addMessage`: appends the message under a new identifier to the open
        conversation's messages and writes them into the list. */
    method AddMessage(message: Draft, ids: IdGenerator)
      requires Consistent()
      modifies this`currentMessages, this`conversations, this`stored, ids`issued
      ensures currentMessages == old(currentMessages) + [Identified(message, ids.supply(old(ids.issued)))]
      ensures conversations == Recorded(old(conversations), currentConversationId, currentMessages)
      ensures ids.issued == old(ids.issued) + 1
      ensures Consistent()
    {
      var id := ids.Next();
      currentMessages := currentMessages + [Identified(message, id)];
      if currentConversationId.Some? && currentConversationId.value != "" {
        FindSameIds(conversations, UpdateAll(conversations, currentConversationId.value, currentMessages),
                    currentConversationId.value);
      }
      UpdateCurrentConversation(currentMessages);
    }

    /** `sendMessage`, as in the widget, with every appended message also
        written into the open conversation. */
    method SendMessage(content: string, now: Instant, repliedAt: Instant, network: seq<Outcome>, ids: IdGenerator)
      returns (requests: seq<HttpRequest>)
      requires Consistent()
      modifies this, api, ids`issued
      ensures Consistent()
      ensures !Accepts(now, old(lastMessageTime)) ==>
                requests == [] && unchanged(this, api) && ids.issued == old(ids.issued)
      ensures Accepts(now, old(lastMessageTime)) ==>
                var result := Deliver(network, 0).result;
                var appended := TurnDrafts(content, now, repliedAt, result);
                && lastMessageTime == now
                && currentConversationId == old(currentConversationId)
                && currentMessages == old(currentMessages) + Stamped(appended, ids.supply, old(ids.issued))
                && conversations == Recorded(old(conversations), currentConversationId, currentMessages)
                && ids.issued == old(ids.issued) + |appended|
                && error == ErrorAfter(result)
                && followUps == FollowUpsAfter(result)
                && !isTyping
                && 1 <= |requests| <= 1 + MaxRetries
                && requests[0].body == WebhookRequest(session.GetSessionId(), content, now)
                && forall k :: 0 <= k < |requests| ==> requests[k] == requests[0]
    {
      if now - lastMessageTime < SendInterval {
        return [];
      }
      lastMessageTime := now;
      error := None;
      followUps := [];
      requests := Exchange(content, now, repliedAt, network, ids);
    }

    /** The accepted part of `sendMessage`, from appending the user's
        message to switching the typing indicator off. */
    method Exchange(content: string, now: Instant, repliedAt: Instant, network: seq<Outcome>, ids: IdGenerator)
      returns (requests: seq<HttpRequest>)
      requires Consistent() && error == None && followUps == []
      modifies this`currentMessages, this`conversations, this`stored, this`followUps, this`error,
               this`isTyping, api, ids`issued
      ensures Consistent()
      ensures var result := Deliver(network, 0).result;
              var appended := TurnDrafts(content, now, repliedAt, result);
              && currentMessages == old(currentMessages) + Stamped(appended, ids.supply, old(ids.issued))
              && conversations == Recorded(old(conversations), currentConversationId, currentMessages)
              && ids.issued == old(ids.issued) + |appended|
              && error == ErrorAfter(result)
              && followUps == FollowUpsAfter(result)
              && !isTyping
              && 1 <= |requests| <= 1 + MaxRetries
              && requests[0].body == WebhookRequest(session.GetSessionId(), content, now)
              && forall k :: 0 <= k < |requests| ==> requests[k] == requests[0]
    {
      ghost var convs0, messages0, issued0 := conversations, currentMessages, ids.issued;
      var result;
      result, requests := Ask(content, now, network, ids);
      Conclude(result, repliedAt, ids);
      TurnRecorded(convs0, currentConversationId, messages0, content, now, repliedAt, result, ids.supply, issued0);
    }

    /** The part of `sendMessage` up to the webhook's answer: the user's
        message is appended, the typing indicator shown and the request sent. */
    method Ask(content: string, now: Instant, network: seq<Outcome>, ids: IdGenerator)
      returns (result: Result<WebhookResponse, ChatError>, requests: seq<HttpRequest>)
      requires Consistent()
      modifies this`currentMessages, this`conversations, this`stored, this`isTyping, api, ids`issued
      ensures Consistent() && isTyping
      ensures currentMessages == old(currentMessages) + [Identified(UserDraft(content, now), ids.supply(old(ids.issued)))]
      ensures conversations == Recorded(old(conversations), currentConversationId, currentMessages)
      ensures ids.issued == old(ids.issued) + 1
      ensures result == Deliver(network, 0).result
      ensures 1 <= |requests| <= 1 + MaxRetries
      ensures requests[0].body == WebhookRequest(session.GetSessionId(), content, now)
      ensures forall k :: 0 <= k < |requests| ==> requests[k] == requests[0]
    {
      AddMessage(UserDraft(content, now), ids);
      isTyping := true;
      var delays;
      result, delays, requests := api.SendMessage(WebhookRequest(session.sessionId, content, now), network);
    }

    /** The part of `sendMessage` after the webhook has answered: the reply
        and its follow-ups, or the error, then the typing indicator off. */
    method Conclude(result: Result<WebhookResponse, ChatError>, repliedAt: Instant, ids: IdGenerator)
      requires Consistent()
      modifies this`currentMessages, this`conversations, this`stored, this`followUps, this`error,
               this`isTyping, ids`issued
      ensures Consistent() && !isTyping
      ensures result.Err? ==>
                && currentMessages == old(currentMessages) && conversations == old(conversations)
                && ids.issued == old(ids.issued) && error == Some(result.error) && followUps == old(followUps)
      ensures result.Ok? ==>
                && currentMessages == old(currentMessages) + [Identified(BotDraft(result.value.reply, repliedAt), ids.supply(old(ids.issued)))]
                && conversations == Recorded(old(conversations), currentConversationId, currentMessages)
                && ids.issued == old(ids.issued) + 1 && error == old(error)
      ensures currentConversationId == old(currentConversationId)
      ensures followUps == if FollowUpsAfter(result) == [] then old(followUps) else FollowUpsAfter(result)
    {
      if result.Ok? {
        AddMessage(BotDraft(result.value.reply, repliedAt), ids);
        if result.value.followUp.Some? && |result.value.followUp.value| > 0 {
          followUps := result.value.followUp.value;
        }
      } else {
        error := Some(result.error);
      }
      isTyping := false;
    }

    /** `handleRetry`: sends the open conversation's most recent user message
        again; nothing happens when it holds no user message. */
    method HandleRetry(now: Instant, repliedAt: Instant, network: seq<Outcome>, ids: IdGenerator)
      returns (requests: seq<HttpRequest>)
      requires Consistent()
      modifies this, api, ids`issued
      ensures Consistent()
      ensures LastUserAt(old(currentMessages)).None? || !Accepts(now, old(lastMessageTime)) ==>
                requests == [] && unchanged(this, api) && ids.issued == old(ids.issued)
      ensures LastUserAt(old(currentMessages)).Some? && Accepts(now, old(lastMessageTime)) ==>
                var content := old(currentMessages)[LastUserAt(old(currentMessages)).value].content;
                var result := Deliver(network, 0).result;
                var appended := TurnDrafts(content, now, repliedAt, result);
                && lastMessageTime == now
                && currentConversationId == old(currentConversationId)
                && currentMessages == old(currentMessages) + Stamped(appended, ids.supply, old(ids.issued))
                && conversations == Recorded(old(conversations), currentConversationId, currentMessages)
                && ids.issued == old(ids.issued) + |appended|
                && error == ErrorAfter(result) && followUps == FollowUpsAfter(result) && !isTyping
                && 1 <= |requests| <= 1 + MaxRetries
                && requests[0].body == WebhookRequest(session.GetSessionId(), content, now)
                && forall k :: 0 <= k < |requests| ==> requests[k] == requests[0]
    {
      requests := [];
      if |currentMessages| > 0 {
        var last := LastUserAt(currentMessages);
        if last.Some? {
          requests := SendMessage(currentMessages[last.value].content, now, repliedAt, network, ids);
        }
      }
    }
  }
}

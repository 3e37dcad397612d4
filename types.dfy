// The data shapes shared by the chat client (src/types/index.ts), the
// option/result wrappers the model uses for JavaScript's undefined/null and
// thrown errors, and the few string operations the client performs.

module Types {

  datatype Option<T> = None | Some(value: T)

  datatype Result<T, E> = Ok(value: T) | Err(error: E)

  /** An instant, in milliseconds since the epoch. The client carries instants
      as ISO-8601 strings made by `toISOString`, which order like the instants
      they denote, and as `Date.now()` numbers. */
  type Instant = int

  /** One chat message. `isMarkdown` is optional in the source: `None` is
      JavaScript's `undefined`. */
  datatype ChatMessage = ChatMessage(
    id: string,
    content: string,
    timestamp: Instant,
    isUser: bool,
    isMarkdown: Option<bool>)

  /** `Omit<ChatMessage, 'id'>`: a message before an identifier is assigned. */
  datatype Draft = Draft(content: string, timestamp: Instant, isUser: bool, isMarkdown: Option<bool>)

  function Identified(d: Draft, id: string): (m: ChatMessage)
    ensures m.id == id && Unidentified(m) == d
  {
    ChatMessage(id, d.content, d.timestamp, d.isUser, d.isMarkdown)
  }

  /** The fields of a message other than its identifier. */
  function Unidentified(m: ChatMessage): Draft {
    Draft(m.content, m.timestamp, m.isUser, m.isMarkdown)
  }

  /** The body posted to the webhook. */
  datatype WebhookRequest = WebhookRequest(sessionId: string, message: string, timestamp: Instant)

  /** A validated webhook reply; `followUp` is `None` when the field was not an array. */
  datatype WebhookResponse = WebhookResponse(reply: string, followUp: Option<seq<string>>)

  datatype ErrorKind = Network | Timeout | RateLimit | Server | Unknown

  /** The error shown to the user. The optional numeric `code` of the source
      type is never set by the client and is not modelled. */
  datatype ChatError = ChatError(kind: ErrorKind, message: string, retryable: bool)

  /** The UTF-16 code units JavaScript spends on a character: two (a
      surrogate pair) outside the Basic Multilingual Plane, one inside it. */
  function CodeUnits(c: char): nat {
    if c as int >= 0x1_0000 then 2 else 1
  }

  /** JavaScript's `s.length`, which counts UTF-16 code units. */
  function Utf16Length(s: string): (n: nat)
    ensures |s| <= n <= 2 * |s|
  {
    if s == [] then 0 else CodeUnits(s[0]) + Utf16Length(s[1..])
  }

  /** JavaScript's `s.substring(0, n)`, which cuts after `n` UTF-16 code
      units: the longest prefix of `s` that fits in `n` code units. */
  function Take(s: string, n: nat): (t: string)
    ensures t <= s && Utf16Length(t) <= n
    ensures Utf16Length(s) <= n ==> t == s
    ensures t != s ==> Utf16Length(t) + CodeUnits(s[|t|]) > n
    decreases |s|
  {
    if s == [] || CodeUnits(s[0]) > n then []
    else
      var rest := Take(s[1..], n - CodeUnits(s[0]));
      assert s == [s[0]] + s[1..];
      assert ([s[0]] + rest)[1..] == rest;
      [s[0]] + rest
  }

  /** A cut that has room for the first character keeps it and cuts the
      rest in what room remains. */
  lemma TakeCons(s: string, n: nat, k: nat)
    requires 0 < k <= |s| && CodeUnits(s[0]) <= n
    requires Take(s[1..], n - CodeUnits(s[0])) == s[1..][..k - 1]
    ensures Take(s, n) == s[..k]
  {
    assert s[..k] == [s[0]] + s[1..][..k - 1];
  }

  /** Within the Basic Multilingual Plane a code unit is a character, so the
      cut keeps exactly the first `n` characters. */
  lemma {:induction false} TakeWithinBmp(s: string, n: nat)
    requires forall i :: 0 <= i < |s| ==> CodeUnits(s[i]) == 1
    ensures |s| > n ==> Take(s, n) == s[..n]
    decreases |s|
  {
    if |s| > n && n > 0 {
      var tail := s[1..];
      assert CodeUnits(s[0]) == 1;
      forall i | 0 <= i < |tail| ensures CodeUnits(tail[i]) == 1 {
        assert tail[i] == s[i + 1];
      }
      TakeWithinBmp(tail, n - 1);
      TakeCons(s, n, n);
    }
  }

  /** A text wholly outside the Basic Multilingual Plane is twice as long
      in code units as in characters. */
  lemma {:induction false} Utf16LengthAstral(s: string)
    requires forall i :: 0 <= i < |s| ==> CodeUnits(s[i]) == 2
    ensures Utf16Length(s) == 2 * |s|
    decreases |s|
  {
    if s != [] {
      Utf16LengthAstral(s[1..]);
    }
  }

  /** Outside the Basic Multilingual Plane every character takes two code
      units, so a cut after `2k` or `2k + 1` code units keeps `k` characters. */
  lemma {:induction false} TakeAstral(s: string, n: nat, k: nat)
    requires forall i :: 0 <= i < |s| ==> CodeUnits(s[i]) == 2
    requires n == 2 * k || n == 2 * k + 1
    ensures |s| > k ==> Take(s, n) == s[..k]
    decreases k
  {
    if |s| > k && k > 0 {
      var tail := s[1..];
      assert CodeUnits(s[0]) == 2;
      forall i | 0 <= i < |tail| ensures CodeUnits(tail[i]) == 2 {
        assert tail[i] == s[i + 1];
      }
      TakeAstral(tail, n - 2, k - 1);
      TakeCons(s, n, k);
    }
  }

  /** JavaScript's `s.includes(sub)`. */
  predicate Contains(s: string, sub: string) {
    exists i :: 0 <= i <= |s| && OccursAt(s, sub, i)
  }

  predicate OccursAt(s: string, sub: string, i: nat) {
    i + |sub| <= |s| && s[i..i + |sub|] == sub
  }

  /** The number a run of decimal digits spells. */
  function DigitsValue(s: string): nat
    requires forall i :: 0 <= i < |s| ==> '0' <= s[i] <= '9'
  {
    if s == [] then 0 else 10 * DigitsValue(s[..|s| - 1]) + (s[|s| - 1] as int - '0' as int)
  }

  /** The decimal digits of a number, as template strings print it. */
  function Decimal(n: nat): (s: string)
    ensures |s| > 0
    ensures forall i :: 0 <= i < |s| ==> '0' <= s[i] <= '9'
    ensures DigitsValue(s) == n
  {
    var digit := [('0' as int + n % 10) as char];
    if n < 10 then digit
    else
      var high := Decimal(n / 10);
      assert (high + digit)[..|high + digit| - 1] == high;
      high + digit
  }
}

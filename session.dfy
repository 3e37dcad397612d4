// Session identity (src/utils/session.ts): one UUID-v4 per browser profile,
// kept in localStorage under a fixed key, reused when the stored value is a
// well-formed UUID-v4 and regenerated otherwise. Storage failures are
// swallowed: the session then lives only as long as the page.

module Session {
  import opened Types
  import opened Browser

  const SessionStorageKey := "sitebuilder-chat-session"

  /** `[0-9a-f]` under the regular expression's `i` flag. */
  predicate IsHexDigit(c: char) {
    '0' <= c <= '9' || 'a' <= c <= 'f' || 'A' <= c <= 'F'
  }

  /** `[89ab]` under the `i` flag. */
  predicate IsVariantDigit(c: char) {
    c in "89abAB"
  }

  /** `[0-9a-f]{n}` matching all of `s`. */
  predicate HexRun(s: string, n: nat) {
    |s| == n && forall i :: 0 <= i < |s| ==> IsHexDigit(s[i])
  }

  /** `/^[0-9a-f]{8}-[0-9a-f]{4}-4[0-9a-f]{3}-[89ab][0-9a-f]{3}-[0-9a-f]{12}$/i`,
      matched group by group. */
  predicate IsValidUUID(s: string)
    ensures IsValidUUID(s) ==> |s| == 36 && s[14] == '4' && IsVariantDigit(s[19])
    ensures IsValidUUID(s) ==>
              forall i :: 0 <= i < 36 && i != 8 && i != 13 && i != 18 && i != 23 ==> IsHexDigit(s[i])
  {
    && |s| == 36
    && HexRun(s[0..8], 8) && s[8] == '-'
    && HexRun(s[9..13], 4) && s[13] == '-'
    && s[14] == '4' && HexRun(s[15..18], 3) && s[18] == '-'
    && IsVariantDigit(s[19]) && HexRun(s[20..23], 3) && s[23] == '-'
    && HexRun(s[24..36], 12)
  }

  /** What a UUID-v4 holds at position `i`: dashes at 8, 13, 18 and 23, the
      version digit 4 at 14, the variant digit at 19 and hexadecimal digits
      of either case everywhere else. */
  ghost predicate ShapeAt(s: string, i: nat)
    requires i < |s|
  {
    if i == 8 || i == 13 || i == 18 || i == 23 then s[i] == '-'
    else if i == 14 then s[i] == '4'
    else if i == 19 then IsVariantDigit(s[i])
    else IsHexDigit(s[i])
  }

  /** What a UUID-v4 looks like, character by character: 36 characters,
      each as `ShapeAt` says. */
  ghost predicate UuidShape(s: string) {
    |s| == 36 && forall i :: 0 <= i < 36 ==> ShapeAt(s, i)
  }

  /** The hexadecimal run of `s[lo..hi]`, read position by position in `s`. */
  lemma HexRunWithin(s: string, lo: nat, hi: nat)
    requires lo <= hi <= |s|
    ensures HexRun(s[lo..hi], hi - lo) <==> forall i :: lo <= i < hi ==> IsHexDigit(s[i])
  {
    assert forall i :: lo <= i < hi ==> s[lo..hi][i - lo] == s[i];
  }

  /** Every string the validator accepts has UUID-v4 shape. */
  lemma ValidHasShape(s: string)
    requires IsValidUUID(s)
    ensures UuidShape(s)
  {
    HexRunWithin(s, 0, 8);
    HexRunWithin(s, 9, 13);
    HexRunWithin(s, 15, 18);
    HexRunWithin(s, 20, 23);
    HexRunWithin(s, 24, 36);
    forall i | 0 <= i < 36 ensures ShapeAt(s, i) {
    }
  }

  /** Every string of UUID-v4 shape is accepted. */
  lemma ShapeIsValid(s: string)
    requires UuidShape(s)
    ensures IsValidUUID(s)
  {
    assert ShapeAt(s, 8) && ShapeAt(s, 13) && ShapeAt(s, 14);
    assert ShapeAt(s, 18) && ShapeAt(s, 19) && ShapeAt(s, 23);
    forall i | 0 <= i < 36 && i != 8 && i != 13 && i != 14 && i != 18 && i != 19 && i != 23
      ensures IsHexDigit(s[i])
    {
      assert ShapeAt(s, i);
    }
    HexRunWithin(s, 0, 8);
    HexRunWithin(s, 9, 13);
    HexRunWithin(s, 15, 18);
    HexRunWithin(s, 20, 23);
    HexRunWithin(s, 24, 36);
  }

  /** The validator accepts exactly the strings of UUID-v4 shape. */
  lemma ValidUUIDIffShape(s: string)
    ensures IsValidUUID(s) <==> UuidShape(s)
  {
    if IsValidUUID(s) {
      ValidHasShape(s);
    }
    if UuidShape(s) {
      ShapeIsValid(s);
    }
  }

  /** The session identifier a load adopts: the stored value when it is a
      valid UUID-v4, the freshly generated one otherwise. */
  function Adopted(stored: StorageRead, generated: string): (id: string)
    ensures id == generated || (stored.Found? && id == stored.value)
    ensures stored.Found? && UuidShape(stored.value) ==> id == stored.value
    ensures !(stored.Found? && UuidShape(stored.value)) ==> id == generated
  {
    ValidUUIDIffShape(if stored.Found? then stored.value else "");
    if Reuses(stored) then stored.value else generated
  }

  /** Whether a load reuses the stored value, and so makes no identifier. */
  predicate Reuses(stored: StorageRead) {
    stored.Found? && stored.value != "" && IsValidUUID(stored.value)
  }

  /** The profile's `SessionManager` and the identifier it hands out. */
  class SessionManager {
    var sessionId: string

    /** Loads or makes the session identifier (`getOrCreateSession`). */
    constructor (storage: LocalStorage, ids: IdGenerator)
      modifies storage`items, ids`issued
      ensures sessionId == Adopted(old(storage.Peek(SessionStorageKey)), old(ids.Upcoming()))
      ensures Reuses(old(storage.Peek(SessionStorageKey))) ==>
                storage.items == old(storage.items) && ids.issued == old(ids.issued)
      ensures !Reuses(old(storage.Peek(SessionStorageKey))) ==>
                ids.issued == old(ids.issued) + 1 &&
                storage.items == if storage.writable then old(storage.items)[SessionStorageKey := sessionId]
                                 else old(storage.items)
    {
      var id := GetOrCreateSession(storage, ids);
      sessionId := id;
    }

    function GetSessionId(): string
      reads this
    {
      sessionId
    }

    static method GetOrCreateSession(storage: LocalStorage, ids: IdGenerator) returns (id: string)
      modifies storage`items, ids`issued
      ensures id == Adopted(old(storage.Peek(SessionStorageKey)), old(ids.Upcoming()))
      ensures Reuses(old(storage.Peek(SessionStorageKey))) ==>
                storage.items == old(storage.items) && ids.issued == old(ids.issued)
      ensures !Reuses(old(storage.Peek(SessionStorageKey))) ==>
                ids.issued == old(ids.issued) + 1 &&
                storage.items == if storage.writable then old(storage.items)[SessionStorageKey := id]
                                 else old(storage.items)
    {
      var existing := storage.GetItem(SessionStorageKey);
      if Reuses(existing) {
        return existing.value;
      }
      id := ids.Next();
      SaveSession(storage, id);
    }

    /** Stores the identifier; a storage failure is swallowed. */
    static method SaveSession(storage: LocalStorage, id: string)
      modifies storage`items
      ensures storage.items == if storage.writable then old(storage.items)[SessionStorageKey := id]
                               else old(storage.items)
    {
      var _ := storage.SetItem(SessionStorageKey, id);
    }

    /** Forgets the stored identifier and adopts a new one, stored when
        storage can be written. */
    method ClearSession(storage: LocalStorage, ids: IdGenerator)
      modifies this, storage`items, ids`issued
      ensures sessionId == old(ids.Upcoming()) && ids.issued == old(ids.issued) + 1
      ensures storage.items == if storage.writable then old(storage.items)[SessionStorageKey := sessionId]
                               else old(storage.items)
    {
      var _ := storage.RemoveItem(SessionStorageKey);
      sessionId := ids.Next();
      SaveSession(storage, sessionId);
    }
  }
}

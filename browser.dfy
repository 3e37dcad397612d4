// The two browser facilities the client's state depends on, as injected
// inputs: `window.localStorage`, whose every call may throw (storage disabled
// in a private window, quota exceeded), and the random identifier source
// (`uuidv4()` and `crypto.randomUUID()`).

module Browser {
  import opened Types

  /** What `localStorage.getItem` gives: the stored value, `null`, or a throw. */
  datatype StorageRead = Found(value: string) | Absent | Threw

  /** `window.localStorage`. `readable` and `writable` say whether `getItem`
      and `setItem`/`removeItem` complete or throw. */
  class LocalStorage {
    var items: map<string, string>
    var readable: bool
    var writable: bool

    constructor (items: map<string, string>, readable: bool, writable: bool)
      ensures this.items == items && this.readable == readable && this.writable == writable
    {
      this.items := items;
      this.readable := readable;
      this.writable := writable;
    }

    /** What `getItem(key)` would give now. */
    function Peek(key: string): (r: StorageRead)
      reads this
      ensures r.Threw? <==> !readable
      ensures r.Found? <==> readable && key in items
      ensures r.Found? ==> r.value == items[key]
    {
      if !readable then Threw else if key in items then Found(items[key]) else Absent
    }

    method GetItem(key: string) returns (r: StorageRead)
      ensures r == Peek(key)
    {
      r := Peek(key);
    }

    /** `setItem`; `ok` is false when the call threw, and then nothing is stored. */
    method SetItem(key: string, value: string) returns (ok: bool)
      modifies this`items
      ensures ok == writable
      ensures items == if writable then old(items)[key := value] else old(items)
    {
      ok := writable;
      if writable {
        items := items[key := value];
      }
    }

    /** `removeItem`; `ok` is false when the call threw, and then nothing is removed. */
    method RemoveItem(key: string) returns (ok: bool)
      modifies this`items
      ensures ok == writable
      ensures items == if writable then old(items) - {key} else old(items)
    {
      ok := writable;
      if writable {
        items := items - {key};
      }
    }
  }

  /** The random identifier source. The k-th identifier it hands out is
      `supply(k)`; `issued` counts those handed out so far. Whether the
      identifiers are distinct, or well-formed UUIDs, is the source's
      business and is not assumed anywhere in the model. */
  class IdGenerator {
    const supply: nat -> string
    var issued: nat

    constructor (supply: nat -> string)
      ensures this.supply == supply && issued == 0
    {
      this.supply := supply;
      issued := 0;
    }

    /** The identifier the next call of `Next` returns. */
    function Upcoming(): string
      reads this
    {
      supply(issued)
    }

    method Next() returns (id: string)
      modifies this`issued
      ensures id == old(Upcoming()) && issued == old(issued) + 1
    {
      id := supply(issued);
      issued := issued + 1;
    }
  }
}

/** `expiringStorage` of `src/lib/CartContext.tsx`: a wrapper around the
    browser's key-value string store that keeps a last-write timestamp under a
    key of its own and forgets the cart after 30 days without a write.  The
    clock is an explicit `now` (milliseconds). */
module ExpiringStorage {
  import opened Prelude

  const EXPIRY_MS: int := 30 * 24 * 60 * 60 * 1000
  const TIMESTAMP_KEY: string := "bp-cart-ts"

  /** `localStorage`: string keys to string values. */
  class LocalStorage {
    var entries: map<string, string>

    constructor (initial: map<string, string>)
      ensures entries == initial
    {
      entries := initial;
    }
  }

  /** The stored timestamp exists (a non-empty string) and is more than 30 days
      older than `now`.  A timestamp that does not read as a number never
      expires, as `now - NaN > EXPIRY_MS` is false. */
  predicate Expired(entries: map<string, string>, now: int) {
    && TIMESTAMP_KEY in entries
    && entries[TIMESTAMP_KEY] != ""
    && var ts := ParseNumber(entries[TIMESTAMP_KEY]);
       ts.Some? && now - ts.value > EXPIRY_MS
  }

  /** Against a timestamp written by `setItem` at time `t`, the cart expires
      exactly when more than 30 days have passed: at 30 days to the
      millisecond it is still valid. */
  lemma ExpiryWindow(entries: map<string, string>, t: int, now: int)
    requires TIMESTAMP_KEY in entries && entries[TIMESTAMP_KEY] == Decimal(t)
    ensures Expired(entries, now) <==> now - t > EXPIRY_MS
    ensures now - t == EXPIRY_MS ==> !Expired(entries, now)
  {
    DecimalRoundTrip(t);
    assert Decimal(t) != "" by {
      if t < 0 { assert |Decimal(t)| >= 2; } else { assert |Digits(t)| >= 1; }
    }
  }

  /** Without a timestamp nothing ever expires. */
  lemma NoTimestampNeverExpires(entries: map<string, string>, now: int)
    requires TIMESTAMP_KEY !in entries
    ensures !Expired(entries, now)
  {
  }

  /** `getItem`: outside a browser, nothing.  When the timestamp shows expiry,
      both the value and the timestamp are deleted and nothing is returned.
      Otherwise the stored value, if any, and the store is unchanged. */
  method GetItem(storage: LocalStorage, key: string, now: int, inBrowser: bool) returns (r: Option<string>)
    modifies storage
    ensures !inBrowser ==> r.None? && storage.entries == old(storage.entries)
    ensures inBrowser && Expired(old(storage.entries), now) ==>
      r.None? && storage.entries == old(storage.entries) - {key, TIMESTAMP_KEY}
    ensures inBrowser && !Expired(old(storage.entries), now) ==>
      && storage.entries == old(storage.entries)
      && r == if key in old(storage.entries) then Some(old(storage.entries)[key]) else None
  {
    if !inBrowser {
      return None;
    }
    if TIMESTAMP_KEY in storage.entries {
      var ts := storage.entries[TIMESTAMP_KEY];
      if ts != "" {
        var n := ParseNumber(ts);
        if n.Some? && now - n.value > EXPIRY_MS {
          storage.entries := storage.entries - {key};
          storage.entries := storage.entries - {TIMESTAMP_KEY};
          return None;
        }
      }
    }
    if key in storage.entries {
      r := Some(storage.entries[key]);
    } else {
      r := None;
    }
  }

  /** `setItem`: writes the value and refreshes the timestamp to `now`. */
  method SetItem(storage: LocalStorage, key: string, value: string, now: int)
    modifies storage
    ensures storage.entries == old(storage.entries)[key := value][TIMESTAMP_KEY := Decimal(now)]
  {
    storage.entries := storage.entries[key := value];
    storage.entries := storage.entries[TIMESTAMP_KEY := Decimal(now)];
  }

  /** `removeItem`: deletes the value and the timestamp together. */
  method RemoveItem(storage: LocalStorage, key: string)
    modifies storage
    ensures storage.entries == old(storage.entries) - {key, TIMESTAMP_KEY}
  {
    storage.entries := storage.entries - {key};
    storage.entries := storage.entries - {TIMESTAMP_KEY};
  }

  /** A value written at `written` reads back unchanged at any later time
      within 30 days, and reads back as nothing (leaving neither key behind)
      once more than 30 days have passed. */
  method WriteThenRead(storage: LocalStorage, key: string, value: string, written: int, read: int)
    returns (r: Option<string>)
    requires key != TIMESTAMP_KEY
    modifies storage
    ensures read - written <= EXPIRY_MS ==> r == Some(value)
    ensures read - written > EXPIRY_MS ==>
      r.None? && key !in storage.entries && TIMESTAMP_KEY !in storage.entries
  {
    SetItem(storage, key, value, written);
    ExpiryWindow(storage.entries, written, read);
    r := GetItem(storage, key, read, true);
  }
}

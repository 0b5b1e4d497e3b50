/** Persistent state with a time-to-live: a value kept under a key in the
    browser's local storage as `{value, expiry}`, restored on load while it
    is fresh and evicted lazily once it has expired.

    Local storage is an object shared by every persistent value; what it
    holds under a key is modelled after parsing (`Stored`), since the JSON
    encoding itself belongs to the runtime. The clock is a parameter in
    milliseconds since the epoch. */
module PersistentState {
  import opened Wrappers

  const MsPerMinute: int := 60 * 1000

  /** The content under a key, as the read effect sees it. */
  datatype Stored<T> =
    | Blank                                // the empty string, which is skipped
    | Unreadable                           // content whose parse, or whose field access, throws
    | Item(value: T, expiry: Option<int>)  // a parsed `{value, expiry}`; a missing expiry is None

  /** The entry a write at time `now` stores: the value, with an expiry
      `ttlMinutes` minutes later, fresh at exactly the times before that. */
  function Stamp<T>(value: T, now: nat, ttlMinutes: int): (r: Stored<T>)
    ensures r.Item? && r.value == value && r.expiry.Some?
    ensures r.expiry.value - now == ttlMinutes * MsPerMinute
    ensures forall t: nat :: Fresh(r.expiry, t) <==> t < now + ttlMinutes * MsPerMinute
    ensures ttlMinutes > 0 ==> Fresh(r.expiry, now)
  {
    Item(value, Some(now + ttlMinutes * MsPerMinute))
  }

  /** What a read does: leave state and storage alone, restore the stored
      value into the state, or remove the entry and keep the default. */
  datatype ReadOutcome<T> = Untouched | Restored(value: T) | Evicted

  /** `item.expiry && now < item.expiry`: an expiry that is present,
      non-zero and later than `now`. With a clock that never reads below 0,
      the non-zero test is implied by the comparison, and a fresh expiry is
      positive. */
  function Fresh(expiry: Option<int>, now: nat): (b: bool)
    ensures b <==> expiry.Some? && now < expiry.value
    ensures b ==> expiry.value > 0
  {
    expiry.Some? && expiry.value != 0 && now < expiry.value
  }

  /** The read effect's decision for the content under the key (None when
      the key is absent). */
  function Classify<T>(stored: Option<Stored<T>>, now: nat): (r: ReadOutcome<T>)
    ensures r.Untouched? <==> stored.None? || !stored.value.Item?
    ensures r.Restored? <==> stored.Some? && stored.value.Item? && Fresh(stored.value.expiry, now)
    ensures r.Restored? ==> r.value == stored.value.value
    ensures r.Evicted? <==> stored.Some? && stored.value.Item? && !Fresh(stored.value.expiry, now)
  {
    match stored
    case None => Untouched
    case Some(Blank) => Untouched
    case Some(Unreadable) => Untouched
    case Some(Item(v, expiry)) => if Fresh(expiry, now) then Restored(v) else Evicted
  }

  /** A stored item is restored exactly when its expiry is present and later
      than now, and then it yields the stored value. */
  lemma RestoredIffFresh<T>(v: T, expiry: Option<int>, now: nat)
    ensures Classify(Some(Item(v, expiry)), now).Restored? <==> Fresh(expiry, now)
    ensures Fresh(expiry, now) ==> Classify(Some(Item(v, expiry)), now) == Restored(v)
    ensures !Fresh(expiry, now) ==> Classify(Some(Item(v, expiry)), now) == Evicted
  {
  }

  /** An absent key, blank content and unreadable content are all left in
      place: only a parsed item can be evicted. */
  lemma OnlyItemsEvicted<T>(stored: Option<Stored<T>>, now: nat)
    ensures Classify(stored, now).Evicted? ==> stored.Some? && stored.value.Item?
    ensures stored.None? || stored.value.Blank? || stored.value.Unreadable? ==> Classify(stored, now) == Untouched
  {
  }

  /** Round trip: a value written at `t` with a TTL of `ttl` minutes is
      restored by a read at `t'` exactly when `t' < t + ttl·60000`, and
      evicted otherwise. */
  lemma StampRoundTrip<T>(v: T, t: nat, ttl: int, t': nat)
    ensures Classify(Some(Stamp(v, t, ttl)), t') == if t' < t + ttl * MsPerMinute then Restored(v) else Evicted
  {
  }

  /** The browser's local storage: string keys to stored content. */
  class LocalStorage<T> {
    var items: map<string, Stored<T>>

    constructor (items: map<string, Stored<T>>)
      ensures this.items == items
    {
      this.items := items;
    }

    function Lookup(key: string): (r: Option<Stored<T>>)
      reads this
      ensures r.Some? <==> key in items
      ensures r.Some? ==> r.value == items[key]
    {
      if key in items then Some(items[key]) else None
    }
  }

  /** One persistent value: its key, default, TTL in minutes, the in-memory
      state, and the storage it persists to. */
  class PersistentValue<T> {
    const key: string
    const defaultValue: T
    const ttlMinutes: int
    const storage: LocalStorage<T>
    var state: T

    /** The state starts at the default, whatever storage holds. */
    constructor (key: string, defaultValue: T, ttlMinutes: int, storage: LocalStorage<T>)
      ensures this.key == key && this.defaultValue == defaultValue
      ensures this.ttlMinutes == ttlMinutes && this.storage == storage
      ensures state == defaultValue
    {
      this.key := key;
      this.defaultValue := defaultValue;
      this.ttlMinutes := ttlMinutes;
      this.storage := storage;
      state := defaultValue;
    }

    /** The read effect at time `now`: a fresh item replaces the state; an
        item that has expired, or has no usable expiry, is removed from
        storage and the state is kept; anything else changes nothing. No
        error escapes. */
    method Load(now: nat)
      modifies this`state, storage`items
      ensures var outcome := Classify(old(storage.Lookup(key)), now);
        && state == (if outcome.Restored? then outcome.value else old(state))
        && storage.items == (if outcome.Evicted? then old(storage.items) - {key} else old(storage.items))
    {
      var outcome := Classify(storage.Lookup(key), now);
      match outcome
      case Restored(v) =>
        state := v;
      case Evicted =>
        storage.items := storage.items - {key};
      case Untouched =>
    }

    /** `setState`. */
    method Set(v: T)
      modifies this`state
      ensures state == v
    {
      state := v;
    }

    /** The write effect at time `now`: stores the state with expiry
        `now + ttl·60000` under the key, replacing any previous entry and no
        other. `accepted` is false when storage refuses the write (a full
        quota); that failure is caught, storage keeps its old content and
        the state is unaffected. */
    method Save(now: nat, accepted: bool)
      modifies storage`items
      ensures storage.items == if accepted then old(storage.items)[key := Stamp(state, now, ttlMinutes)] else old(storage.items)
    {
      if accepted {
        storage.items := storage.items[key := Stamp(state, now, ttlMinutes)];
      }
    }
  }

  /** A value set and saved at `t`, then loaded by a fresh instance (a page
      reload) at `t'` within the TTL: the reload restores the value. */
  method ReloadWithinTtl<T>(key: string, defaultValue: T, v: T, ttl: int, t: nat, t': nat) returns (restored: T)
    requires t' < t + ttl * MsPerMinute
    ensures restored == v
  {
    var storage := new LocalStorage<T>(map[]);
    var before := new PersistentValue(key, defaultValue, ttl, storage);
    before.Set(v);
    before.Save(t, true);
    var after := new PersistentValue(key, defaultValue, ttl, storage);
    after.Load(t');
    restored := after.state;
  }

  /** The same sequence with the reload at or after the expiry: the reload
      keeps the default and the entry is gone from storage. */
  method ReloadAfterTtl<T>(key: string, defaultValue: T, v: T, ttl: int, t: nat, t': nat) returns (restored: T, stillStored: bool)
    requires t' >= t + ttl * MsPerMinute
    ensures restored == defaultValue && !stillStored
  {
    var storage := new LocalStorage<T>(map[]);
    var before := new PersistentValue(key, defaultValue, ttl, storage);
    before.Set(v);
    before.Save(t, true);
    var after := new PersistentValue(key, defaultValue, ttl, storage);
    after.Load(t');
    restored := after.state;
    stillStored := key in storage.items;
  }

  /** Two writes under one key: a later read sees only the second value. */
  method OverwriteKeepsLatest<T>(key: string, defaultValue: T, v1: T, v2: T, ttl: int, t: nat, t': nat)
    returns (restored: T)
    requires t' < t + ttl * MsPerMinute
    ensures restored == v2
  {
    var storage := new LocalStorage<T>(map[]);
    var before := new PersistentValue(key, defaultValue, ttl, storage);
    before.Set(v1);
    before.Save(t, true);
    before.Set(v2);
    before.Save(t, true);
    var after := new PersistentValue(key, defaultValue, ttl, storage);
    after.Load(t');
    restored := after.state;
  }
}

/** The in-memory concurrency gate of internal/gate/gate.go; each method runs under the gate's lock. */
module Gate {
  type Key = string

  datatype Attempt = Acquired | AlreadyInFlight | CapReached

  /** Held slots and their acquire times. */
  type Slots = map<Key, int>

  function TryOutcome(slots: Slots, cap: int, key: Key): Attempt {
    if key in slots then AlreadyInFlight
    else if cap > 0 && |slots| >= cap then CapReached
    else Acquired
  }

  function Tried(slots: Slots, cap: int, key: Key, now: int): Slots {
    if TryOutcome(slots, cap, key).Acquired? then slots[key := now] else slots
  }

  function Unexpired(slots: Slots, now: int, timeout: int): Slots {
    map k | k in slots && now - slots[k] < timeout :: slots[k]
  }

  /** No more slots are held than the cap allows; a cap of zero or less is no cap. */
  predicate WithinCap(slots: Slots, cap: int) { cap > 0 ==> |slots| <= cap }

  class Gate {
    const cap: int
    var inflight: Slots

    constructor (capacity: int)
      ensures cap == capacity && inflight == map[]
    {
      cap := capacity;
      inflight := map[];
    }

    method TryAcquire(key: Key, now: int) returns (outcome: Attempt)
      modifies this
      ensures outcome == TryOutcome(old(inflight), cap, key)
      ensures inflight == Tried(old(inflight), cap, key, now)
    {
      if key in inflight {
        return AlreadyInFlight;
      }
      if cap > 0 && |inflight| >= cap {
        return CapReached;
      }
      inflight := inflight[key := now];
      return Acquired;
    }

    method Release(key: Key)
      modifies this
      ensures inflight == old(inflight) - {key}
    {
      inflight := inflight - {key};
    }

    method Holds(key: Key) returns (held: bool)
      ensures held <==> key in inflight
    {
      held := key in inflight;
    }

    /** Releases every slot acquired `timeout` or longer ago, deleting while it walks the map. */
    method ExpireOlderThan(now: int, timeout: int) returns (released: seq<Key>)
      modifies this
      ensures inflight == Unexpired(old(inflight), now, timeout)
      ensures forall k :: k in released <==> k in old(inflight) && now - old(inflight)[k] >= timeout
    {
      released := [];
      var pending := inflight.Keys;
      while pending != {}
        invariant pending <= inflight.Keys <= old(inflight).Keys
        invariant forall k :: k in inflight ==> inflight[k] == old(inflight)[k]
        invariant forall k :: k in inflight && k !in pending ==> now - inflight[k] < timeout
        invariant forall k :: k in old(inflight) && k !in inflight ==> now - old(inflight)[k] >= timeout
        invariant forall k :: k in released <==> k in old(inflight) && k !in inflight
        decreases pending
      {
        var k :| k in pending;
        pending := pending - {k};
        if now - inflight[k] >= timeout {
          inflight := inflight - {k};
          released := released + [k];
        }
      }
    }
  }

  // ---- The cap holds whatever the order of calls ---------------------------------------

  datatype Call = TryAcquire(key: Key, now: int) | Release(key: Key) | Expire(now: int, timeout: int)

  function Called(slots: Slots, cap: int, c: Call): Slots {
    match c
    case TryAcquire(key, now) => Tried(slots, cap, key, now)
    case Release(key) => slots - {key}
    case Expire(now, timeout) => Unexpired(slots, now, timeout)
  }

  function CalledAll(cap: int, calls: seq<Call>): Slots {
    if calls == [] then map[] else Called(CalledAll(cap, calls[..|calls| - 1]), cap, calls[|calls| - 1])
  }

  lemma SmallerMap(a: Slots, b: Slots)
    requires a.Keys <= b.Keys
    ensures |a| <= |b|
  {
    var rest := b.Keys - a.Keys;
    assert b.Keys == a.Keys + rest;
    assert |a| == |a.Keys| && |b| == |b.Keys|;
  }

  lemma CallKeepsCap(slots: Slots, cap: int, c: Call)
    requires WithinCap(slots, cap)
    ensures WithinCap(Called(slots, cap, c), cap)
  {
    if !c.TryAcquire? { SmallerMap(Called(slots, cap, c), slots); }
  }

  /** From an empty gate, no interleaving of acquires, releases and expiries exceeds the cap. */
  lemma {:induction false} CapAlwaysHolds(cap: int, calls: seq<Call>)
    ensures WithinCap(CalledAll(cap, calls), cap)
  {
    if calls != [] {
      CapAlwaysHolds(cap, calls[..|calls| - 1]);
      CallKeepsCap(CalledAll(cap, calls[..|calls| - 1]), cap, calls[|calls| - 1]);
    }
  }
}

/** The process-wide BACnet controller: one shared object holding one BAC0 client.
    Every construction returns the same object and adds a reference; `release`
    drops one and, at zero, disconnects the client and forgets the object so that
    the next construction starts afresh. The lock only serialises these steps and
    is not modelled. */
module Controller {
  import opened Values

  datatype ControllerError =
    | StartFailed  // `BAC0.start` raised inside `__init__`
    | NoClient     // `release` tore down an object whose `client` was never set
    | DisconnectFailed  // the client's `disconnect` raised

  /** A `BacnetController` object: its `_initialized` flag and the BAC0 client it holds,
      identified by the number of the `BAC0.start` call that produced it. */
  class Instance {
    var initialized: bool
    var client: Option<nat>

    /** `super().__new__(cls)` followed by `_initialized = False` */
    constructor ()
      ensures !initialized && client.None?
    {
      initialized, client := false, None;
    }
  }

  /** The current instance as the rest of the state machine sees it. */
  datatype Slot = Vacant | Occupied(initialized: bool, hasClient: bool)

  /** `(_instance, _ref_count)` with the number of clients started and disconnected so far. */
  datatype ControllerState = ControllerState(slot: Slot, refCount: int, clientsStarted: nat, disconnects: nat)

  /** `BacnetController()`: `__new__` creates an instance when there is none; `__init__`
      starts a client on an instance not yet initialized (marking it initialized first) and
      then adds a reference. `startOk` is whether `BAC0.start` returned. */
  function ConstructStep(s: ControllerState, startOk: bool): (r: (ControllerState, Option<ControllerError>))
    ensures r.0.slot.Occupied? && r.0.slot.initialized
    ensures r.0.disconnects == s.disconnects
    ensures r.1.Some? <==> (s.slot.Vacant? || !s.slot.initialized) && !startOk
    ensures r.1.None? ==> r.0.refCount == s.refCount + 1
    ensures r.1.Some? ==> r.0.refCount == s.refCount && !r.0.slot.hasClient
    ensures r.0.clientsStarted == s.clientsStarted + (if (s.slot.Vacant? || !s.slot.initialized) && startOk then 1 else 0)
    ensures s.slot.Occupied? && s.slot.initialized ==> r.0.slot == s.slot
    ensures s.slot.Vacant? && startOk ==> r.0.slot == Occupied(true, true)
  {
    var slot := if s.slot.Vacant? then Occupied(false, false) else s.slot;
    if slot.initialized then (s.(slot := slot, refCount := s.refCount + 1), None)
    else if startOk then (ControllerState(Occupied(true, true), s.refCount + 1, s.clientsStarted + 1, s.disconnects), None)
    else (s.(slot := Occupied(true, false)), Some(StartFailed))
  }

  /** `release` called on the current instance: drop a reference; when the count reaches
      zero or below while an instance exists, disconnect its client, forget the instance
      and reset the count. `disconnectOk` is whether the client's `disconnect` returned; when
      it raises, the count stays dropped and the instance is kept. */
  function ReleaseStep(s: ControllerState, disconnectOk: bool): (r: (ControllerState, Option<ControllerError>))
    ensures r.0.clientsStarted == s.clientsStarted
    ensures s.refCount > 1 || s.slot.Vacant? ==> r == (s.(refCount := s.refCount - 1), None)
    ensures s.refCount <= 1 && s.slot.Occupied? && s.slot.hasClient && disconnectOk ==>
      r == (ControllerState(Vacant, 0, s.clientsStarted, s.disconnects + 1), None)
    ensures s.refCount <= 1 && s.slot.Occupied? && s.slot.hasClient && !disconnectOk ==>
      r == (s.(refCount := s.refCount - 1), Some(DisconnectFailed))
    ensures s.refCount <= 1 && s.slot.Occupied? && !s.slot.hasClient ==>
      r == (s.(refCount := s.refCount - 1), Some(NoClient))
    ensures r.0.disconnects <= s.disconnects + 1
  {
    var n := s.refCount - 1;
    if n <= 0 && s.slot.Occupied? then
      if !s.slot.hasClient then (s.(refCount := n), Some(NoClient))
      else if disconnectOk then (ControllerState(Vacant, 0, s.clientsStarted, s.disconnects + 1), None)
      else (s.(refCount := n), Some(DisconnectFailed))
    else (s.(refCount := n), None)
  }

  /** `k` successive successful constructions. */
  function Acquire(s: ControllerState, k: nat): ControllerState
    decreases k
  {
    if k == 0 then s else Acquire(ConstructStep(s, true).0, k - 1)
  }

  /** `k` successive releases of the current instance, each disconnect returning. */
  function ReleaseMany(s: ControllerState, k: nat): ControllerState
    decreases k
  {
    if k == 0 then s else ReleaseMany(ReleaseStep(s, true).0, k - 1)
  }

  /** Once an initialized instance exists, further constructions only count references:
      no other client is started. */
  lemma {:induction false} AcquireCounts(s: ControllerState, k: nat)
    requires s.slot.Occupied? && s.slot.initialized
    ensures Acquire(s, k) == s.(refCount := s.refCount + k)
    decreases k
  {
    if k > 0 {
      AcquireCounts(ConstructStep(s, true).0, k - 1);
    }
  }

  /** Releasing a held instance `k` times, down from a count of `k`, keeps the client for the
      first `k - 1` releases and disconnects it exactly once on the last. */
  lemma {:induction false} ReleaseCounts(s: ControllerState, k: nat)
    requires k >= 1 && s.refCount == k && s.slot == Occupied(true, true)
    ensures ReleaseMany(s, k) == ControllerState(Vacant, 0, s.clientsStarted, s.disconnects + 1)
    decreases k
  {
    if k > 1 {
      ReleaseCounts(ReleaseStep(s, true).0, k - 1);
    }
  }

  /** Starting with no instance and no references, `k >= 1` constructions followed by `k`
      releases start exactly one client, disconnect exactly once and leave no instance. */
  lemma AcquireThenRelease(s: ControllerState, k: nat)
    requires s.slot.Vacant? && s.refCount == 0 && k >= 1
    ensures Acquire(s, k).clientsStarted == s.clientsStarted + 1
    ensures Acquire(s, k).slot == Occupied(true, true) && Acquire(s, k).refCount == k
    ensures ReleaseMany(Acquire(s, k), k) == ControllerState(Vacant, 0, s.clientsStarted + 1, s.disconnects + 1)
  {
    var first := ConstructStep(s, true).0;
    AcquireCounts(first, k - 1);
    ReleaseCounts(Acquire(s, k), k);
  }

  /** When `disconnect` raises on the last release, the instance survives with its client and a
      count of zero, and the next construction reuses it without starting a client. */
  lemma FailedDisconnectKeepsInstance(s: ControllerState)
    requires s.refCount == 1 && s.slot == Occupied(true, true)
    ensures var after := ReleaseStep(s, false).0;
      && after == s.(refCount := 0)
      && ConstructStep(after, true).0 == s
  {
  }

  /** After a teardown, the next construction creates a fresh instance and starts a new client. */
  lemma TeardownThenConstruct(s: ControllerState)
    requires s.refCount <= 1 && s.slot == Occupied(true, true)
    ensures var after := ReleaseStep(s, true).0;
      && after.slot.Vacant?
      && ConstructStep(after, true).0 == ControllerState(Occupied(true, true), 1, s.clientsStarted + 1, s.disconnects + 1)
  {
  }

  /** The class attributes of `BacnetController` (`_instance`, `_ref_count`), with the BAC0
      clients started and the clients disconnected, in order. */
  class BacnetController {
    var instance: Instance?
    var refCount: int
    var clientsStarted: nat
    var disconnected: seq<nat>

    /** The class as first imported: no instance, no references. */
    constructor ()
      ensures Valid()
      ensures instance == null && refCount == 0 && clientsStarted == 0 && disconnected == []
    {
      instance, refCount, clientsStarted, disconnected := null, 0, 0, [];
    }

    /** An instance gets a client only while it is being initialized. */
    predicate Valid()
      reads this, instance
    {
      instance != null && !instance.initialized ==> instance.client.None?
    }

    function View(): ControllerState
      reads this, instance
    {
      var slot := if instance == null then Vacant else Occupied(instance.initialized, instance.client.Some?);
      ControllerState(slot, refCount, clientsStarted, |disconnected|)
    }

    /** `__new__`: the existing instance, or a new uninitialized one that becomes `_instance`. */
    method New() returns (c: Instance)
      modifies this`instance
      ensures old(instance) != null ==> c == old(instance)
      ensures old(instance) == null ==> fresh(c) && !c.initialized && c.client.None?
      ensures instance == c
    {
      if instance == null {
        instance := new Instance();
      }
      c := instance;
    }

    /** `__init__` on `c`: when `c` is not yet initialized, mark it initialized and start a
        client (`startOk` is whether `BAC0.start` returned; when it raised, the exception
        leaves before the reference is added); then add one reference. */
    method Init(c: Instance, startOk: bool) returns (err: Option<ControllerError>)
      modifies c, this`refCount, this`clientsStarted
      ensures c.initialized
      ensures err == if !old(c.initialized) && !startOk then Some(StartFailed) else None
      ensures old(c.initialized) ==> c.client == old(c.client) && clientsStarted == old(clientsStarted)
      ensures !old(c.initialized) && startOk ==> c.client == Some(old(clientsStarted)) && clientsStarted == old(clientsStarted) + 1
      ensures !old(c.initialized) && !startOk ==> c.client == old(c.client) && clientsStarted == old(clientsStarted)
      ensures refCount == old(refCount) + (if err.None? then 1 else 0)
    {
      if !c.initialized {
        c.initialized := true;
        if !startOk {
          return Some(StartFailed);
        }
        c.client := Some(clientsStarted);
        clientsStarted := clientsStarted + 1;
      }
      refCount := refCount + 1;
      err := None;
    }

    /** `BacnetController()`: `__new__`, then `__init__` on the object it returns. The step
        agrees with `ConstructStep`, and the object returned is the current instance. */
    method Construct(startOk: bool) returns (c: Instance, err: Option<ControllerError>)
      requires Valid()
      modifies this, instance
      ensures Valid()
      ensures instance == c && (old(instance) != null ==> c == old(instance))
      ensures old(instance) == null ==> fresh(c)
      ensures disconnected == old(disconnected)
      ensures (View(), err) == ConstructStep(old(View()), startOk)
    {
      c := New();
      err := Init(c, startOk);
    }

    /** `release` called on `c`: drop one reference; when the count reaches zero or below
        while an instance exists, disconnect `c`'s client, forget the instance and reset the
        count. `c` need not be the current instance: a stale object disconnects its own
        client and still clears the current one. `disconnectOk` is whether `disconnect`
        returned: when it raises, the count stays dropped and the instance is kept. */
    method Release(c: Instance, disconnectOk: bool) returns (err: Option<ControllerError>)
      requires Valid()
      modifies this`refCount, this`instance, this`disconnected
      ensures Valid()
      ensures clientsStarted == old(clientsStarted)
      ensures old(refCount) - 1 > 0 || old(instance) == null ==>
        err.None? && refCount == old(refCount) - 1 && instance == old(instance) && disconnected == old(disconnected)
      ensures old(refCount) - 1 <= 0 && old(instance) != null && c.client.Some? && disconnectOk ==>
        err.None? && refCount == 0 && instance == null && disconnected == old(disconnected) + [c.client.value]
      ensures old(refCount) - 1 <= 0 && old(instance) != null && c.client.Some? && !disconnectOk ==>
        err == Some(DisconnectFailed) && refCount == old(refCount) - 1 && instance == old(instance) && disconnected == old(disconnected)
      ensures old(refCount) - 1 <= 0 && old(instance) != null && c.client.None? ==>
        err == Some(NoClient) && refCount == old(refCount) - 1 && instance == old(instance) && disconnected == old(disconnected)
      ensures c == old(instance) ==> (View(), err) == ReleaseStep(old(View()), disconnectOk)
    {
      refCount := refCount - 1;
      if refCount <= 0 && instance != null {
        if c.client.None? {
          return Some(NoClient);
        }
        if !disconnectOk {
          return Some(DisconnectFailed);
        }
        disconnected := disconnected + [c.client.value];
        instance := null;
        refCount := 0;
      }
      err := None;
    }
  }
}

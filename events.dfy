/** XYFinderDeviceEventManager: the process-wide event bus. A registry maps
    each event kind to the directives subscribed to it, in subscription order;
    a report hands every event to the directives registered for its kind whose
    device scope is empty or is the event's device. */
module Events {
  import Ble

  /** A directive's reference key. The source draws a fresh `UUID()`; the model
      draws the next number of a counter, which is fresh in the same way. */
  type Key = nat

  /** Identity of the closure a directive calls. */
  type HandlerId = nat

  /** `XYBluetoothDevice.id` */
  type DeviceId = string

  /** The operation a timed-out request was performing. */
  datatype OperationKind = GetOperation | SetOperation | NotifyOperation

  /** XYFinderEvent: the kinds the request engine uses by name; all others by their name. */
  datatype EventKind = Disconnected | TimedOut | OtherEvent(name: string)

  /** XYFinderEventNotification: an event of a kind, about a device. */
  datatype Notification = Notification(kind: EventKind, device: DeviceId, operation: Ble.Option<OperationKind>)

  /** XYFinderDeviceEventDirective; an absent device means "every device". */
  datatype Directive = Directive(referenceKey: Key, handler: HandlerId, device: Ble.Option<DeviceId>)

  /** One call of a handler made by a report. */
  datatype Invocation = Invocation(handler: HandlerId, referenceKey: Key, event: Notification)

  type Registry = map<EventKind, seq<Directive>>

  /** The list registered for a kind; an absent kind has none. */
  function Entry(reg: Registry, kind: EventKind): seq<Directive> {
    if kind in reg then reg[kind] else []
  }

  /** Every directive in the registry has a key below `bound`. */
  ghost predicate KeysBelow(reg: Registry, bound: Key) {
    forall k, x :: k in reg && x in reg[k] ==> x.referenceKey < bound
  }

  // ---------------------------------------------------------------------------
  // subscribe

  /** Subscription of one directive to one kind: the list is created when absent. */
  function AppendOne(reg: Registry, kind: EventKind, d: Directive): Registry {
    reg[kind := Entry(reg, kind) + [d]]
  }

  /** `subscribe(to: kinds, ...)`: the directive is appended for each listed kind in turn. */
  function Appended(reg: Registry, kinds: seq<EventKind>, d: Directive): Registry
    decreases |kinds|
  {
    if kinds == [] then reg
    else AppendOne(Appended(reg, kinds[..|kinds| - 1], d), kinds[|kinds| - 1], d)
  }

  function Count(kinds: seq<EventKind>, kind: EventKind): nat
    decreases |kinds|
  {
    if kinds == [] then 0
    else Count(kinds[..|kinds| - 1], kind) + (if kinds[|kinds| - 1] == kind then 1 else 0)
  }

  function Repeat(d: Directive, n: nat): (r: seq<Directive>)
    ensures |r| == n && forall x :: x in r ==> x == d
  {
    if n == 0 then [] else Repeat(d, n - 1) + [d]
  }

  lemma {:induction false} CountPositive(kinds: seq<EventKind>, kind: EventKind)
    ensures Count(kinds, kind) > 0 <==> kind in kinds
    decreases |kinds|
  {
    if kinds != [] {
      var init := kinds[..|kinds| - 1];
      CountPositive(init, kind);
      assert kinds == init + [kinds[|kinds| - 1]];
    }
  }

  /** After subscribe, each listed kind holds its old list followed by the
      directive once per listing; every other kind is untouched. */
  lemma {:induction false} AppendedEntry(reg: Registry, kinds: seq<EventKind>, d: Directive, kind: EventKind)
    ensures kind in Appended(reg, kinds, d) <==> kind in reg || kind in kinds
    ensures Entry(Appended(reg, kinds, d), kind) == Entry(reg, kind) + Repeat(d, Count(kinds, kind))
    decreases |kinds|
  {
    if kinds != [] {
      var init, last := kinds[..|kinds| - 1], kinds[|kinds| - 1];
      AppendedEntry(reg, init, d, kind);
      assert kinds == init + [last];
      var prev := Appended(reg, init, d);
      assert Appended(reg, kinds, d) == AppendOne(prev, last, d);
      if last == kind {
        assert Count(kinds, kind) == Count(init, kind) + 1;
        assert Entry(AppendOne(prev, last, d), kind) == Entry(prev, kind) + [d];
      } else {
        assert Count(kinds, kind) == Count(init, kind);
        assert Entry(AppendOne(prev, last, d), kind) == Entry(prev, kind);
      }
    }
  }

  /** Subscribing a directive keeps KeysBelow for any bound above its key. */
  lemma {:induction false} AppendedKeys(reg: Registry, kinds: seq<EventKind>, d: Directive, bound: Key)
    requires KeysBelow(reg, bound) && d.referenceKey < bound
    ensures KeysBelow(Appended(reg, kinds, d), bound)
  {
    var r := Appended(reg, kinds, d);
    forall k: EventKind, x: Directive | k in r && x in r[k] ensures x.referenceKey < bound {
      AppendedEntry(reg, kinds, d, k);
      assert x in Entry(reg, k) + Repeat(d, Count(kinds, k));
    }
  }

  // ---------------------------------------------------------------------------
  // unsubscribe

  /** `filter { $0.referenceKey != key }` */
  function Without(ds: seq<Directive>, key: Key): (r: seq<Directive>)
    ensures |r| <= |ds|
    decreases |ds|
  {
    if ds == [] then []
    else (if ds[0].referenceKey != key then [ds[0]] else []) + Without(ds[1..], key)
  }

  /** Without keeps exactly the directives with other keys, in their order. */
  lemma {:induction false} WithoutSplits(a: seq<Directive>, b: seq<Directive>, key: Key)
    ensures Without(a + b, key) == Without(a, key) + Without(b, key)
    decreases |a|
  {
    if a != [] {
      assert (a + b)[0] == a[0] && (a + b)[1..] == a[1..] + b;
      WithoutSplits(a[1..], b, key);
      var h := if a[0].referenceKey != key then [a[0]] else [];
      calc {
        Without(a + b, key);
        h + Without(a[1..] + b, key);
        h + (Without(a[1..], key) + Without(b, key));
        (h + Without(a[1..], key)) + Without(b, key);
        Without(a, key) + Without(b, key);
      }
    } else {
      assert a + b == b;
    }
  }

  lemma {:induction false} WithoutMembers(ds: seq<Directive>, key: Key)
    ensures forall x :: x in Without(ds, key) <==> x in ds && x.referenceKey != key
    decreases |ds|
  {
    if ds != [] {
      WithoutMembers(ds[1..], key);
      assert ds == [ds[0]] + ds[1..];
    }
  }

  /** Filtering out a key nobody carries changes nothing. */
  lemma {:induction false} WithoutAbsent(ds: seq<Directive>, key: Key)
    requires forall x :: x in ds ==> x.referenceKey != key
    ensures Without(ds, key) == ds
    decreases |ds|
  {
    if ds != [] {
      assert forall x :: x in ds[1..] ==> x in ds;
      WithoutAbsent(ds[1..], key);
      assert ds == [ds[0]] + ds[1..];
    }
  }

  /** Filtering out the key every directive carries leaves nothing. */
  lemma {:induction false} WithoutAll(ds: seq<Directive>, key: Key)
    requires forall x :: x in ds ==> x.referenceKey == key
    ensures Without(ds, key) == []
    decreases |ds|
  {
    if ds != [] {
      assert forall x :: x in ds[1..] ==> x in ds;
      WithoutAll(ds[1..], key);
    }
  }

  lemma {:induction false} WithoutIdempotent(ds: seq<Directive>, key: Key)
    ensures Without(Without(ds, key), key) == Without(ds, key)
  {
    WithoutMembers(ds, key);
    WithoutAbsent(Without(ds, key), key);
  }

  /** Unsubscribe from one kind: an absent kind is skipped. */
  function RemoveOne(reg: Registry, kind: EventKind, key: Key): Registry {
    if kind in reg then reg[kind := Without(reg[kind], key)] else reg
  }

  /** `unsubscribe(to: kinds, referenceKey: key)` with a key present. */
  function Removed(reg: Registry, kinds: seq<EventKind>, key: Key): Registry
    decreases |kinds|
  {
    if kinds == [] then reg
    else RemoveOne(Removed(reg, kinds[..|kinds| - 1], key), kinds[|kinds| - 1], key)
  }

  /** After unsubscribe the kinds present are the same; each listed kind has lost
      exactly the directives with the key, every other list is untouched. */
  lemma {:induction false} RemovedEntry(reg: Registry, kinds: seq<EventKind>, key: Key, kind: EventKind)
    ensures kind in Removed(reg, kinds, key) <==> kind in reg
    ensures Entry(Removed(reg, kinds, key), kind) ==
            if kind in kinds then Without(Entry(reg, kind), key) else Entry(reg, kind)
    decreases |kinds|
  {
    if kinds != [] {
      var init := kinds[..|kinds| - 1];
      RemovedEntry(reg, init, key, kind);
      assert kinds == init + [kinds[|kinds| - 1]];
      if kind in init && kind == kinds[|kinds| - 1] {
        WithoutIdempotent(Entry(reg, kind), key);
      }
    }
  }

  /** Unsubscribing only removes directives, so KeysBelow is kept. */
  lemma {:induction false} RemovedKeys(reg: Registry, kinds: seq<EventKind>, key: Key, bound: Key)
    requires KeysBelow(reg, bound)
    ensures KeysBelow(Removed(reg, kinds, key), bound)
  {
    var r := Removed(reg, kinds, key);
    forall k: EventKind, x: Directive | k in r && x in r[k] ensures x.referenceKey < bound {
      RemovedEntry(reg, kinds, key, k);
      WithoutMembers(Entry(reg, k), key);
    }
  }

  /** A second identical unsubscribe changes nothing. */
  lemma {:induction false} UnsubscribeIdempotent(reg: Registry, kinds: seq<EventKind>, key: Key)
    ensures Removed(Removed(reg, kinds, key), kinds, key) == Removed(reg, kinds, key)
  {
    var once := Removed(reg, kinds, key);
    var twice := Removed(once, kinds, key);
    forall k ensures (k in twice <==> k in once) && (k in once ==> twice[k] == once[k]) {
      RemovedEntry(reg, kinds, key, k);
      RemovedEntry(once, kinds, key, k);
      if k in kinds { WithoutIdempotent(Entry(reg, k), key); }
    }
  }

  // ---------------------------------------------------------------------------
  // report

  predicate InScope(d: Directive, device: DeviceId) {
    d.device.None? || d.device.value == device
  }

  /** `filter { $0.device == nil || $0.device?.id == event.device.id }.forEach { $0.handler(event) }` */
  function Delivered(ds: seq<Directive>, e: Notification): seq<Invocation>
    decreases |ds|
  {
    if ds == [] then []
    else
      var d := ds[|ds| - 1];
      Delivered(ds[..|ds| - 1], e) + (if InScope(d, e.device) then [Invocation(d.handler, d.referenceKey, e)] else [])
  }

  /** The calls one event causes: none for a kind with no entry. */
  function Matching(reg: Registry, e: Notification): seq<Invocation> {
    if e.kind in reg then Delivered(reg[e.kind], e) else []
  }

  /** `report(events:)`: the calls of every event, event by event. */
  function Dispatch(reg: Registry, events: seq<Notification>): seq<Invocation>
    decreases |events|
  {
    if events == [] then []
    else Dispatch(reg, events[..|events| - 1]) + Matching(reg, events[|events| - 1])
  }

  /** A report calls, for each directive of the event's kind in registration
      order, its handler exactly when it is in scope; nothing else. */
  lemma {:induction false} DeliveredMembers(ds: seq<Directive>, e: Notification)
    ensures forall c :: c in Delivered(ds, e) <==>
              exists d :: d in ds && InScope(d, e.device) && c == Invocation(d.handler, d.referenceKey, e)
    decreases |ds|
  {
    if ds != [] {
      var init := ds[..|ds| - 1];
      DeliveredMembers(init, e);
      assert ds == init + [ds[|ds| - 1]];
    }
  }

  lemma {:induction false} DeliveredSplits(a: seq<Directive>, b: seq<Directive>, e: Notification)
    ensures Delivered(a + b, e) == Delivered(a, e) + Delivered(b, e)
    decreases |b|
  {
    if b != [] {
      var init := b[..|b| - 1];
      var last := b[|b| - 1];
      assert (a + b)[..|a + b| - 1] == a + init && (a + b)[|a + b| - 1] == last;
      DeliveredSplits(a, init, e);
      var t := if InScope(last, e.device) then [Invocation(last.handler, last.referenceKey, e)] else [];
      calc {
        Delivered(a + b, e);
        Delivered(a + init, e) + t;
        (Delivered(a, e) + Delivered(init, e)) + t;
        Delivered(a, e) + (Delivered(init, e) + t);
        Delivered(a, e) + Delivered(b, e);
      }
    } else {
      assert a + b == a;
    }
  }

  /** Reporting events one batch after another is reporting them together. */
  lemma {:induction false} DispatchSplits(reg: Registry, a: seq<Notification>, b: seq<Notification>)
    ensures Dispatch(reg, a + b) == Dispatch(reg, a) + Dispatch(reg, b)
    decreases |b|
  {
    if b != [] {
      var init := b[..|b| - 1];
      var last := b[|b| - 1];
      assert (a + b)[..|a + b| - 1] == a + init && (a + b)[|a + b| - 1] == last;
      DispatchSplits(reg, a, init);
      calc {
        Dispatch(reg, a + b);
        Dispatch(reg, a + init) + Matching(reg, last);
        (Dispatch(reg, a) + Dispatch(reg, init)) + Matching(reg, last);
        Dispatch(reg, a) + (Dispatch(reg, init) + Matching(reg, last));
        Dispatch(reg, a) + Dispatch(reg, b);
      }
    } else {
      assert a + b == a;
    }
  }

  /** A report depends only on the list each kind holds. */
  lemma {:induction false} DispatchByEntries(r1: Registry, r2: Registry, events: seq<Notification>)
    requires forall k :: Entry(r1, k) == Entry(r2, k)
    ensures Dispatch(r1, events) == Dispatch(r2, events)
    decreases |events|
  {
    if events != [] {
      DispatchByEntries(r1, r2, events[..|events| - 1]);
      var e := events[|events| - 1];
      assert Entry(r1, e.kind) == Entry(r2, e.kind);
    }
  }

  /** Every call a report makes comes from a registered directive. */
  lemma {:induction false} DispatchFromRegistry(reg: Registry, events: seq<Notification>, c: Invocation)
    requires c in Dispatch(reg, events)
    ensures exists k, d :: k in reg && d in reg[k] && d.referenceKey == c.referenceKey && d.handler == c.handler
    decreases |events|
  {
    var init := events[..|events| - 1];
    var e := events[|events| - 1];
    if c in Dispatch(reg, init) {
      DispatchFromRegistry(reg, init, c);
    } else {
      assert e.kind in reg;
      DeliveredMembers(reg[e.kind], e);
    }
  }

  /** Round trip: subscribing a directive with a fresh key and then unsubscribing
      that key from the same kinds leaves every later report exactly as it was. */
  lemma {:induction false} SubscribeUnsubscribeRoundTrip(reg: Registry, kinds: seq<EventKind>, d: Directive,
                                                        events: seq<Notification>)
    requires forall k, x :: k in reg && x in reg[k] ==> x.referenceKey != d.referenceKey
    ensures Dispatch(Removed(Appended(reg, kinds, d), kinds, d.referenceKey), events) == Dispatch(reg, events)
  {
    var after := Removed(Appended(reg, kinds, d), kinds, d.referenceKey);
    forall k ensures Entry(after, k) == Entry(reg, k) {
      RemovedEntry(Appended(reg, kinds, d), kinds, d.referenceKey, k);
      AppendedEntry(reg, kinds, d, k);
      CountPositive(kinds, k);
      if k !in kinds {
        assert Entry(reg, k) + Repeat(d, 0) == Entry(reg, k);
      } else {
        var old_ := Entry(reg, k);
        var rep := Repeat(d, Count(kinds, k));
        WithoutSplits(old_, rep, d.referenceKey);
        WithoutAbsent(old_, d.referenceKey);
        WithoutAll(rep, d.referenceKey);
      }
    }
    DispatchByEntries(after, reg, events);
  }

  /** So the unsubscribed directive is never called again. */
  lemma {:induction false} UnsubscribedNeverCalled(reg: Registry, kinds: seq<EventKind>, d: Directive,
                                                   events: seq<Notification>)
    requires forall k, x :: k in reg && x in reg[k] ==> x.referenceKey != d.referenceKey
    ensures forall c :: c in Dispatch(Removed(Appended(reg, kinds, d), kinds, d.referenceKey), events) ==>
              c.referenceKey != d.referenceKey
  {
    SubscribeUnsubscribeRoundTrip(reg, kinds, d, events);
    forall c | c in Dispatch(reg, events) ensures c.referenceKey != d.referenceKey {
      DispatchFromRegistry(reg, events, c);
    }
  }

  // ---------------------------------------------------------------------------
  // the manager

  class EventManager {
    /** `handlerRegistry` */
    var registry: Registry
    /** Source of fresh reference keys. */
    var nextKey: Key

    ghost predicate Valid()
      reads this
    {
      KeysBelow(registry, nextKey)
    }

    constructor ()
      ensures Valid() && registry == map[] && nextKey == 0
    {
      registry := map[];
      nextKey := 0;
    }

    /** `subscribe(to:for:handler:)`: returns the new directive's key, which no
        directive registered so far carries. */
    method Subscribe(kinds: seq<EventKind>, device: Ble.Option<DeviceId>, handler: HandlerId) returns (key: Key)
      modifies this
      ensures key == old(nextKey) && nextKey == key + 1
      ensures registry == Appended(old(registry), kinds, Directive(key, handler, device))
      ensures old(Valid()) ==> Valid() && forall k, x :: k in old(registry) && x in old(registry)[k] ==> x.referenceKey != key
    {
      key := nextKey;
      nextKey := nextKey + 1;
      var directive := Directive(key, handler, device);
      for i := 0 to |kinds|
        invariant nextKey == key + 1
        invariant registry == Appended(old(registry), kinds[..i], directive)
      {
        var kind := kinds[i];
        if kind !in registry {
          assert Entry(registry, kind) + [directive] == [directive];
          registry := registry[kind := [directive]];
        } else {
          registry := registry[kind := registry[kind] + [directive]];
        }
        assert kinds[..i + 1][..i] == kinds[..i];
      }
      assert kinds[..|kinds|] == kinds;
      if old(Valid()) {
        AppendedKeys(old(registry), kinds, directive, nextKey);
      }
    }

    /** `subscribe(to:handler:)`: a subscription for every device. */
    method SubscribeAll(kinds: seq<EventKind>, handler: HandlerId) returns (key: Key)
      modifies this
      ensures key == old(nextKey) && nextKey == key + 1
      ensures registry == Appended(old(registry), kinds, Directive(key, handler, Ble.None))
      ensures old(Valid()) ==> Valid() && forall k, x :: k in old(registry) && x in old(registry)[k] ==> x.referenceKey != key
    {
      key := Subscribe(kinds, Ble.None, handler);
    }

    /** `unsubscribe(to:referenceKey:)`: an absent key leaves the registry as it is. */
    method Unsubscribe(kinds: seq<EventKind>, referenceKey: Ble.Option<Key>)
      modifies this
      ensures nextKey == old(nextKey)
      ensures registry == if referenceKey.None? then old(registry) else Removed(old(registry), kinds, referenceKey.value)
      ensures old(Valid()) ==> Valid()
    {
      if referenceKey.None? {
        return;
      }
      var key := referenceKey.value;
      for i := 0 to |kinds|
        invariant nextKey == old(nextKey)
        invariant registry == Removed(old(registry), kinds[..i], key)
      {
        var kind := kinds[i];
        assert kinds[..i + 1][..i] == kinds[..i];
        if kind !in registry {
          continue;
        }
        var updated := Without(registry[kind], key);
        registry := registry[kind := updated];
      }
      assert kinds[..|kinds|] == kinds;
      if old(Valid()) {
        RemovedKeys(old(registry), kinds, key, nextKey);
      }
    }

    /** `report(events:)`: the handler calls made, in order. */
    method Report(events: seq<Notification>) returns (calls: seq<Invocation>)
      ensures calls == Dispatch(registry, events)
    {
      calls := [];
      for i := 0 to |events|
        invariant calls == Dispatch(registry, events[..i])
      {
        var e := events[i];
        assert events[..i + 1][..i] == events[..i];
        if e.kind in registry {
          var ds := registry[e.kind];
          ghost var before := calls;
          for j := 0 to |ds|
            invariant calls == before + Delivered(ds[..j], e)
          {
            var d := ds[j];
            assert ds[..j + 1][..j] == ds[..j];
            if d.device.None? || d.device.value == e.device {
              calls := calls + [Invocation(d.handler, d.referenceKey, e)];
            }
          }
          assert ds[..|ds|] == ds;
        }
      }
      assert events[..|events|] == events;
    }
  }
}

/** A promise reduced to what the request engine relies on: a slot that is
    pending until it is settled once, after which fulfil and reject leave it as
    it is (the behaviour of both the Promises and the PromiseKit libraries). */
module Promises {
  import opened Errors

  datatype Slot<+T> = Pending | Fulfilled(value: T) | Rejected(error: XYBluetoothError)
  {
    predicate Settled() { !Pending? }
  }

  /** `promise.fulfill(v)` */
  function Fulfil<T>(s: Slot<T>, v: T): (r: Slot<T>)
    ensures r.Settled()
    ensures s.Settled() ==> r == s
    ensures s.Pending? ==> r.Fulfilled? && r.value == v
  {
    if s.Pending? then Fulfilled(v) else s
  }

  /** `promise.reject(e)` */
  function Reject<T>(s: Slot<T>, e: XYBluetoothError): (r: Slot<T>)
    ensures r.Settled()
    ensures s.Settled() ==> r == s
    ensures s.Pending? ==> r.Rejected? && r.error == e
  {
    if s.Pending? then Rejected(e) else s
  }

  /** Settles a pending slot with the outcome of another, settled one (how a
      chained promise takes its upstream's result). */
  function Adopt<T>(s: Slot<T>, outcome: Slot<T>): (r: Slot<T>)
    requires outcome.Settled()
    ensures r.Settled()
    ensures s.Settled() ==> r == s
    ensures s.Pending? ==> r == outcome
  {
    if s.Pending? then outcome else s
  }

  /** One attempt to settle a slot. */
  datatype Attempt<T> = DoFulfil(v: T) | DoReject(e: XYBluetoothError)

  function Apply<T>(s: Slot<T>, a: Attempt<T>): Slot<T> {
    match a
    case DoFulfil(v) => Fulfil(s, v)
    case DoReject(e) => Reject(s, e)
  }

  /** The slot after a series of attempts, in order. */
  function ApplyAll<T>(s: Slot<T>, attempts: seq<Attempt<T>>): Slot<T>
    decreases |attempts|
  {
    if attempts == [] then s else ApplyAll(Apply(s, attempts[0]), attempts[1..])
  }

  /** Settlement is first-wins: whatever attempts follow, a settled slot keeps its outcome. */
  lemma {:induction false} SettledIsFinal<T>(s: Slot<T>, attempts: seq<Attempt<T>>)
    requires s.Settled()
    ensures ApplyAll(s, attempts) == s
    decreases |attempts|
  {
    if attempts != [] {
      SettledIsFinal(Apply(s, attempts[0]), attempts[1..]);
    }
  }

  /** A pending slot given at least one attempt takes the outcome of the first
      attempt and keeps it. */
  lemma {:induction false} FirstAttemptWins<T>(attempts: seq<Attempt<T>>)
    requires attempts != []
    ensures ApplyAll(Pending, attempts) == Apply(Pending, attempts[0])
    ensures ApplyAll(Pending, attempts).Settled()
  {
    SettledIsFinal(Apply(Pending, attempts[0]), attempts[1..]);
  }
}

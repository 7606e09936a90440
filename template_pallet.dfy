/**
  The template pallet: one persistent `Accumulation` record under the storage key
  `Acc`, and two dispatchable calls, `set_increment` and `accumulate`, that update it.
  Storage is modelled as the field `acc` of class `Pallet`, the runtime's event log as
  the append-only field `events`. `Step` is the reference transition that the
  dispatchables are proved against.
 */
module TemplatePallet {
  import opened Wrappers

  /** Largest value of Rust's `u128`, 2^128 - 1. */
  const U128_MAX: nat := 0xFFFF_FFFF_FFFF_FFFF_FFFF_FFFF_FFFF_FFFF

  /** An unsigned 128-bit integer. */
  type U128 = x: nat | x <= U128_MAX

  /** The record stored under `Acc`. */
  datatype Accumulation = Accumulation(currentCount: U128, incrementPerCall: U128)

  /** The value `#[derive(Default)]` gives, read from `Acc` before any write. */
  const DefaultAccumulation: Accumulation := Accumulation(0, 0)

  /** The pallet's event: the count just stored and the caller who stored it. */
  datatype Event<AccountId> = Accumulated(count: U128, who: AccountId)

  /** `BadOrigin` is the runtime's error for an unsigned origin; the other is the pallet's own. */
  datatype DispatchError = BadOrigin | AccumulationOverflow

  /** `dispatch::DispatchResult`: `Ok(())` or a dispatch error. */
  datatype DispatchResult = Ok | Err(error: DispatchError)

  /** `u128::checked_add`: the sum when it fits in 128 bits, `None` on overflow. */
  function CheckedAdd(a: U128, b: U128): (r: Option<U128>)
    ensures r.Some? <==> a + b <= U128_MAX
    ensures r.Some? ==> r.value == a + b && a <= r.value && b <= r.value
  {
    if a + b <= U128_MAX then Some(a + b) else None
  }

  /** The two dispatchable calls of the pallet. */
  datatype Call = SetIncrement(increment: U128) | Accumulate

  /** What the pallet owns and publishes: the stored record and the events deposited so far. */
  datatype Snapshot<AccountId> = Snapshot(acc: Accumulation, events: seq<Event<AccountId>>)

  /** The state of a freshly created store: the default record and no events. */
  function Genesis<AccountId>(): (s: Snapshot<AccountId>)
    ensures s.acc.currentCount == 0 && s.acc.incrementPerCall == 0 && s.events == []
  {
    Snapshot(DefaultAccumulation, [])
  }

  /** The state after a dispatch, and what the dispatch returned. */
  datatype Dispatched<AccountId> = Dispatched(after: Snapshot<AccountId>, result: DispatchResult)

  /**
    Reference semantics of dispatching `call` from `origin` (`None` is an unsigned origin).
    The contract states the all-or-nothing rule, the origin check, the checked-overflow
    rule and the write-then-emit rule.
   */
  function Step<AccountId>(s: Snapshot<AccountId>, origin: Option<AccountId>, call: Call): (d: Dispatched<AccountId>)
    // a failed dispatch changes nothing, and an unsigned origin always fails
    ensures d.result.Err? ==> d.after == s
    ensures d.result == Err(BadOrigin) <==> origin.None?
    // a signed set_increment always succeeds and only replaces the increment
    ensures origin.Some? && call.SetIncrement? ==>
              d.result == Ok && d.after == Snapshot(Accumulation(s.acc.currentCount, call.increment), s.events)
    // a signed accumulate fails exactly when the sum leaves the u128 range
    ensures origin.Some? && call.Accumulate? ==>
              (d.result == Err(AccumulationOverflow) <==> s.acc.currentCount + s.acc.incrementPerCall > U128_MAX) &&
              (d.result == Ok <==> s.acc.currentCount + s.acc.incrementPerCall <= U128_MAX)
    // on success it stores count + step, keeps the step, and then emits exactly one event with the stored count
    ensures call.Accumulate? && d.result == Ok ==>
              origin.Some? &&
              d.after.acc == Accumulation(s.acc.currentCount + s.acc.incrementPerCall, s.acc.incrementPerCall) &&
              d.after.events == s.events + [Accumulated(d.after.acc.currentCount, origin.value)]
    // the count never decreases and the event log is append-only
    ensures s.acc.currentCount <= d.after.acc.currentCount
    ensures s.events <= d.after.events
  {
    match origin
    case None => Dispatched(s, Err(BadOrigin))
    case Some(who) =>
      match call
      case SetIncrement(increment) =>
        Dispatched(Snapshot(s.acc.(incrementPerCall := increment), s.events), Ok)
      case Accumulate =>
        match CheckedAdd(s.acc.currentCount, s.acc.incrementPerCall)
        case None => Dispatched(s, Err(AccumulationOverflow))
        case Some(newCount) =>
          var acc := s.acc.(currentCount := newCount);
          Dispatched(Snapshot(acc, s.events + [Accumulated(acc.currentCount, who)]), Ok)
  }

  /** The pallet instance: the `Acc` storage item and the events it has deposited. */
  class Pallet<AccountId> {
    /** Storage item `Acc`. */
    var acc: Accumulation
    /** Events deposited by this pallet, oldest first. */
    var events: seq<Event<AccountId>>

    /** The pallet's observable state. */
    function State(): Snapshot<AccountId>
      reads this
    {
      Snapshot(acc, events)
    }

    /** A fresh store: `Acc` reads as the default record and no event has been deposited. */
    constructor ()
      ensures acc == Accumulation(0, 0) && events == []
      ensures State() == Genesis()
    {
      acc := DefaultAccumulation;
      events := [];
    }

    /** The getter `fn acc()` of the storage item. */
    method Acc() returns (a: Accumulation)
      ensures a == acc
    {
      a := acc;
    }

    /** `set_increment`: a signed caller replaces the increment; the count and the log are untouched. */
    method SetIncrement(origin: Option<AccountId>, increment: U128) returns (r: DispatchResult)
      modifies this
      ensures r == if origin.Some? then Ok else Err(BadOrigin)
      ensures acc == if origin.Some? then Accumulation(old(acc.currentCount), increment) else old(acc)
      ensures events == old(events)
      ensures Dispatched(State(), r) == Step(old(State()), origin, Call.SetIncrement(increment))
    {
      if origin.None? {
        return Err(BadOrigin);
      }
      var a := acc;
      a := a.(incrementPerCall := increment);
      acc := a;
      r := Ok;
    }

    /**
      `accumulate`: a signed caller adds the increment to the count with checked addition.
      On overflow nothing is written and nothing is emitted; otherwise the new record is
      written first and then `Accumulated(new count, caller)` is deposited.
     */
    method Accumulate(origin: Option<AccountId>) returns (r: DispatchResult)
      modifies this
      ensures r == Err(BadOrigin) <==> origin.None?
      ensures origin.Some? ==>
                (r == Err(AccumulationOverflow) <==> old(acc.currentCount) + old(acc.incrementPerCall) > U128_MAX) &&
                (r == Ok <==> old(acc.currentCount) + old(acc.incrementPerCall) <= U128_MAX)
      ensures r.Err? ==> acc == old(acc) && events == old(events)
      ensures r == Ok ==>
                origin.Some? &&
                acc == Accumulation(old(acc.currentCount) + old(acc.incrementPerCall), old(acc.incrementPerCall)) &&
                events == old(events) + [Accumulated(acc.currentCount, origin.value)]
      ensures Dispatched(State(), r) == Step(old(State()), origin, Call.Accumulate)
    {
      if origin.None? {
        return Err(BadOrigin);
      }
      var who := origin.value;
      var a := acc;
      var sum := CheckedAdd(a.currentCount, a.incrementPerCall);
      if sum.None? {
        return Err(AccumulationOverflow);
      }
      a := a.(currentCount := sum.value);
      acc := a;
      events := events + [Accumulated(a.currentCount, who)];
      r := Ok;
    }
  }
}

/**
  Properties of the template pallet over any sequence of dispatches: the count never
  decreases, the event log only grows, and from a fresh store the log always agrees
  with the stored count. Also the worked scenarios of `set_increment` and `accumulate`.
 */
module TemplatePalletRuns {
  import opened Wrappers
  import opened TemplatePallet

  /** One dispatched extrinsic: the origin it was submitted from and the call. */
  datatype Extrinsic<AccountId> = Extrinsic(origin: Option<AccountId>, call: Call)

  /** The state after dispatching `xs` in order, starting from `s`. */
  function Run<AccountId>(s: Snapshot<AccountId>, xs: seq<Extrinsic<AccountId>>): (t: Snapshot<AccountId>)
    ensures s.acc.currentCount <= t.acc.currentCount
    ensures s.events <= t.events
    decreases |xs|
  {
    if xs == [] then s else Run(Step(s, xs[0].origin, xs[0].call).after, xs[1..])
  }

  /** The counts in the log never go down, and the stored count is that of the last event (0 if none). */
  ghost predicate LogTracksCount<AccountId>(s: Snapshot<AccountId>)
  {
    (forall i, j :: 0 <= i < j < |s.events| ==> s.events[i].count <= s.events[j].count) &&
    s.acc.currentCount == (if s.events == [] then 0 else s.events[|s.events| - 1].count)
  }

  lemma GenesisTracksCount<AccountId>()
    ensures LogTracksCount(Genesis<AccountId>())
  {
  }

  /** Any single dispatch keeps the log in step with the stored count. */
  lemma StepKeepsLogTracksCount<AccountId>(s: Snapshot<AccountId>, origin: Option<AccountId>, call: Call)
    requires LogTracksCount(s)
    ensures LogTracksCount(Step(s, origin, call).after)
  {
  }

  /** Any sequence of dispatches keeps the log in step with the stored count. */
  lemma {:induction false} RunKeepsLogTracksCount<AccountId>(s: Snapshot<AccountId>, xs: seq<Extrinsic<AccountId>>)
    requires LogTracksCount(s)
    ensures LogTracksCount(Run(s, xs))
    decreases |xs|
  {
    if xs != [] {
      StepKeepsLogTracksCount(s, xs[0].origin, xs[0].call);
      RunKeepsLogTracksCount(Step(s, xs[0].origin, xs[0].call).after, xs[1..]);
    }
  }

  /**
    From a fresh store, after any sequence of dispatches, every deposited event carries a
    count no larger than the stored one, and the latest event carries exactly the stored count.
   */
  lemma FromGenesisEventsAgreeWithStorage<AccountId>(xs: seq<Extrinsic<AccountId>>)
    ensures var t := Run(Genesis<AccountId>(), xs);
            (forall i :: 0 <= i < |t.events| ==> t.events[i].count <= t.acc.currentCount) &&
            (t.events != [] ==> t.events[|t.events| - 1].count == t.acc.currentCount) &&
            (t.events == [] ==> t.acc.currentCount == 0)
  {
    GenesisTracksCount<AccountId>();
    RunKeepsLogTracksCount(Genesis<AccountId>(), xs);
    var t := Run(Genesis<AccountId>(), xs);
    forall i | 0 <= i < |t.events|
      ensures t.events[i].count <= t.acc.currentCount
    {
      if i < |t.events| - 1 {
        assert t.events[i].count <= t.events[|t.events| - 1].count;
      }
    }
  }

  /** `set_increment` calls alone, whatever their origins, never touch the count and never emit. */
  lemma {:induction false} SetIncrementsLeaveCountAndLog<AccountId>(s: Snapshot<AccountId>, xs: seq<Extrinsic<AccountId>>)
    requires forall i :: 0 <= i < |xs| ==> xs[i].call.SetIncrement?
    ensures Run(s, xs).acc.currentCount == s.acc.currentCount
    ensures Run(s, xs).events == s.events
    decreases |xs|
  {
    if xs != [] {
      SetIncrementsLeaveCountAndLog(Step(s, xs[0].origin, xs[0].call).after, xs[1..]);
    }
  }

  /** Dispatches from unsigned origins, whatever the calls, change nothing. */
  lemma {:induction false} UnsignedRunChangesNothing<AccountId>(s: Snapshot<AccountId>, xs: seq<Extrinsic<AccountId>>)
    requires forall i :: 0 <= i < |xs| ==> xs[i].origin.None?
    ensures Run(s, xs) == s
    decreases |xs|
  {
    if xs != [] {
      UnsignedRunChangesNothing(Step(s, xs[0].origin, xs[0].call).after, xs[1..]);
    }
  }

  /** Two signed `set_increment` calls: the last write wins and the count is kept. */
  lemma SetIncrementLastWriteWins<AccountId>(s: Snapshot<AccountId>, a: AccountId, b: AccountId, x: U128, y: U128)
    ensures Run(s, [Extrinsic(Some(a), SetIncrement(x)), Extrinsic(Some(b), SetIncrement(y))])
            == Snapshot(Accumulation(s.acc.currentCount, y), s.events)
  {
    var xs := [Extrinsic(Some(a), SetIncrement(x)), Extrinsic(Some(b), SetIncrement(y))];
    var s1 := Step(s, Some(a), SetIncrement(x)).after;
    var s2 := Step(s1, Some(b), SetIncrement(y)).after;
    assert xs[1..] == [Extrinsic(Some(b), SetIncrement(y))] && xs[1..][1..] == [];
    assert Run(s, xs) == Run(s1, xs[1..]) == Run(s2, []) == s2;
  }

  /** From a fresh store, `set_increment(5)` then `accumulate` by `u1`, then `accumulate` by `u2`. */
  lemma ScenarioFromGenesis<AccountId>(u1: AccountId, u2: AccountId)
    ensures Step(Genesis<AccountId>(), Some(u1), SetIncrement(5)).after.acc == Accumulation(0, 5)
    ensures var s1 := Step(Genesis<AccountId>(), Some(u1), SetIncrement(5)).after;
            var d2 := Step(s1, Some(u1), Accumulate);
            d2.result == Ok && d2.after == Snapshot(Accumulation(5, 5), [Accumulated(5, u1)])
    ensures var s2 := Snapshot(Accumulation(5, 5), [Accumulated(5, u1)]);
            var d3 := Step(s2, Some(u2), Accumulate);
            d3.result == Ok && d3.after == Snapshot(Accumulation(10, 5), [Accumulated(5, u1), Accumulated(10, u2)])
  {
  }

  /** From `{2^128 - 3, 5}`, `accumulate` overflows and leaves the state as it was. */
  lemma ScenarioOverflow<AccountId>(u: AccountId, log: seq<Event<AccountId>>)
    ensures var s := Snapshot(Accumulation(U128_MAX - 2, 5), log);
            Step(s, Some(u), Accumulate) == Dispatched(s, Err(AccumulationOverflow))
  {
  }

  /**
    The same scenario driven through the pallet's dispatchables, ending with an unsigned
    `accumulate` that is rejected; returns the final record and log.
   */
  method ScenarioOnPallet<AccountId>(u1: AccountId, u2: AccountId)
    returns (acc: Accumulation, events: seq<Event<AccountId>>, last: DispatchResult)
    ensures acc == Accumulation(10, 5)
    ensures events == [Accumulated(5, u1), Accumulated(10, u2)]
    ensures last == Err(BadOrigin)
  {
    var p := new Pallet<AccountId>();
    var r := p.SetIncrement(Some(u1), 5);
    assert r == Ok && p.acc == Accumulation(0, 5) && p.events == [];
    r := p.Accumulate(Some(u1));
    assert r == Ok && p.acc == Accumulation(5, 5) && p.events == [Accumulated(5, u1)];
    r := p.Accumulate(Some(u2));
    assert r == Ok && p.acc == Accumulation(10, 5) && p.events == [Accumulated(5, u1), Accumulated(10, u2)];
    last := p.Accumulate(None);
    acc, events := p.acc, p.events;
  }
}

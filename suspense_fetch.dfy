/**
  The suspense result cache: a module-wide table `resultMap`, keyed by the
  identity of a promise, whose entries go from pending to resolved or
  rejected, and the accessor `suspenseFetch` hands out for reading an entry
  synchronously during a render.

  The first half states the table's steps as functions on maps and proves
  what any history of steps does to the table; the class `ResultCache` at
  the end is the table itself, with one method per thing that changes or
  reads it.
 */
module SuspenseFetch {
  import opened Js

  /** The identity of a promise object. Two promises are the same key only
      when they are the same object, whatever they settle with. */
  type PromiseId = nat

  datatype Status = Pending | Resolved | Rejected

  /** One `resultMap` entry: `{status, result}`. */
  datatype Entry = Entry(status: Status, result: Value)

  /** The entry a first registration inserts: `{status: "pending", result: null}`. */
  const PendingEntry := Entry(Pending, Null)

  /** The entry a completion callback writes: `resolved` with the fulfilment
      value, or `rejected` with the rejection reason. */
  function Terminal(o: Outcome): (e: Entry)
    ensures e.status != Pending
    ensures e.status == Resolved <==> o.Ok?
    ensures o.Ok? ==> e.result == o.value
    ensures o.Err? ==> e.result == o.error
  {
    match o
    case Ok(v) => Entry(Resolved, v)
    case Err(x) => Entry(Rejected, x)
  }

  /** The `pending` promise that one call of `suspenseFetch` chains onto its
      argument: the `serial`-th call made, on promise `source`. Every call
      creates a new one, so two calls never share a handle. */
  datatype Handle = Chain(source: PromiseId, serial: nat)

  /** The closure `suspenseFetch` returns: it remembers the promise it looks up
      and the `pending` handle of the call that created it. */
  datatype Accessor = Accessor(promise: PromiseId, pending: Handle)

  /** What a call of the accessor does: throw the `pending` handle (suspend the
      render), throw the stored error, or return the stored result. */
  datatype Access = Suspend(handle: Handle) | Fail(error: Value) | Ready(value: Value)

  /** The accessor's branch on the entry it looked up, given its own handle. */
  function Observe(e: Entry, h: Handle): (r: Access)
    ensures r.Suspend? <==> e.status == Pending
    ensures r.Suspend? ==> r.handle == h
    ensures r.Fail? <==> e.status == Rejected
    ensures r.Ready? <==> e.status == Resolved
    ensures r.Fail? ==> r.error == e.result
    ensures r.Ready? ==> r.value == e.result
  {
    match e.status
    case Pending => Suspend(h)
    case Rejected => Fail(e.result)
    case Resolved => Ready(e.result)
  }

  /** The table after `suspenseFetch(p)`: a pending entry for `p` when there
      was none, and otherwise the same table. */
  function Registered(m: map<PromiseId, Entry>, p: PromiseId): (r: map<PromiseId, Entry>)
    ensures r.Keys == m.Keys + {p}
    ensures p !in m ==> r[p] == PendingEntry
    ensures forall q :: q in m ==> r[q] == m[q]
  {
    if p in m then m else m[p := PendingEntry]
  }

  /** The table after the completion callbacks for `p` run with outcome `o`.
      Callbacks exist only for a promise that was registered, so settling an
      unregistered promise leaves the table as it is. */
  function Settled(m: map<PromiseId, Entry>, p: PromiseId, o: Outcome): (r: map<PromiseId, Entry>)
    ensures r.Keys == m.Keys
    ensures p in m ==> r[p] == Terminal(o)
    ensures forall q :: q in m && q != p ==> r[q] == m[q]
  {
    if p in m then m[p := Terminal(o)] else m
  }

  /** The two things that change the table. */
  datatype Event = Fetch(p: PromiseId) | Complete(p: PromiseId, outcome: Outcome)

  function Apply(m: map<PromiseId, Entry>, ev: Event): map<PromiseId, Entry> {
    match ev
    case Fetch(p) => Registered(m, p)
    case Complete(p, o) => Settled(m, p, o)
  }

  /** The table after a history of events, oldest first. */
  function Replay(m: map<PromiseId, Entry>, evs: seq<Event>): map<PromiseId, Entry>
    decreases |evs|
  {
    if evs == [] then m else Apply(Replay(m, evs[..|evs| - 1]), evs[|evs| - 1])
  }

  /** The table agrees with how its promises settled: a pending entry holds the
      `null` placeholder, and a terminal entry holds its promise's outcome. */
  ghost predicate Consistent(m: map<PromiseId, Entry>, outcomes: map<PromiseId, Outcome>) {
    forall p :: p in m ==>
      (m[p].status == Pending ==> m[p].result == Null) &&
      (m[p].status != Pending ==> p in outcomes && m[p] == Terminal(outcomes[p]))
  }

  /** Every settlement in the history reports its promise's one outcome: a
      promise settles once, so every callback attached to it sees the same
      value or reason. */
  ghost predicate Honest(evs: seq<Event>, outcomes: map<PromiseId, Outcome>) {
    forall i :: 0 <= i < |evs| && evs[i].Complete? ==>
      evs[i].p in outcomes && outcomes[evs[i].p] == evs[i].outcome
  }

  /** `after` is a possible later state of `before`: no key is deleted and no
      terminal entry changes, so nothing returns to pending and nothing flips
      between resolved and rejected. */
  ghost predicate Successor(before: map<PromiseId, Entry>, after: map<PromiseId, Entry>) {
    before.Keys <= after.Keys &&
    forall p :: p in before && before[p].status != Pending ==> after[p] == before[p]
  }

  /** One honest step keeps the table consistent and only moves it forward. */
  lemma ApplyAdvances(m: map<PromiseId, Entry>, ev: Event, outcomes: map<PromiseId, Outcome>)
    requires Consistent(m, outcomes)
    requires ev.Complete? ==> ev.p in outcomes && outcomes[ev.p] == ev.outcome
    ensures Consistent(Apply(m, ev), outcomes)
    ensures Successor(m, Apply(m, ev))
  {
  }

  /** Replaying a history in two parts is replaying it whole. */
  lemma {:induction false} ReplayConcat(m: map<PromiseId, Entry>, a: seq<Event>, b: seq<Event>)
    ensures Replay(m, a + b) == Replay(Replay(m, a), b)
    decreases |b|
  {
    if b == [] {
      assert a + b == a;
    } else {
      var b' := b[..|b| - 1];
      assert (a + b)[..|a + b| - 1] == a + b';
      assert (a + b)[|a + b| - 1] == b[|b| - 1];
      ReplayConcat(m, a, b');
    }
  }

  /** No history deletes a key. */
  lemma {:induction false} ReplayKeepsKeys(m: map<PromiseId, Entry>, evs: seq<Event>)
    ensures m.Keys <= Replay(m, evs).Keys
    decreases |evs|
  {
    if evs != [] {
      ReplayKeepsKeys(m, evs[..|evs| - 1]);
    }
  }

  /** Any honest history keeps the table consistent and only moves it forward. */
  lemma {:induction false} ReplayAdvances(m: map<PromiseId, Entry>, evs: seq<Event>, outcomes: map<PromiseId, Outcome>)
    requires Consistent(m, outcomes)
    requires Honest(evs, outcomes)
    ensures Consistent(Replay(m, evs), outcomes)
    ensures Successor(m, Replay(m, evs))
    decreases |evs|
  {
    if evs != [] {
      var front := evs[..|evs| - 1];
      var last := evs[|evs| - 1];
      assert Honest(front, outcomes) by {
        forall i | 0 <= i < |front| && front[i].Complete?
          ensures front[i].p in outcomes && outcomes[front[i].p] == front[i].outcome
        {
          assert front[i] == evs[i];
        }
      }
      ReplayAdvances(m, front, outcomes);
      ApplyAdvances(Replay(m, front), last, outcomes);
    }
  }

  /** Status is monotone along a history: the table after any prefix is
      followed by the table after any longer prefix. */
  lemma HistoryMonotone(m: map<PromiseId, Entry>, evs: seq<Event>, outcomes: map<PromiseId, Outcome>, i: nat, j: nat)
    requires Consistent(m, outcomes)
    requires Honest(evs, outcomes)
    requires i <= j <= |evs|
    ensures Successor(Replay(m, evs[..i]), Replay(m, evs[..j]))
  {
    assert evs[..j] == evs[..i] + evs[i..j];
    ReplayConcat(m, evs[..i], evs[i..j]);
    assert Honest(evs[..i], outcomes) by {
      forall k | 0 <= k < i && evs[..i][k].Complete?
        ensures evs[..i][k].p in outcomes && outcomes[evs[..i][k].p] == evs[..i][k].outcome
      {
        assert evs[..i][k] == evs[k];
      }
    }
    assert Honest(evs[i..j], outcomes) by {
      forall k | 0 <= k < j - i && evs[i..j][k].Complete?
        ensures evs[i..j][k].p in outcomes && outcomes[evs[i..j][k].p] == evs[i..j][k].outcome
      {
        assert evs[i..j][k] == evs[i + k];
      }
    }
    ReplayAdvances(m, evs[..i], outcomes);
    ReplayAdvances(Replay(m, evs[..i]), evs[i..j], outcomes);
  }

  /** Once a promise has been fetched its entry stays in the table through
      every later step, so the lookup an accessor makes always finds it. */
  lemma FetchedStaysPresent(m: map<PromiseId, Entry>, evs: seq<Event>, i: nat, j: nat)
    requires i < j <= |evs|
    requires evs[i].Fetch?
    ensures evs[i].p in Replay(m, evs[..j])
  {
    assert evs[..i + 1][..i] == evs[..i];
    assert evs[..j] == evs[..i + 1] + evs[i + 1..j];
    ReplayConcat(m, evs[..i + 1], evs[i + 1..j]);
    ReplayKeepsKeys(Replay(m, evs[..i + 1]), evs[i + 1..j]);
  }

  /** Re-registering a registered promise changes nothing, and once its entry is
      terminal the callbacks a re-registration attaches write back the very
      entry that is already there. */
  lemma RefetchKeepsEntry(m: map<PromiseId, Entry>, outcomes: map<PromiseId, Outcome>, p: PromiseId)
    requires Consistent(m, outcomes)
    requires p in m
    ensures Registered(m, p) == m
    ensures m[p].status != Pending ==> Settled(m, p, outcomes[p]) == m
  {
  }

  /** After a promise's entry turns terminal, every accessor for it, whatever
      its handle and however many steps later, observes exactly the same
      outcome, and that outcome is how the promise settled. */
  lemma {:induction false} TerminalReadStable(m: map<PromiseId, Entry>, evs: seq<Event>, outcomes: map<PromiseId, Outcome>, p: PromiseId, h1: Handle, h2: Handle)
    requires Consistent(m, outcomes)
    requires Honest(evs, outcomes)
    requires p in m && m[p].status != Pending
    ensures p in Replay(m, evs)
    ensures Observe(Replay(m, evs)[p], h2) == Observe(m[p], h1)
    ensures p in outcomes
    ensures outcomes[p].Ok? ==> Observe(m[p], h1) == Ready(outcomes[p].value)
    ensures outcomes[p].Err? ==> Observe(m[p], h1) == Fail(outcomes[p].error)
  {
    ReplayAdvances(m, evs, outcomes);
  }

  /** The table, `resultMap`, with the operations that change and read it. It
      starts empty and lives as long as the program. */
  class ResultCache {
    /** `resultMap` */
    var entries: map<PromiseId, Entry>
    /** How many times `suspenseFetch` has been called; the serial of the next
        `pending` chain. */
    var calls: nat

    /** The events that produced `entries`, oldest first. */
    ghost var history: seq<Event>
    /** How each promise settled, for those that have. */
    ghost var outcomes: map<PromiseId, Outcome>
    /** Every accessor handed out so far. */
    ghost var issued: set<Accessor>

    ghost predicate Valid()
      reads this
    {
      entries == Replay(map[], history) &&
      Honest(history, outcomes) &&
      Consistent(entries, outcomes) &&
      forall a :: a in issued ==>
        a.promise in entries && a.pending.source == a.promise && a.pending.serial < calls
    }

    constructor ()
      ensures Valid()
      ensures entries == map[] && calls == 0
      ensures history == [] && outcomes == map[] && issued == {}
    {
      entries := map[];
      calls := 0;
      history := [];
      outcomes := map[];
      issued := {};
    }

    /** `suspenseFetch(p)`: insert a pending entry when `p` is absent, chain a
        new `pending` handle onto `p`, and hand out an accessor bound to both. */
    method Register(p: PromiseId) returns (acc: Accessor)
      requires Valid()
      modifies this
      ensures Valid()
      ensures entries == Registered(old(entries), p)
      ensures p in entries
      ensures p !in old(entries) ==> entries[p] == PendingEntry
      ensures p in old(entries) ==> entries[p] == old(entries)[p]
      ensures Successor(old(entries), entries)
      ensures acc == Accessor(p, Chain(p, old(calls))) && acc !in old(issued)
      ensures calls == old(calls) + 1 && issued == old(issued) + {acc}
      ensures history == old(history) + [Fetch(p)] && outcomes == old(outcomes)
    {
      if p !in entries {
        entries := entries[p := PendingEntry];
      }
      acc := Accessor(p, Chain(p, calls));
      calls := calls + 1;
      issued := issued + {acc};
      assert (history + [Fetch(p)])[..|history|] == history;
      history := history + [Fetch(p)];
      ApplyAdvances(old(entries), Fetch(p), outcomes);
    }

    /** Promise `p` settles with `o` and the completion callbacks attached to it
        run: the `.then` callback writes `resolved` with the value, the `.catch`
        callback writes `rejected` with the reason. A promise settles once, so
        every run for the same promise carries the same outcome. */
    method Settle(p: PromiseId, o: Outcome)
      requires Valid()
      requires p in outcomes ==> outcomes[p] == o
      modifies this
      ensures Valid()
      ensures entries == Settled(old(entries), p, o)
      ensures p in old(entries) ==> entries[p] == Terminal(o)
      ensures forall q :: q != p ==> (q in entries <==> q in old(entries))
      ensures forall q :: q in old(entries) && q != p ==> entries[q] == old(entries)[q]
      ensures Successor(old(entries), entries)
      ensures outcomes == old(outcomes)[p := o]
      ensures history == old(history) + [Complete(p, o)]
      ensures calls == old(calls) && issued == old(issued)
    {
      if p in entries {
        entries := entries[p := Terminal(o)];
      }
      ghost var h := history + [Complete(p, o)];
      assert h[..|history|] == history;
      outcomes := outcomes[p := o];
      assert Honest(h, outcomes) by {
        forall i | 0 <= i < |h| && h[i].Complete?
          ensures h[i].p in outcomes && outcomes[h[i].p] == h[i].outcome
        {
          if i < |history| {
            assert h[i] == history[i];
          }
        }
      }
      history := h;
      ApplyAdvances(old(entries), Complete(p, o), outcomes);
    }

    /** A call of the accessor `acc`. The lookup always finds the entry; the
        result depends on that entry alone, and a value or error it reports is
        exactly how the promise settled. */
    method Read(acc: Accessor) returns (r: Access)
      requires Valid()
      requires acc in issued
      ensures acc.promise in entries
      ensures r == Observe(entries[acc.promise], acc.pending)
      ensures r.Suspend? ==> r.handle == acc.pending && entries[acc.promise] == PendingEntry
      ensures r.Ready? ==> acc.promise in outcomes && outcomes[acc.promise] == Ok(r.value)
      ensures r.Fail? ==> acc.promise in outcomes && outcomes[acc.promise] == Err(r.error)
    {
      var e := entries[acc.promise];
      if e.status == Pending {
        r := Suspend(acc.pending);
      } else if e.status == Rejected {
        r := Fail(e.result);
      } else {
        r := Ready(e.result);
      }
    }
  }

  /** A promise fetched for a render and fulfilled with a project. */
  method FulfilledScenario()
  {
    var intro := Obj(map["id" := Str("1"), "name" := Str("Intro to React")]);
    var cache := new ResultCache();

    // Before settlement every call suspends on the call's own handle.
    var getProject := cache.Register(1);
    var r := cache.Read(getProject);
    assert r == Suspend(Chain(1, 0));

    // After fulfilment the accessor returns exactly the value, on every call.
    cache.Settle(1, Ok(intro));
    r := cache.Read(getProject);
    assert r == Ready(intro);
    r := cache.Read(getProject);
    assert r == Ready(intro);

    // Registering the same promise again keeps its resolved entry.
    var again := cache.Register(1);
    assert again.pending != getProject.pending;
    r := cache.Read(again);
    assert r == Ready(intro);
  }

  /** A promise fetched for a render and rejected by a timeout. */
  method RejectedScenario()
  {
    var cache := new ResultCache();
    var getComments := cache.Register(2);
    cache.Settle(2, Err(ErrorObject(RequestTimedOut)));
    var r := cache.Read(getComments);
    assert r == Fail(ErrorObject("Request timed out"));
    r := cache.Read(getComments);
    assert r == Fail(ErrorObject("Request timed out"));
  }

  /** Two distinct promises for the same data are tracked apart. */
  method DistinctPromisesScenario()
  {
    var intro := Obj(map["id" := Str("1"), "name" := Str("Intro to React")]);
    var cache := new ResultCache();
    var first := cache.Register(3);
    var second := cache.Register(4);
    cache.Settle(3, Ok(intro));
    var r := cache.Read(second);
    assert r.Suspend?;
    r := cache.Read(first);
    assert r == Ready(intro);
    cache.Settle(4, Ok(intro));
    r := cache.Read(second);
    assert r == Ready(intro);
    r := cache.Read(first);
    assert r == Ready(intro);
  }
}

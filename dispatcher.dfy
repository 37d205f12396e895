/**
 The watch-event dispatcher of the Prettier component, as a function of the
 pending queue and a batch of events. Each event either purges its
 translated path (an `error` event), cancels the pending marker of its path
 (a path already queued), or queues its path and dispatches a run for it.
 The I/O the dispatcher performs is recorded as a sequence of effects.
 */
module Dispatcher {
  import opened Translator

  /** A watcher notification `{type, path}`. */
  datatype Event = Event(kind: string, path: string)

  /** The I/O the component performs, in the order it performs it:
      `Run` formats `path` in place and copies it to `destination`, which
      outside watch mode is `path` itself (the copy is onto the file);
      `Purge` removes `target` recursively, tolerating its absence;
      `OnExit` registers a purge of `target` for process exit;
      `Subscribe` starts watching `dir` with `enqueue` as the handler. */
  datatype Effect =
    | Run(path: string, destination: string)
    | Purge(target: string)
    | OnExit(target: string, logLevel: string)
    | Subscribe(dir: string)

  const ErrorKind: string := "error"

  /** The state of the dispatcher after some events, and the effects they caused. */
  datatype Outcome = Outcome(queue: seq<string>, effects: seq<Effect>)

  /** No path is queued twice. */
  ghost predicate NoDup(q: seq<string>)
  {
    forall i, j :: 0 <= i < j < |q| ==> q[i] != q[j]
  }

  /** `Array.prototype.indexOf`: the first index holding `x`, or -1. */
  function IndexOf(q: seq<string>, x: string): (r: int)
    ensures -1 <= r < |q|
    ensures r == -1 <==> x !in q
    ensures r != -1 ==> q[r] == x && x !in q[..r]
  {
    if q == [] then -1
    else if q[0] == x then 0
    else
      var k := IndexOf(q[1..], x);
      if k == -1 then -1
      else
        assert q[..k + 1] == [q[0]] + q[1..][..k];
        k + 1
  }

  /** `queue.splice(i, 1)`. */
  function RemoveAt(q: seq<string>, i: nat): seq<string>
    requires i < |q|
  {
    q[..i] + q[i + 1..]
  }

  /** What `enqueue` does with one event. */
  function Step(layout: Layout, q: seq<string>, e: Event): Outcome
  {
    var destination := Translate(layout, e.path);
    var enqueued := IndexOf(q, e.path);
    if e.kind == ErrorKind then Outcome(q, [Purge(destination)])
    else if enqueued != -1 then Outcome(RemoveAt(q, enqueued), [])
    else Outcome(q + [e.path], [Run(e.path, destination)])
  }

  /** What `enqueue` does with a batch: the events in array order. */
  function Batch(layout: Layout, q: seq<string>, events: seq<Event>): Outcome
    decreases |events|
  {
    if events == [] then Outcome(q, [])
    else
      var first := Step(layout, q, events[0]);
      var rest := Batch(layout, first.queue, events[1..]);
      Outcome(rest.queue, first.effects + rest.effects)
  }

  /** The batch from index `i` on is the event at `i`, then the rest. */
  lemma BatchUnfold(layout: Layout, q: seq<string>, events: seq<Event>, i: nat)
    requires i < |events|
    ensures var first := Step(layout, q, events[i]);
      var rest := Batch(layout, first.queue, events[i + 1..]);
      Batch(layout, q, events[i..]) == Outcome(rest.queue, first.effects + rest.effects)
  {
  }

  /** The number of runs dispatched for `p`. */
  function RunCount(effects: seq<Effect>, p: string): nat
  {
    if effects == [] then 0
    else (if effects[0].Run? && effects[0].path == p then 1 else 0) + RunCount(effects[1..], p)
  }

  /** The number of non-error events that name `p`. */
  function Toggles(events: seq<Event>, p: string): nat
  {
    if events == [] then 0
    else (if events[0].kind != ErrorKind && events[0].path == p then 1 else 0) + Toggles(events[1..], p)
  }

  /** Helper: runs are counted additively over consecutive parts of a log. */
  lemma {:induction false} RunCountAppend(a: seq<Effect>, b: seq<Effect>, p: string)
    ensures RunCount(a + b, p) == RunCount(a, p) + RunCount(b, p)
    decreases |a|
  {
    if a == [] {
      assert a + b == b;
    } else {
      assert (a + b)[0] == a[0];
      assert (a + b)[1..] == a[1..] + b;
      RunCountAppend(a[1..], b, p);
    }
  }

  /** An `error` event purges the translated path, dispatches no run and
      leaves the queue as it was. */
  lemma ErrorEvent(layout: Layout, q: seq<string>, e: Event)
    requires e.kind == ErrorKind
    ensures Batch(layout, q, [e]) == Outcome(q, [Purge(Translate(layout, e.path))])
  {
  }

  /** A non-error event for a queued path removes the first occurrence of
      that path, keeps every other entry in its order, and dispatches nothing. */
  lemma DuplicateEvent(layout: Layout, q: seq<string>, e: Event)
    requires e.kind != ErrorKind && e.path in q
    ensures var o := Batch(layout, q, [e]);
      && o.effects == []
      && (exists i :: 0 <= i < |q| && q[i] == e.path && e.path !in q[..i] && o.queue == q[..i] + q[i + 1..])
      && multiset(o.queue) == multiset(q) - multiset{e.path}
  {
    var i := IndexOf(q, e.path);
    assert q == q[..i] + [q[i]] + q[i + 1..];
  }

  /** A non-error event for a path not in the queue appends the path and
      dispatches exactly one run, to the translated path. */
  lemma NewEvent(layout: Layout, q: seq<string>, e: Event)
    requires e.kind != ErrorKind && e.path !in q
    ensures Batch(layout, q, [e]) == Outcome(q + [e.path], [Run(e.path, Translate(layout, e.path))])
  {
  }

  /** Handling `a + b` is handling `a`, then `b` from the queue `a` left,
      with the effects in that order. */
  lemma {:induction false} BatchConcat(layout: Layout, q: seq<string>, a: seq<Event>, b: seq<Event>)
    ensures var first := Batch(layout, q, a);
      var second := Batch(layout, first.queue, b);
      Batch(layout, q, a + b) == Outcome(second.queue, first.effects + second.effects)
    decreases |a|
  {
    if a == [] {
      assert a + b == b;
    } else {
      assert (a + b)[0] == a[0];
      assert (a + b)[1..] == a[1..] + b;
      BatchConcat(layout, Step(layout, q, a[0]).queue, a[1..], b);
    }
  }

  lemma StepNoDup(layout: Layout, q: seq<string>, e: Event)
    requires NoDup(q)
    ensures NoDup(Step(layout, q, e).queue)
  {
  }

  /** A batch never queues a path twice. */
  lemma {:induction false} BatchNoDup(layout: Layout, q: seq<string>, events: seq<Event>)
    requires NoDup(q)
    ensures NoDup(Batch(layout, q, events).queue)
    decreases |events|
  {
    if events != [] {
      StepNoDup(layout, q, events[0]);
      BatchNoDup(layout, Step(layout, q, events[0]).queue, events[1..]);
    }
  }

  /** Removing an entry other than `p` keeps the membership of `p`. */
  lemma RemoveOther(q: seq<string>, i: nat, p: string)
    requires i < |q| && q[i] != p
    ensures p in RemoveAt(q, i) <==> p in q
  {
  }

  /** With no duplicates, removing the first occurrence of `p` removes `p`. */
  lemma RemoveOnly(q: seq<string>, i: nat)
    requires NoDup(q) && i < |q|
    ensures q[i] !in RemoveAt(q, i)
  {
  }

  /** One event toggles the membership of its own path when it is not an
      error, and keeps that of every other path. */
  lemma StepMembership(layout: Layout, q: seq<string>, e: Event, p: string)
    requires NoDup(q)
    ensures p in Step(layout, q, e).queue <==> ((p in q) != (e.kind != ErrorKind && e.path == p))
  {
  }

  /** Starting from a queue without duplicates, a path is queued after a
      batch exactly when it was queued before and is named by an even number
      of non-error events, or was not and is named by an odd number. */
  lemma {:induction false} BatchMembership(layout: Layout, q: seq<string>, events: seq<Event>, p: string)
    requires NoDup(q)
    ensures p in Batch(layout, q, events).queue <==> ((p in q) != (Toggles(events, p) % 2 == 1))
    decreases |events|
  {
    if events != [] {
      var e := events[0];
      var next := Step(layout, q, e).queue;
      var flip := e.kind != ErrorKind && e.path == p;
      var later := Toggles(events[1..], p);
      assert Toggles(events, p) == (if flip then 1 else 0) + later;
      assert (Toggles(events, p) % 2 == 1) == (flip != (later % 2 == 1));
      StepMembership(layout, q, e, p);
      StepNoDup(layout, q, e);
      BatchMembership(layout, next, events[1..], p);
      assert Batch(layout, q, events).queue == Batch(layout, next, events[1..]).queue;
    }
  }

  /** Events that do not name `p` dispatch no run for `p` and leave its
      membership as it was. */
  lemma {:induction false} BatchAvoiding(layout: Layout, q: seq<string>, events: seq<Event>, p: string)
    requires forall k :: 0 <= k < |events| ==> events[k].path != p
    ensures RunCount(Batch(layout, q, events).effects, p) == 0
    ensures p in Batch(layout, q, events).queue <==> p in q
    decreases |events|
  {
    if events != [] {
      var e := events[0];
      var first := Step(layout, q, e);
      var i := IndexOf(q, e.path);
      if e.kind != ErrorKind && i != -1 { RemoveOther(q, i, p); }
      assert RunCount(first.effects, p) == 0;
      BatchAvoiding(layout, first.queue, events[1..], p);
      RunCountAppend(first.effects, Batch(layout, first.queue, events[1..]).effects, p);
    }
  }

  /** Two non-error events for a path that is not queued, with events in
      between that do not name it, leave the path unqueued and dispatch
      exactly one run for it. */
  lemma Toggle(layout: Layout, q: seq<string>, first: Event, between: seq<Event>, second: Event)
    requires NoDup(q) && first.path !in q
    requires first.kind != ErrorKind && second.kind != ErrorKind && second.path == first.path
    requires forall k :: 0 <= k < |between| ==> between[k].path != first.path
    ensures var o := Batch(layout, q, [first] + between + [second]);
      first.path !in o.queue && RunCount(o.effects, first.path) == 1
  {
    var p := first.path;
    var o1 := Batch(layout, q, [first]);
    NewEvent(layout, q, first);
    assert o1 == Outcome(q + [p], [Run(p, Translate(layout, p))]);
    var o2 := Batch(layout, o1.queue, between);
    var o3 := Batch(layout, o2.queue, [second]);
    assert [second][1..] == [];
    BatchConcat(layout, q, [first], between);
    BatchConcat(layout, q, [first] + between, [second]);
    StepNoDup(layout, q, first);
    BatchNoDup(layout, o1.queue, between);
    BatchAvoiding(layout, o1.queue, between, p);
    RemoveOnly(o2.queue, IndexOf(o2.queue, p));
    assert p !in o3.queue && o3.effects == [];
    RunCountAppend(o1.effects, o2.effects, p);
    RunCountAppend(o1.effects + o2.effects, o3.effects, p);
  }

  /** Every run goes to the translated path of its source path, every purge
      to the translated path of an error event, and a batch causes at most
      as many effects as it has events. */
  lemma {:induction false} BatchEffects(layout: Layout, q: seq<string>, events: seq<Event>)
    ensures var o := Batch(layout, q, events);
      && |o.effects| <= |events|
      && (forall k :: 0 <= k < |o.effects| && o.effects[k].Run? ==>
            o.effects[k].destination == Translate(layout, o.effects[k].path))
      && (forall k :: 0 <= k < |o.effects| && o.effects[k].Purge? ==>
            exists e :: e in events && e.kind == ErrorKind && o.effects[k].target == Translate(layout, e.path))
      && (forall k :: 0 <= k < |o.effects| ==> o.effects[k].Run? || o.effects[k].Purge?)
    decreases |events|
  {
    if events != [] {
      var first := Step(layout, q, events[0]);
      var rest := Batch(layout, first.queue, events[1..]);
      BatchEffects(layout, first.queue, events[1..]);
      var all := first.effects + rest.effects;
      forall k | 0 <= k < |all| && all[k].Purge?
        ensures exists e :: e in events && e.kind == ErrorKind && all[k].target == Translate(layout, e.path)
      {
        if k < |first.effects| {
          assert events[0] in events;
        } else {
          assert all[k] == rest.effects[k - |first.effects|];
          var e :| e in events[1..] && e.kind == ErrorKind && all[k].target == Translate(layout, e.path);
          assert e in events;
        }
      }
    }
  }

  /** Outside watch mode every run a batch dispatches copies a file onto
      itself: its destination is its own path. */
  lemma BuildOnceRunsOntoItself(layout: Layout, q: seq<string>, events: seq<Event>)
    requires !layout.watching
    ensures var o := Batch(layout, q, events);
      forall k :: 0 <= k < |o.effects| && o.effects[k].Run? ==> o.effects[k].destination == o.effects[k].path
  {
    BatchEffects(layout, q, events);
  }
}

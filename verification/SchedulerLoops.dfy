/** What the scheduler's loops have done after some of their turns, told with the functions they compute. */
module SchedulerLoops {
  import opened Generation
  import opened BatchOrder
  import opened SlotTask
  import opened SlotTaskProofs
  import opened Scheduler
  import opened SchedulerInv

  /** The list has no repetitions and names known tasks. */
  ghost predicate Known(ids: seq<nat>, tasks: Tasks) { Distinct(ids) && forall id :: id in ids ==> id in tasks }

  lemma Snoc(ids: seq<nat>, i: nat)
    requires i < |ids|
    ensures ids[..i + 1] == ids[..i] + [ids[i]] && ToSet(ids[..i + 1]) == ToSet(ids[..i]) + {ids[i]}
  {
    assert ids[..i + 1] == ids[..i] + [ids[i]];
    assert forall x :: x in ids[..i + 1] <==> x in ids[..i] || x == ids[i];
  }

  lemma NotBefore(ids: seq<nat>, i: nat)
    requires Distinct(ids) && i < |ids|
    ensures ids[i] !in ids[..i] && ids[i] in ids
  {
  }

  lemma Whole(ids: seq<nat>)
    ensures ids[..|ids|] == ids
  {
  }

  lemma RetireNone(tasks: Tasks, why: Outcome)
    ensures RetireAll(tasks, {}, why) == tasks && RetireAll(tasks, ToSet([]), why) == tasks
  {
    assert ToSet([]) == {};
  }

  lemma RetireOne(tasks: Tasks, done: set<nat>, id: nat, why: Outcome)
    requires id in tasks && id !in done
    ensures RetireAll(tasks, done, why)[id] == tasks[id]
    ensures RetireAll(tasks, done + {id}, why) == RetireAll(tasks, done, why)[id := Retire(tasks[id], why)]
  {
  }

  lemma {:induction false} WithoutSnoc(ids: seq<nat>, x: nat, gone: set<nat>)
    ensures Without(ids + [x], gone) == Without(ids, gone) + if x in gone then [] else [x]
  {
    if ids == [] {
      assert [] + [x] == [x] && [x][1..] == [];
    } else {
      assert (ids + [x])[1..] == ids[1..] + [x];
      WithoutSnoc(ids[1..], x, gone);
    }
  }

  lemma {:induction false} WithoutTwice(ids: seq<nat>, a: set<nat>, b: set<nat>)
    ensures Without(Without(ids, a), b) == Without(ids, a + b)
  {
    if ids == [] {
    } else {
      WithoutTwice(ids[1..], a, b);
      if ids[0] !in a {
        var rest := Without(ids[1..], a);
        assert ([ids[0]] + rest)[0] == ids[0] && ([ids[0]] + rest)[1..] == rest;
      }
    }
  }

  lemma {:induction false} WithoutNone(ids: seq<nat>)
    ensures Without(ids, {}) == ids && Without(ids, ToSet([])) == ids
  {
    assert ToSet([]) == {};
    if ids == [] {
    } else {
      WithoutNone(ids[1..]);
    }
  }

  // ---- the loops on lists ----

  /** One std::remove and erase for each identifier. */
  method EraseAll(ids: seq<nat>, gone: seq<nat>) returns (r: seq<nat>)
    ensures r == Without(ids, ToSet(gone))
  {
    r := ids;
    WithoutNone(ids);
    var i := 0;
    while i < |gone|
      invariant i <= |gone| && r == Without(ids, ToSet(gone[..i]))
    {
      WithoutTwice(ids, ToSet(gone[..i]), {gone[i]});
      Snoc(gone, i);
      r := Without(r, {gone[i]});
      i := i + 1;
    }
    Whole(gone);
  }

  /** Frees the samplers of the tasks and pushes their done events. */
  method RetireList(tasks: Tasks, ids: seq<nat>, why: Outcome) returns (r: Tasks)
    requires Known(ids, tasks)
    ensures r == RetireAll(tasks, ToSet(ids), why)
  {
    r := tasks;
    RetireNone(tasks, why);
    var i := 0;
    while i < |ids|
      invariant i <= |ids| && r == RetireAll(tasks, ToSet(ids[..i]), why)
    {
      NotBefore(ids, i);
      RetireOne(tasks, ToSet(ids[..i]), ids[i], why);
      Snoc(ids, i);
      var t := r[ids[i]];
      if t.sampler.live > 0 {
        t := t.(sampler := Sampler(0, t.sampler.freed + t.sampler.live));
      }
      r := r[ids[i] := t.(events := t.events + [Done(why)])];
      i := i + 1;
    }
    Whole(ids);
  }

  // ---- the top of a turn ----

  lemma ClearOne(tasks: Tasks, ids: seq<nat>, i: nat)
    requires Known(ids, tasks) && i < |ids|
    ensures ids[i] in tasks && ClearDrafts(tasks, ids[..i])[ids[i]] == tasks[ids[i]]
    ensures ClearDrafts(tasks, ids[..i + 1])
         == ClearDrafts(tasks, ids[..i])[ids[i] := tasks[ids[i]].(place := tasks[ids[i]].place.(draft := [], specRows := []))]
  {
    NotBefore(ids, i);
    Snoc(ids, i);
  }

  lemma {:induction false} LiveOfCleared(tasks: Tasks, ids: seq<nat>, all: seq<nat>)
    ensures LiveOf(ClearDrafts(tasks, all), ids) == LiveOf(tasks, ids)
    decreases |ids|
  {
    if ids == [] {
    } else {
      LiveOfCleared(tasks, ids[..|ids| - 1], all);
    }
  }

  lemma LiveOfSnoc(tasks: Tasks, ids: seq<nat>, i: nat)
    requires i < |ids|
    ensures LiveOf(tasks, ids[..i + 1]) == LiveOf(tasks, ids[..i]) + if Flagged(Get(tasks, ids[i])) then [] else [ids[i]]
  {
    Snoc(ids, i);
    assert ids[..i + 1][..i] == ids[..i];
  }

  /** Clears last turn's drafts and collects the tasks that nobody wants cancelled or stopped. */
  method OpenTurn(tasks: Tasks, ids: seq<nat>) returns (r: Tasks, runnable: seq<nat>)
    requires Known(ids, tasks)
    ensures r == ClearDrafts(tasks, ids) && runnable == LiveOf(r, ids)
  {
    r, runnable := tasks, [];
    assert ClearDrafts(tasks, ids[..0]) == tasks;
    var i := 0;
    while i < |ids|
      invariant i <= |ids| && r == ClearDrafts(tasks, ids[..i]) && runnable == LiveOf(tasks, ids[..i])
    {
      ClearOne(tasks, ids, i);
      LiveOfSnoc(tasks, ids, i);
      var t := r[ids[i]];
      r := r[ids[i] := t.(place := t.place.(draft := [], specRows := []))];
      if !Flagged(t) {
        runnable := runnable + [ids[i]];
      }
      i := i + 1;
    }
    Whole(ids);
    LiveOfCleared(tasks, ids, ids);
  }
}

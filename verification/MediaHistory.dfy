/** Finished media jobs and the limits on how many of them, and how many bytes, are kept. */
module MediaHistory {

  /** The name of an output file: what it is made of is what it is. */
  datatype File = File(stem: string, id: nat, index: nat, extension: string)

  datatype Output = Output(file: File, bytes: nat)

  datatype Job = Job(running: bool, outputs: seq<Output>)

  type Jobs = map<nat, Job>

  const MAX_JOBS := 100
  const MAX_BYTES := 2147483648
  const UINT64_MAX := 18446744073709551615

  function OutputBytes(os: seq<Output>): nat { if os == [] then 0 else os[0].bytes + OutputBytes(os[1..]) }

  predicate Below(jobs: Jobs, n: nat) { forall id | id in jobs :: id < n }

  /** The bytes of all jobs with identifiers below n. */
  function Bytes(jobs: Jobs, n: nat): nat {
    if n == 0 then 0 else Bytes(jobs, n - 1) + if n - 1 in jobs then OutputBytes(jobs[n - 1].outputs) else 0
  }

  lemma {:induction false} BytesWithout(jobs: Jobs, id: nat, n: nat)
    requires id in jobs
    ensures Bytes(jobs, n) == Bytes(jobs - {id}, n) + if id < n then OutputBytes(jobs[id].outputs) else 0
  {
    if n == 0 {
    } else {
      BytesWithout(jobs, id, n - 1);
    }
  }

  predicate Over(jobs: Jobs, n: nat) { |jobs| > MAX_JOBS || Bytes(jobs, n) > MAX_BYTES }

  /** The least identifier from k on, below n, of a job that is not running, or n. */
  function Oldest(jobs: Jobs, k: nat, n: nat): (r: nat)
    requires k <= n
    ensures k <= r <= n && (r < n ==> r in jobs && !jobs[r].running)
    ensures forall id | k <= id < r && id in jobs :: jobs[id].running
    decreases n - k
  {
    if k == n || (k in jobs && !jobs[k].running) then k else Oldest(jobs, k + 1, n)
  }

  function Files(os: seq<Output>): seq<File> { seq(|os|, i requires 0 <= i < |os| => os[i].file) }

  /** The jobs that stay, and the files of those that go, oldest first. */
  function Prune(jobs: Jobs, n: nat): (r: (Jobs, seq<File>))
    decreases |jobs|
  {
    var id := Oldest(jobs, 0, n);
    if !Over(jobs, n) || id == n then (jobs, [])
    else
      SmallerWithout(jobs, id);
      var r := Prune(jobs - {id}, n);
      (r.0, Files(jobs[id].outputs) + r.1)
  }

  lemma SmallerWithout(jobs: Jobs, id: nat)
    requires id in jobs
    ensures |jobs - {id}| < |jobs|
  {
    assert (jobs - {id}).Keys == jobs.Keys - {id};
    assert |jobs.Keys - {id}| < |jobs.Keys|;
  }

  /** The running jobs, and the others from t on. */
  ghost function Above(jobs: Jobs, t: nat): Jobs { map id | id in jobs && (jobs[id].running || id >= t) :: jobs[id] }

  /** Some cut t by identifier tells what stays: no more is dropped than the limits demand, nor less. */
  ghost predicate RightCut(jobs: Jobs, n: nat, kept: Jobs, t: nat) {
    && kept == Above(jobs, t)
    && (!Over(kept, n) || forall id | id in kept :: kept[id].running)
    && forall u | 0 <= u <= t :: Above(jobs, u) == kept || Over(Above(jobs, u), n)
  }

  lemma CutBelow(jobs: Jobs, n: nat, id: nat, u: nat)
    requires id == Oldest(jobs, 0, n) < n
    ensures u <= id ==> Above(jobs, u) == jobs
    ensures u > id ==> Above(jobs, u) == Above(jobs - {id}, u)
    ensures Above(jobs - {id}, u) == jobs - {id} || u > id + 1
  {
    if u <= id {
      assert Above(jobs, u) == jobs;
    } else {
      assert Above(jobs, u) == Above(jobs - {id}, u);
    }
    if u <= id + 1 {
      assert Above(jobs - {id}, u) == jobs - {id};
    }
  }

  lemma {:induction false} PruneCuts(jobs: Jobs, n: nat) returns (t: nat)
    requires Below(jobs, n)
    ensures RightCut(jobs, n, Prune(jobs, n).0, t)
    decreases |jobs|
  {
    var id := Oldest(jobs, 0, n);
    if !Over(jobs, n) || id == n {
      t := 0;
      assert Above(jobs, 0) == jobs;
    } else {
      SmallerWithout(jobs, id);
      var s := PruneCuts(jobs - {id}, n);
      t := if s > id then s else id + 1;
      forall u | 0 <= u <= t ensures Above(jobs, u) == Prune(jobs, n).0 || Over(Above(jobs, u), n) {
        CutBelow(jobs, n, id, u);
      }
      CutBelow(jobs, n, id, t);
      CutBelow(jobs, n, id, s);
    }
  }

  ghost predicate Owned(jobs: Jobs) {
    forall id, i | id in jobs && 0 <= i < |jobs[id].outputs| :: jobs[id].outputs[i].file.id == id
  }

  /** The files named by the jobs. */
  ghost predicate Names(jobs: Jobs, f: File) { f.id in jobs && f in Files(jobs[f.id].outputs) }

  lemma {:induction false} PruneRetires(jobs: Jobs, n: nat)
    requires Owned(jobs)
    ensures var r := Prune(jobs, n);
            && r.0.Keys <= jobs.Keys && (forall id | id in r.0 :: r.0[id] == jobs[id]) && Owned(r.0)
            && forall f :: f in r.1 <==> Names(jobs, f) && f.id !in r.0
    decreases |jobs|
  {
    var id := Oldest(jobs, 0, n);
    if Over(jobs, n) && id < n {
      SmallerWithout(jobs, id);
      var less := jobs - {id};
      PruneRetires(less, n);
      var r := Prune(less, n);
      forall f ensures f in Files(jobs[id].outputs) + r.1 <==> Names(jobs, f) && f.id !in r.0 {
        if f in Files(jobs[id].outputs) {
          assert f.id == id;
        }
        assert f.id != id ==> (Names(less, f) <==> Names(jobs, f));
      }
    }
  }

  /** Pruning: a running job always stays; what is dropped is older than any other job that stays; at the end the
      limits hold or only running jobs are left; and nothing is dropped if the limits hold already. */
  lemma PruneKeepsTheNewest(jobs: Jobs, n: nat)
    requires Below(jobs, n)
    ensures var kept := Prune(jobs, n).0;
            && kept.Keys <= jobs.Keys && (forall id | id in kept :: kept[id] == jobs[id])
            && (forall id | id in jobs && jobs[id].running :: id in kept)
            && (forall d, k | d in jobs && d !in kept && k in kept && !kept[k].running :: d < k)
            && (!Over(kept, n) || forall id | id in kept :: kept[id].running)
            && (!Over(jobs, n) ==> kept == jobs)
  {
    var t := PruneCuts(jobs, n);
  }

  // ---- the loops ----

  /** history_bytes_locked: saturates instead of wrapping; the jobs come in any order. */
  method HistoryBytes(jobs: Jobs, n: nat) returns (total: nat)
    requires Below(jobs, n)
    ensures total == if Bytes(jobs, n) > UINT64_MAX then UINT64_MAX else Bytes(jobs, n)
  {
    total := 0;
    var rest := jobs;
    while |rest| > 0
      invariant rest.Keys <= jobs.Keys && forall id | id in rest :: rest[id] == jobs[id]
      invariant total <= UINT64_MAX && total + Bytes(rest, n) == Bytes(jobs, n)
      decreases |rest|
    {
      var id :| id in rest;
      BytesWithout(rest, id, n);
      SmallerWithout(rest, id);
      var outputs := rest[id].outputs;
      var k := 0;
      while k < |outputs|
        invariant k <= |outputs| && total <= UINT64_MAX
        invariant total + OutputBytes(outputs[k..]) + Bytes(rest - {id}, n) == Bytes(jobs, n)
      {
        assert outputs[k..][1..] == outputs[k + 1..];
        if UINT64_MAX - total < outputs[k].bytes {
          return UINT64_MAX;
        }
        total := total + outputs[k].bytes;
        k := k + 1;
      }
      rest := rest - {id};
    }
    EmptyBytes(rest, n);
  }

  lemma {:induction false} EmptyBytes(jobs: Jobs, n: nat)
    requires |jobs| == 0
    ensures Bytes(jobs, n) == 0
  {
    assert jobs.Keys == {};
    if n == 0 {
    } else {
      EmptyBytes(jobs, n - 1);
    }
  }

  /** The inner loop of prune: the oldest job that is not running; the jobs come in any order. */
  method FindOldest(jobs: Jobs, n: nat) returns (found: bool, oldest: nat)
    requires Below(jobs, n)
    ensures found <==> Oldest(jobs, 0, n) < n
    ensures found ==> oldest == Oldest(jobs, 0, n)
  {
    found, oldest := false, 0;
    var rest := jobs.Keys;
    while rest != {}
      invariant rest <= jobs.Keys
      invariant found ==> oldest in jobs && !jobs[oldest].running
      invariant forall id | id in jobs && id !in rest && !jobs[id].running :: found && oldest <= id
      decreases |rest|
    {
      var id :| id in rest;
      rest := rest - {id};
      if jobs[id].running {
        continue;
      }
      if !found || id < oldest {
        found, oldest := true, id;
      }
    }
  }
}

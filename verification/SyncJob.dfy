/** The synchroniser itself (internal/synchronizer/syncjob.go): a pass proved
    against the function in module SyncPass, and its buffer against the history
    of attempts. */
module SyncJob {
  import opened Wrappers
  import opened FailureBuffer
  import opened SyncPass
  import Observer

  /** The labelled jobs, as the API server holds them. */
  class KubeClient {
    const fates: Fates
    var jobs: map<string, Item>
    var calls: nat
    var done: nat

    constructor (fates: Fates)
      ensures jobs == map[] && calls == 0 && done == 0 && this.fates == fates
    {
      this.fates := fates;
      jobs, calls, done := map[], 0, 0;
    }

    ghost predicate Valid()
      reads this
    {
      SelfNamed(jobs)
    }

    // The items come in no particular order.
    method List() returns (items: seq<Item>)
      requires Valid()
      ensures Lists(items, jobs)
    {
      items := [];
      var names := jobs.Keys;
      while names != {}
        invariant names <= jobs.Keys
        invariant forall i, j :: 0 <= i < j < |items| ==> items[i].name != items[j].name
        invariant forall it :: it in items ==> it.name in jobs && it.name !in names && jobs[it.name] == it
        invariant forall n :: n in jobs && n !in names ==> jobs[n] in items
        decreases names
      {
        var n :| n in names;
        names := names - {n};
        items := items + [jobs[n]];
      }
    }

    method Create(it: Item) returns (ok: bool)
      requires Valid()
      modifies this
      ensures Valid()
      ensures var fate := if it.name in old(jobs) then Refused else fates(old(calls));
              && (ok <==> fate.Delivered?)
              && jobs == (if fate.Refused? then old(jobs) else old(jobs)[it.name := it])
              && calls == old(calls) + 1 && done == old(done) + (if fate.Refused? then 0 else 1)
    {
      var fate := if it.name in jobs then Refused else fates(calls);
      ok := fate.Delivered?;
      calls := calls + 1;
      if !fate.Refused? {
        jobs := jobs[it.name := it];
        done := done + 1;
      }
    }

    method Delete(name: string) returns (ok: bool)
      requires Valid()
      modifies this
      ensures Valid()
      ensures var fate := if name !in old(jobs) then Refused else fates(old(calls));
              && (ok <==> fate.Delivered?)
              && jobs == (if fate.Refused? then old(jobs) else old(jobs) - {name})
              && calls == old(calls) + 1 && done == old(done) + (if fate.Refused? then 0 else 1)
    {
      var fate := if name !in jobs then Refused else fates(calls);
      ok := fate.Delivered?;
      calls := calls + 1;
      if !fate.Refused? {
        jobs := jobs - {name};
        done := done + 1;
      }
    }
  }

  class SyncJob {
    const kube: KubeClient
    var createFailedJobs: map<string, PortalJob>
    ghost var attempts: seq<Attempt>

    constructor (kube: KubeClient)
      ensures this.kube == kube && createFailedJobs == map[] && attempts == []
    {
      this.kube := kube;
      createFailedJobs, attempts := map[], [];
    }

    ghost predicate Valid()
      reads this, kube
    {
      kube.Valid() && createFailedJobs == Buffer(attempts)
    }

    function Snapshot(): State
      reads this, kube
    {
      State(kube.jobs, createFailedJobs, kube.calls, kube.done)
    }

    method AddCreateFailedJob(j: PortalJob)
      modifies this`createFailedJobs
      ensures createFailedJobs == Remember(old(createFailedJobs), j)
    {
      if j.name in createFailedJobs {
        return;
      }
      createFailedJobs := createFailedJobs[j.name := j];
    }

    method DeleteCreateFailedJob(name: string)
      modifies this`createFailedJobs
      ensures createFailedJobs == Forget(old(createFailedJobs), name)
    {
      if name !in createFailedJobs {
        return;
      }
      createFailedJobs := createFailedJobs - {name};
    }

    /** The remembered jobs, each once, in the map's own order. */
    method GetCreateFailedJobs() returns (res: seq<PortalJob>)
      requires Valid()
      ensures forall i, j :: 0 <= i < j < |res| ==> res[i].name != res[j].name
      ensures forall j :: j in res <==> j.name in createFailedJobs && createFailedJobs[j.name] == j
      ensures forall n :: n in createFailedJobs ==> createFailedJobs[n] in res && createFailedJobs[n].name == n
    {
      BufferSelfNamed(attempts);
      res := [];
      var names := createFailedJobs.Keys;
      while names != {}
        invariant names <= createFailedJobs.Keys
        invariant forall i, j :: 0 <= i < j < |res| ==> res[i].name != res[j].name
        invariant forall j :: j in res ==>
                  j.name in createFailedJobs && j.name !in names && createFailedJobs[j.name] == j
        invariant forall n :: n in createFailedJobs && n !in names ==> createFailedJobs[n] in res
        decreases names
      {
        var n :| n in names;
        names := names - {n};
        res := res + [createFailedJobs[n]];
      }
    }

    /** One pass.  A listing that fails leaves everything as it is. */
    method Start(listOk: bool, portal: Option<seq<PortalJob>>) returns (items: seq<Item>)
      requires Valid()
      modifies this, kube
      ensures Valid()
      ensures !listOk || portal.None? ==> Snapshot() == old(Snapshot()) && attempts == old(attempts)
      ensures listOk && portal.Some? ==>
                && Lists(items, old(kube.jobs))
                && Snapshot() == Pass(old(Snapshot()), items, portal.value, kube.fates)
                && attempts == old(attempts) + Attempts(old(Snapshot()), portal.value, NamesOf(items), kube.fates)
    {
      items := [];
      if !listOk {
        return;
      }
      items := kube.List();
      if portal.None? {
        return;
      }
      CreateLoop(items, portal.value);
      DeleteLoop(items, portal.value);
    }

    method CreateLoop(items: seq<Item>, portal: seq<PortalJob>)
      requires Valid()
      modifies this, kube
      ensures Valid()
      ensures Snapshot() == CreateAll(old(Snapshot()), portal, NamesOf(items), kube.fates)
      ensures attempts == old(attempts) + Attempts(old(Snapshot()), portal, NamesOf(items), kube.fates)
    {
      hide JobTypeCheck, Buffer;
      ghost var st := Snapshot();
      ghost var listed := NamesOf(items);
      for i := 0 to |portal|
        invariant kube.Valid()
        invariant Snapshot() == CreateAll(st, portal[..i], listed, kube.fates)
        invariant attempts == old(attempts) + Attempts(st, portal[..i], listed, kube.fates)
      {
        assert portal[..i + 1][..i] == portal[..i];
        var job := portal[i];
        var listedAlready := IsListed(items, job.name);
        if !listedAlready {
          var ok := false;
          var jobType := JobTypeCheck(job.jobType);
          if jobType.None? {
            AddCreateFailedJob(job);
          } else {
            ok := kube.Create(NewItem(job));
            if !ok {
              AddCreateFailedJob(job);
            } else {
              DeleteCreateFailedJob(job.name);
            }
          }
          attempts := attempts + [Attempt(job, ok)];
        }
      }
      assert portal[..|portal|] == portal;
      CreateAllExtendsHistory(st, portal, listed, kube.fates, old(attempts));
    }

    method IsListed(items: seq<Item>, name: string) returns (found: bool)
      ensures found <==> name in NamesOf(items)
    {
      found := false;
      for i := 0 to |items|
        invariant found <==> exists h :: 0 <= h < i && items[h].name == name
      {
        if items[i].name == name {
          found := true;
        }
      }
      if found {
        assert exists h :: 0 <= h < |items| && items[h].name == name && items[h] in items;
      }
    }

    method IsAssigned(portal: seq<PortalJob>, name: string) returns (found: bool)
      ensures found <==> Assigned(portal, name)
    {
      found := false;
      for i := 0 to |portal|
        invariant found <==> exists h :: 0 <= h < i && portal[h].name == name
      {
        if portal[i].name == name {
          found := true;
        }
      }
      if found {
        assert exists h :: 0 <= h < |portal| && portal[h].name == name && portal[h] in portal;
      }
    }

    method DeleteLoop(items: seq<Item>, portal: seq<PortalJob>)
      requires Valid()
      modifies kube
      ensures Valid()
      ensures Snapshot() == DeleteAll(old(Snapshot()), items, portal, kube.fates).0
    {
      ghost var st := Snapshot();
      for i := 0 to |items|
        invariant kube.Valid()
        invariant createFailedJobs == old(createFailedJobs) && attempts == old(attempts)
        invariant (Snapshot(), false) == DeleteAll(st, items[..i], portal, kube.fates)
      {
        assert items[..i + 1][..i] == items[..i];
        var it := items[i];
        var status, _ := Observer.ParseStatus(it.conditions);
        if Observer.Settled(status) {
          continue;
        }
        var wanted := IsAssigned(portal, it.name);
        if !wanted {
          var ok := kube.Delete(it.name);
          if !ok {
            StoppedStays(st, items, portal, kube.fates, i + 1);
            return;
          }
        }
      }
      assert items[..|items|] == items;
    }
  }

  lemma {:induction false} BufferSelfNamed(log: seq<Attempt>)
    ensures forall n :: n in Buffer(log) ==> Buffer(log)[n].name == n
  {
    if log != [] {
      BufferSelfNamed(log[..|log| - 1]);
    }
  }
}

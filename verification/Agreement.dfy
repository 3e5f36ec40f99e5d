/** The reconciler and the synchroniser read the same statuses: over every run
    they agree on which jobs have come to an end. */
module Agreement {
  import opened Wrappers
  import opened Conditions
  import opened Cluster
  import Observer
  import StatusShape
  import Lifecycle
  import LifecycleHistory
  import FailureBuffer
  import SyncPass
  import SyncProtocol
  import ReconcileMachine
  import ReconcileLaws

  lemma WellFormedAgreed(s: Status)
    requires StatusShape.WellFormed(s)
    ensures Observer.Settled(Observer.Parsed(s.conditions).0) <==> IsFinished(s.conditions)
  {
    Observer.ReadersAgreeExactly(s.conditions);
  }

  /** Of every version ever stored the observer reports Failed, Succeeded,
      ModelUploading or ModelUploaded exactly when the reconciler takes the job
      for finished. */
  lemma ReadersAgreeInRuns(c: Config, s0: Status, es: seq<Lifecycle.Event>, i: nat)
    requires LifecycleHistory.Initial(s0) && i < |Lifecycle.Run(c, s0, es).store|
    ensures var cs := Lifecycle.Run(c, s0, es).store[i].conditions;
            Observer.Settled(Observer.Parsed(cs).0) <==> IsFinished(cs)
  {
    hide Lifecycle.Run, StatusShape.WellFormed, Observer.Parsed;
    LifecycleHistory.StoredStatusInvariant(c, s0, es, i);
    WellFormedAgreed(Lifecycle.Run(c, s0, es).store[i]);
  }

  /** Hence no pass of the synchroniser deletes a job whose listed status, any
      version the reconciler ever stored, had finished, wanted or not. */
  lemma FinishedJobsAreKept(c: Config, s0: Status, es: seq<Lifecycle.Event>, i: nat,
                            st: SyncPass.State, items: seq<FailureBuffer.Item>, portal: seq<FailureBuffer.PortalJob>,
                            fates: SyncPass.Fates, name: string)
    requires LifecycleHistory.Initial(s0) && i < |Lifecycle.Run(c, s0, es).store|
    requires SyncPass.Lists(items, st.jobs) && name in st.jobs
    requires st.jobs[name].conditions == Lifecycle.Run(c, s0, es).store[i].conditions
    requires IsFinished(st.jobs[name].conditions)
    ensures var t := SyncPass.Pass(st, items, portal, fates); name in t.jobs && t.jobs[name] == st.jobs[name]
  {
    hide Lifecycle.Run, SyncPass.Pass, Observer.Parsed;
    ReadersAgreeInRuns(c, s0, es, i);
    SyncPass.PassTouchesOnly(st, items, portal, fates);
  }

  // ------------------------------------------------- the interleaved synchroniser

  // The conditions of some version stored in some life of a job.
  ghost predicate StoredSomewhere(cs: seq<Condition>) {
    exists c, s0, life, v: nat ::
      && LifecycleHistory.Initial(s0) && v < |Lifecycle.Run(c, s0, life).store|
      && Lifecycle.Run(c, s0, life).store[v].conditions == cs
  }

  // The statuses that appear in a run of the synchroniser are the reconciler's.
  ghost predicate StatusesStored(es: seq<SyncProtocol.Event>) {
    forall e :: e in es && e.StatusChanges? ==> StoredSomewhere(e.conditions)
  }

  ghost predicate Agreed(cs: seq<Condition>) {
    Observer.Settled(Observer.Parsed(cs).0) <==> IsFinished(cs)
  }

  ghost predicate JobsAgreed(sys: SyncProtocol.System) {
    forall n :: n in sys.jobs ==> Agreed(sys.jobs[n].conditions)
  }

  lemma StoredAgreed(cs: seq<Condition>)
    requires StoredSomewhere(cs)
    ensures Agreed(cs)
  {
    hide Lifecycle.Run, Observer.Parsed, LifecycleHistory.Initial;
    var c, s0, life, v: nat :|
      && LifecycleHistory.Initial(s0) && v < |Lifecycle.Run(c, s0, life).store|
      && Lifecycle.Run(c, s0, life).store[v].conditions == cs;
    ReadersAgreeInRuns(c, s0, life, v);
  }

  lemma NewItemAgreed(j: FailureBuffer.PortalJob)
    requires FailureBuffer.HasKnownType(j)
    ensures Agreed(FailureBuffer.NewItem(j).conditions)
  {
  }

  lemma JobsAgreedStep(sys: SyncProtocol.System, e: SyncProtocol.Event)
    requires JobsAgreed(sys) && (e.StatusChanges? ==> StoredSomewhere(e.conditions))
    ensures JobsAgreed(SyncProtocol.Apply(sys, e))
  {
    hide Agreed, StoredSomewhere, FailureBuffer.HasKnownType, FailureBuffer.NewItem, SyncPass.Keeps, SyncPass.Lists;
    match e
    case StatusChanges(_, conditions) => StoredAgreed(conditions);
    case Sync(_) =>
      var p := sys.pc;
      if p.Creating? && p.i < |p.portal| && FailureBuffer.HasKnownType(p.portal[p.i]) {
        NewItemAgreed(p.portal[p.i]);
      }
    case _ =>
  }

  lemma {:induction false} JobsAgreedRun(es: seq<SyncProtocol.Event>)
    requires StatusesStored(es)
    ensures JobsAgreed(SyncProtocol.Run(SyncProtocol.EMPTY, es))
  {
    hide SyncProtocol.Apply, JobsAgreed, StoredSomewhere;
    if es == [] {
      NoJobsAgreed();
    } else {
      JobsAgreedRun(es[..|es| - 1]);
      JobsAgreedStep(SyncProtocol.Run(SyncProtocol.EMPTY, es[..|es| - 1]), es[|es| - 1]);
    }
  }

  lemma NoJobsAgreed()
    ensures JobsAgreed(SyncProtocol.EMPTY)
  {
  }

  lemma StatusesStoredBefore(es: seq<SyncProtocol.Event>, k: nat)
    requires StatusesStored(es) && k <= |es|
    ensures StatusesStored(es[..k])
  {
    hide StoredSomewhere;
  }

  /** Step by step, too: in every interleaving with readers, users, the portal and
      the reconciler, a job the synchroniser removes had not finished, by the
      reconciler's own test, when the pass in progress listed it.  What its status
      became since makes no difference. */
  lemma RemovedWasUnfinished(es: seq<SyncProtocol.Event>, fate: Fate, name: string) returns (k: nat)
    requires StatusesStored(es)
    requires var sys := SyncProtocol.Run(SyncProtocol.EMPTY, es);
             name in sys.jobs && name !in SyncProtocol.SyncStep(sys, fate).jobs
    ensures SyncProtocol.ListedAt(es, k, SyncProtocol.ListedItems(SyncProtocol.Run(SyncProtocol.EMPTY, es).pc))
    ensures var listed := SyncProtocol.Run(SyncProtocol.EMPTY, es[..k]).jobs;
            name in listed && !IsFinished(listed[name].conditions)
  {
    hide SyncProtocol.Run, SyncProtocol.SyncStep, SyncProtocol.ListedItems, Observer.Parsed, StatusesStored, IsFinished;
    k := SyncProtocol.RemovedWasUnsettled(es, fate, name);
    StatusesStoredBefore(es, k);
    JobsAgreedRun(es[..k]);
  }

  // ------------------------------------------------------- time limits and reports

  /** The portal's view of a stored status: whether the job is over, and whether it
      failed, is reported truly exactly when the job is within its time limit or
      has failed.  Past the limit a running job is reported succeeded and every
      other one failed. */
  lemma ReportAgreesExactly(s: Status, j: Observer.Job)
    requires StatusShape.WellFormed(s) && j.conditions == s.conditions
    ensures var cs, told := s.conditions, Observer.Reported(j).0;
            (Observer.Settled(told) <==> IsFinished(cs)) && (told.Failed? <==> IsFailed(cs))
            <==> !j.overdue || IsFailed(cs)
    ensures var cs, told := s.conditions, Observer.Reported(j).0;
            told.Succeeded?
            <==> if j.overdue then IsStatusConditionTrue(cs, Running)
                 else
                   && IsSucceeded(cs)
                   && !IsStatusConditionTrue(cs, ModelUploading) && !IsStatusConditionTrue(cs, ModelUploaded)
  {
    hide Observer.Parsed, Observer.LastCondition, Observer.Settled;
    var cs := s.conditions;
    WellFormedAgreed(s);
    StatusShape.WellFormedMeans(s);
    Observer.ParsedInOrder(cs);
    LastTrueIsTrue(cs, Failed);
    LastTrueIsTrue(cs, Running);
    LastTrueIsTrue(cs, Succeeded);
    LastTrueIsTrue(cs, ModelUploading);
    LastTrueIsTrue(cs, ModelUploaded);
    SettledKinds();
  }

  lemma SettledKinds()
    ensures Observer.Settled(Failed) && Observer.Settled(Succeeded) && !Observer.Settled(Running)
  {
  }

  lemma LastTrueIsTrue(cs: seq<Condition>, k: Kind)
    requires Distinct(cs)
    ensures Observer.LastTrue(cs, k) <==> IsStatusConditionTrue(cs, k)
  {
    Observer.LastIsFirst(cs, k);
  }

  /** So it is of every version ever stored, in every run. */
  lemma ReportsAgreeInRuns(c: Config, s0: Status, es: seq<Lifecycle.Event>, i: nat, name: string, overdue: bool)
    requires LifecycleHistory.Initial(s0) && i < |Lifecycle.Run(c, s0, es).store|
    ensures var cs := Lifecycle.Run(c, s0, es).store[i].conditions;
            var told := Observer.Reported(Observer.Job(name, cs, overdue)).0;
            (Observer.Settled(told) <==> IsFinished(cs)) && (told.Failed? <==> IsFailed(cs))
            <==> !overdue || IsFailed(cs)
  {
    hide Lifecycle.Run, StatusShape.WellFormed, Observer.Reported, Observer.Settled, IsFinished, IsFailed;
    LifecycleHistory.StoredStatusInvariant(c, s0, es, i);
    var s := Lifecycle.Run(c, s0, es).store[i];
    ReportAgreesExactly(s, Observer.Job(name, s.conditions, overdue));
  }

  /** A run that shows it: the training job succeeds, the success is stored, and
      once the time limit has passed the portal is told that the job failed. */
  lemma SucceededReportedFailed() returns (c: Config, s0: Status, es: seq<Lifecycle.Event>, j: Observer.Job)
    ensures LifecycleHistory.Initial(s0)
    ensures var store := Lifecycle.Run(c, s0, es).store;
            |store| == 2 && IsSucceeded(store[1].conditions) && j.conditions == store[1].conditions
    ensures Observer.Reported(j).0.Failed? && Observer.ReportOf(j).status == "failed"
  {
    hide Lifecycle.Run, Observer.Reported, Observer.ReportOf, VerdictOf, ReconcileMachine.Recorded;
    c := Config(Spec("a", PyTorch, "", 0, "", 0, "", "", "", "", false, 1, 8), 3);
    s0 := Status([], None, None);
    var base := BaseStatus([BaseCondition("Succeeded", True, "Done", "done", 7, 7)], None, None, Some(7));
    SucceededVerdict(base);
    var s := ReconcileMachine.Recorded(s0, VerdictOf(base), 8);
    es := SucceedingRun(c, s0, base, s);
    ReconcileLaws.RecordedFlags(s0, VerdictOf(base), 8);
    j := Observer.Job("a", s.conditions, true);
    LifecycleHistory.StoredStatusInvariant(c, s0, es, 1);
    OverdueSuccess(s, j);
  }

  lemma SucceededVerdict(base: BaseStatus)
    requires base.conditions == [BaseCondition("Succeeded", True, "Done", "done", 7, 7)]
    ensures VerdictOf(base).JobSucceeded?
  {
  }

  lemma OverdueSuccess(s: Status, j: Observer.Job)
    requires StatusShape.WellFormed(s) && IsSucceeded(s.conditions)
    requires j.conditions == s.conditions && j.overdue
    ensures Observer.Reported(j).0.Failed? && Observer.ReportOf(j).status == "failed"
  {
    hide StatusShape.WellFormed, Observer.Parsed;
    ReportAgreesExactly(s, j);
    StatusShape.WellFormedMeans(s);
    assert FailureBuffer.Lower("Failed") == "failed";
  }

  lemma SucceedingRun(c: Config, s0: Status, base: BaseStatus, s: Status) returns (es: seq<Lifecycle.Event>)
    requires c.spec.jobType.PyTorch? && !WantsUpload(c.spec) && s0 == Status([], None, None)
    requires VerdictOf(base).JobSucceeded? && s == ReconcileMachine.Recorded(s0, VerdictOf(base), 8)
    ensures Lifecycle.Run(c, s0, es).store == [s0, s]
  {
    hide VerdictOf, ReconcileMachine.Recorded, Lifecycle.Run;
    var answer := BaseJobFound(PyTorchJob(base));
    es := [Lifecycle.Begin(0), Lifecycle.Deliver(0, 0, None),
           Lifecycle.Answer(0, answer, 8), Lifecycle.Write(0, Delivered)];
    FourEvents(c, s0, es);
    ReconcileLaws.RecordedFlags(s0, VerdictOf(base), 8);
    assert Observed(c.spec, answer) == Some(VerdictOf(base));
    var begun := Lifecycle.Apply(c, Lifecycle.World([s0], map[], []), es[0]);
    var read := Lifecycle.Apply(c, begun, es[1]);
    assert read.workers[0] == ReconcileMachine.FetchBaseJob(ReconcileMachine.Draft(0, s0, s0));
    var recorded := Lifecycle.Apply(c, read, es[2]);
    assert recorded.workers[0] == ReconcileMachine.StoreStatus(ReconcileMachine.Draft(0, s0, s), QUIET);
  }

  lemma FourEvents(c: Config, s0: Status, es: seq<Lifecycle.Event>)
    requires |es| == 4
    ensures Lifecycle.Run(c, s0, es)
            == Lifecycle.Apply(c, Lifecycle.Apply(c, Lifecycle.Apply(c, Lifecycle.Apply(c,
                 Lifecycle.World([s0], map[], []), es[0]), es[1]), es[2]), es[3])
  {
    hide Lifecycle.Apply;
    assert es[..3][..2] == es[..2] && es[..2][..1] == es[..1] && es[..1][..0] == [];
    assert Lifecycle.Run(c, s0, es[..1]) == Lifecycle.Apply(c, Lifecycle.World([s0], map[], []), es[0]);
    assert Lifecycle.Run(c, s0, es[..2]) == Lifecycle.Apply(c, Lifecycle.Run(c, s0, es[..1]), es[1]);
    assert Lifecycle.Run(c, s0, es[..3]) == Lifecycle.Apply(c, Lifecycle.Run(c, s0, es[..2]), es[2]);
  }
}

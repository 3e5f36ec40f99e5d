/** The portal's jobs, the CPodJobs made from them, and the buffer of failed
    creations (internal/synchronizer/syncjob.go). */
module FailureBuffer {
  import opened Wrappers
  import opened Conditions
  import Cluster
  import Sizing

  datatype PortalJob = PortalJob(
    name: string, jobType: string, gpuNumber: int,
    ckptPath: string, ckptVol: int, modelPath: string, modelVol: int,
    datasetPath: string, datasetName: string, pretrainModelPath: string, pretrainModelName: string)

  // A CPodJob carrying the portal's source label.
  datatype Item = Item(name: string, spec: Cluster.Spec, conditions: seq<Condition>)

  // ---------------------------------------------------------------- job types

  // Go's strings.ToLower, as far as it can yield an ASCII letter.
  function LowerChar(c: char): char {
    if 'A' <= c <= 'Z' then c - 'A' + 'a'
    else if c == '\U{0130}' then 'i'
    else if c == '\U{212A}' then 'k'
    else c
  }

  function Lower(s: string): string {
    seq(|s|, i requires 0 <= i < |s| => LowerChar(s[i]))
  }

  function JobTypeCheck(jobType: string): Option<Cluster.JobType> {
    if Lower(jobType) == "mpi" then Some(Cluster.MPI)
    else if Lower(jobType) == "pytorch" then Some(Cluster.PyTorch)
    else None
  }

  predicate HasKnownType(j: PortalJob) {
    JobTypeCheck(j.jobType).Some?
  }

  function NewItem(j: PortalJob): Item
    requires HasKnownType(j)
  {
    Item(j.name,
         Cluster.Spec(j.name, JobTypeCheck(j.jobType).value,
                      j.ckptPath, Sizing.Int32(j.ckptVol), j.modelPath, Sizing.Int32(j.modelVol),
                      j.datasetPath, j.datasetName, j.pretrainModelPath, j.pretrainModelName,
                      true, Sizing.WorkerReplicas(j.gpuNumber), Sizing.Defaulted(Sizing.GpusPerWorker(j.gpuNumber))),
         [])
  }

  // ------------------------------------------------------- the failure buffer

  datatype Attempt = Attempt(job: PortalJob, ok: bool)

  // The first failure stays until a success removes it.
  function Remember(m: map<string, PortalJob>, j: PortalJob): map<string, PortalJob> {
    if j.name in m then m else m[j.name := j]
  }

  function Forget(m: map<string, PortalJob>, name: string): map<string, PortalJob> {
    m - {name}
  }

  /** The buffer after a history of attempts. */
  function Buffer(log: seq<Attempt>): map<string, PortalJob> {
    if log == [] then map[]
    else
      var m, last := Buffer(log[..|log| - 1]), log[|log| - 1];
      if last.ok then Forget(m, last.job.name) else Remember(m, last.job)
  }

  // The attempt that began the unbroken streak of failures `name` is in.
  function Streak(log: seq<Attempt>, name: string): Option<nat> {
    if log == [] then None
    else
      var before, last := Streak(log[..|log| - 1], name), log[|log| - 1];
      if last.job.name != name then before
      else if last.ok then None
      else if before.Some? then before
      else Some(|log| - 1)
  }

  ghost predicate LastAttempt(log: seq<Attempt>, name: string, i: int) {
    0 <= i < |log| && log[i].job.name == name && forall j :: i < j < |log| ==> log[j].job.name != name
  }

  // `s` is a failure, so is everything for this name after it, and the attempt
  // just before it, if there was one, succeeded.
  ghost predicate StreakBegins(log: seq<Attempt>, name: string, s: int) {
    && 0 <= s < |log| && log[s].job.name == name
    && (forall j :: s <= j < |log| && log[j].job.name == name ==> !log[j].ok)
    && (forall j :: LastAttempt(log[..s], name, j) ==> log[j].ok)
  }

  lemma {:induction false} BufferIsStreak(log: seq<Attempt>, name: string)
    ensures name in Buffer(log) <==> Streak(log, name).Some?
    ensures Streak(log, name).Some? ==> Streak(log, name).value < |log|
    ensures name in Buffer(log) ==> Buffer(log)[name] == log[Streak(log, name).value].job
  {
    if log != [] {
      BufferIsStreak(log[..|log| - 1], name);
    }
  }

  lemma {:induction false} StreakMeans(log: seq<Attempt>, name: string)
    ensures Streak(log, name).Some? <==> exists i :: LastAttempt(log, name, i) && !log[i].ok
    ensures Streak(log, name).Some? ==> StreakBegins(log, name, Streak(log, name).value)
  {
    if log != [] {
      var init, n := log[..|log| - 1], |log| - 1;
      StreakMeans(init, name);
      if log[n].job.name == name {
        assert LastAttempt(log, name, n);
        assert forall i :: LastAttempt(log, name, i) ==> i == n;
        if !log[n].ok {
          if Streak(init, name).None? {
            assert log[..n] == init;
            forall j | LastAttempt(init, name, j)
              ensures init[j].ok
            {
            }
          } else {
            var s := Streak(init, name).value;
            assert init[..s] == log[..s];
          }
        }
      } else {
        forall i
          ensures LastAttempt(log, name, i) <==> LastAttempt(init, name, i)
        {
        }
        assert forall i :: LastAttempt(init, name, i) ==> init[i] == log[i];
        if Streak(init, name).Some? {
          var s := Streak(init, name).value;
          assert init[..s] == log[..s];
        }
      }
    }
  }

  /** The buffer tells the history: a name is in it exactly when the last attempt
      to create it failed, with the job of the first failure of the streak. */
  lemma BufferTellsHistory(log: seq<Attempt>, name: string)
    ensures name in Buffer(log) <==> exists i :: LastAttempt(log, name, i) && !log[i].ok
    ensures name in Buffer(log) ==> exists s :: StreakBegins(log, name, s) && Buffer(log)[name] == log[s].job
  {
    BufferIsStreak(log, name);
    StreakMeans(log, name);
  }

  /** A streak has one beginning, so the remembered job is determined. */
  lemma StreakBeginsOnce(log: seq<Attempt>, name: string, s: nat, t: nat)
    requires StreakBegins(log, name, s) && StreakBegins(log, name, t)
    ensures s == t
  {
    if s < t {
      FailureBefore(log, name, s, t);
    } else if t < s {
      FailureBefore(log, name, t, s);
    }
  }

  lemma FailureBefore(log: seq<Attempt>, name: string, s: nat, t: nat)
    requires s < t < |log| && StreakBegins(log, name, s)
    ensures !StreakBegins(log, name, t)
  {
    var j := LastBefore(log[..t], name, s);
    assert LastAttempt(log[..t], name, j) && !log[j].ok;
  }

  lemma {:induction false} LastBefore(log: seq<Attempt>, name: string, s: nat) returns (j: nat)
    requires s < |log| && log[s].job.name == name
    ensures s <= j && LastAttempt(log, name, j)
  {
    var n := |log| - 1;
    if log[n].job.name == name {
      j := n;
    } else {
      j := LastBefore(log[..n], name, s);
    }
  }
}

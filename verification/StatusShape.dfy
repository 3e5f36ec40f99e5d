/** The statuses a job can have, how far along each one is, and what every edit
    the reconciler makes does to both. */
module StatusShape {
  import opened Wrappers
  import opened Conditions
  import opened Cluster
  import opened ReconcileMachine
  import opened ReconcileRepeats

  // What the list says of the types that matter.
  datatype View = View(
    running: Option<Condition>, succeeded: Option<Condition>, uploading: Option<Condition>,
    uploaded: Option<Condition>, failed: Option<Condition>)

  function ViewOf(cs: seq<Condition>): View {
    View(GetCondition(cs, Running), GetCondition(cs, Succeeded), GetCondition(cs, ModelUploading),
         GetCondition(cs, ModelUploaded), GetCondition(cs, Failed))
  }

  predicate IsTrue(c: Option<Condition>) {
    c.Some? && c.value.status.True?
  }

  // The content the reconciler writes for Running and for ModelUploading.
  predicate SaysText(c: Option<Condition>, reason: string, message: string) {
    c.Some? && c.value.status.True? && c.value.reason == reason && c.value.message == message
  }

  predicate FixedRunning(c: Option<Condition>) {
    SaysText(c, "BaseJobRunning", "BaseJob is running")
  }

  predicate FixedUploading(c: Option<Condition>) {
    SaysText(c, "UploadingModel", "modelupload job is running")
  }

  predicate GoodView(v: View) {
    && (v.failed.Some? ==> IsTrue(v.failed))
    && (v.succeeded.Some? ==> IsTrue(v.succeeded))
    && !(v.failed.Some? && v.succeeded.Some?)
    && (v.running.Some? ==>
          if v.failed.Some? || v.succeeded.Some? then v.running.value.status.False? else FixedRunning(v.running))
    && (v.uploading.Some? ==> v.succeeded.Some? && FixedUploading(v.uploading))
    && (v.uploaded.Some? ==> v.succeeded.Some? && v.uploading.None?)
  }

  // None, running, finished, uploading, uploaded or given up.
  function RankOf(v: View): nat {
    if v.uploaded.Some? then 4
    else if v.uploading.Some? then 3
    else if v.succeeded.Some? || v.failed.Some? then 2
    else if v.running.Some? then 1
    else 0
  }

  ghost predicate WellFormed(s: Status) {
    && Distinct(s.conditions)
    && GoodView(ViewOf(s.conditions))
    && (s.startTime.Some? <==> RankOf(ViewOf(s.conditions)) > 0)
  }

  function Rank(s: Status): nat {
    RankOf(ViewOf(s.conditions))
  }

  /** What a reader of the API sees of a well-formed status. */
  lemma WellFormedMeans(s: Status)
    requires WellFormed(s)
    ensures var cs := s.conditions;
            && Distinct(cs)
            && !(IsFailed(cs) && IsSucceeded(cs))
            && (IsFinished(cs) ==> !IsStatusConditionTrue(cs, Running))
            && (Has(cs, ModelUploading) || Has(cs, ModelUploaded) ==> IsSucceeded(cs))
            && !(Has(cs, ModelUploading) && Has(cs, ModelUploaded))
  {
  }

  /** One update of a list that has not failed, on views. */
  function SetView(v: View, c: Condition): View {
    var calmed := v.(running := KeptOption(v.running, c.kind));
    match c.kind
    case Running => v.(running := Some(Stamp(v.running, c)))
    case Succeeded => calmed.(succeeded := Some(Stamp(v.succeeded, c)))
    case Failed => calmed.(failed := Some(Stamp(v.failed, c)))
    case ModelUploading => v.(uploading := Some(Stamp(v.uploading, c)))
    case ModelUploaded => v.(uploaded := Some(Stamp(v.uploaded, c)), uploading := None)
    case _ => v
  }

  lemma ViewAfterSet(cs: seq<Condition>, c: Condition)
    requires !IsFailed(cs)
    ensures var current := GetCondition(cs, c.kind);
            ViewOf(SetCondition(cs, c))
            == if current.Some? && SameContent(current.value, c) then ViewOf(cs) else SetView(ViewOf(cs), c)
  {
    hide SetCondition, FilterOut, Stamp, IsFailed, GetCondition;
    GetAfterSet(cs, c, Running);
    GetAfterSet(cs, c, Succeeded);
    GetAfterSet(cs, c, ModelUploading);
    GetAfterSet(cs, c, ModelUploaded);
    GetAfterSet(cs, c, Failed);
  }

  // ------------------------------------------------------- the edits, one by one

  lemma RecordedShape(s: Status, v: Verdict, now: Time)
    requires WellFormed(s) && !IsFinished(s.conditions)
    ensures var t := Recorded(s, v, now);
            WellFormed(t) && (t == s || Rank(t) > Rank(s)) && !Has(t.conditions, ModelUploaded)
  {
    hide SetCondition, FilterOut, Distinct;
    var c := match v
      case JobFailed(message) => Condition(Failed, True, "BaseJobFailed", message, now)
      case JobSucceeded(reason, message, _) => Condition(Succeeded, True, reason, message, now)
      case InProgress => Condition(Running, True, "BaseJobRunning", "BaseJob is running", now);
    SetKeepsDistinct(s.conditions, c);
    ViewAfterSet(s.conditions, c);
    if v.InProgress? && s.startTime.Some? {
      assert Says(s.conditions, Running, True, "BaseJobRunning", "BaseJob is running");
      RunningAgain(s, now);
    }
  }

  lemma MissingShape(s: Status, reason: string, message: string, now: Time)
    requires WellFormed(s) && !IsFinished(s.conditions)
    ensures var t := Started(Edit(s, Failed, True, reason, message, now), now);
            WellFormed(t) && Rank(t) > Rank(s)
  {
    hide SetCondition, FilterOut, Distinct;
    SetKeepsDistinct(s.conditions, Condition(Failed, True, reason, message, now));
    ViewAfterSet(s.conditions, Condition(Failed, True, reason, message, now));
  }

  lemma UploadingShape(s: Status, now: Time)
    requires WellFormed(s) && IsSucceeded(s.conditions) && !Has(s.conditions, ModelUploaded)
    ensures var t := Uploading(s, now);
            WellFormed(t) && (t == s || Rank(t) > Rank(s)) && !Has(t.conditions, ModelUploaded)
  {
    hide SetCondition, FilterOut, Distinct;
    var c := Condition(ModelUploading, True, "UploadingModel", "modelupload job is running", now);
    SetKeepsDistinct(s.conditions, c);
    ViewAfterSet(s.conditions, c);
    if Has(s.conditions, ModelUploading) {
      UploadingAgain(s, now);
    }
  }

  lemma UploadedShape(s: Status, status: Truth, message: string, now: Time)
    requires WellFormed(s) && IsSucceeded(s.conditions) && !Has(s.conditions, ModelUploaded)
    ensures var t := Edit(s, ModelUploaded, status, "UploadModelSucceed", message, now);
            WellFormed(t) && Rank(t) > Rank(s)
  {
    hide SetCondition, FilterOut, Distinct;
    var c := Condition(ModelUploaded, status, "UploadModelSucceed", message, now);
    SetKeepsDistinct(s.conditions, c);
    ViewAfterSet(s.conditions, c);
  }

  lemma CreatedShape(s: Status, reason: string, message: string, now: Time)
    requires WellFormed(s)
    ensures var t := Edit(s, Created, True, reason, message, now);
            WellFormed(t) && ViewOf(t.conditions) == ViewOf(s.conditions)
  {
    hide FilterOut, Distinct;
    SetKeepsDistinct(s.conditions, Condition(Created, True, reason, message, now));
    if !IsFailed(s.conditions) {
      ViewAfterSet(s.conditions, Condition(Created, True, reason, message, now));
    }
  }
}

/** The observer's reading of a job's status and its summary of the GPUs
    (internal/synchronizer/cpodobserver.go). */
module Observer {
  import opened Wrappers
  import opened Conditions
  import FailureBuffer

  // The last condition of a type wins.
  function LastCondition(cs: seq<Condition>, k: Kind): Option<Condition> {
    if cs == [] then None
    else if cs[|cs| - 1].kind == k then Some(cs[|cs| - 1])
    else LastCondition(cs[..|cs| - 1], k)
  }

  predicate LastTrue(cs: seq<Condition>, k: Kind) {
    LastCondition(cs, k).Some? && LastCondition(cs, k).value.status.True?
  }

  const CHECK_ORDER: seq<Kind> := [ModelUploaded, ModelUploading, Failed, Succeeded, Running, Created]

  // The first type of the given order that is True.
  function FirstTrue(cs: seq<Condition>, order: seq<Kind>): (r: Option<Kind>)
    ensures r.Some? ==> LastTrue(cs, r.value)
  {
    if order == [] then None
    else if LastTrue(cs, order[0]) then Some(order[0])
    else FirstTrue(cs, order[1..])
  }

  function Parsed(cs: seq<Condition>): (Kind, string) {
    var first := FirstTrue(cs, CHECK_ORDER);
    if cs == [] then (Created, "no status")
    else if first.None? then (Created, "unknow status")
    else (first.value, LastCondition(cs, first.value).value.message)
  }

  /** The state reported to the portal. */
  method ParseStatus(cs: seq<Condition>) returns (k: Kind, info: string)
    ensures (k, info) == Parsed(cs)
  {
    if |cs| == 0 {
      return Created, "no status";
    }
    var condMap: map<Kind, Condition> := map[];
    for i := 0 to |cs|
      invariant forall u :: u in condMap <==> LastCondition(cs[..i], u).Some?
      invariant forall u :: u in condMap ==> LastCondition(cs[..i], u) == Some(condMap[u])
    {
      assert cs[..i + 1][..i] == cs[..i];
      condMap := condMap[cs[i].kind := cs[i]];
    }
    assert cs[..|cs|] == cs;
    for i := 0 to |CHECK_ORDER|
      invariant FirstTrue(cs, CHECK_ORDER) == FirstTrue(cs, CHECK_ORDER[i..])
    {
      var checker := CHECK_ORDER[i];
      if checker in condMap && condMap[checker].status.True? {
        return checker, condMap[checker].message;
      }
      assert CHECK_ORDER[i..][1..] == CHECK_ORDER[i + 1..];
    }
    return Created, "unknow status";
  }

  // The states in which the synchroniser leaves a job alone.
  predicate Settled(k: Kind) {
    k.Failed? || k.ModelUploaded? || k.Succeeded? || k.ModelUploading?
  }

  lemma {:induction false} LastIsFirst(cs: seq<Condition>, k: Kind)
    requires Distinct(cs)
    ensures LastCondition(cs, k) == GetCondition(cs, k)
  {
    if cs != [] {
      var init, last := cs[..|cs| - 1], cs[|cs| - 1];
      LastIsFirst(init, k);
      assert cs == init + [last];
      GetSnoc(init, last, k, k);
    }
  }

  lemma FirstTrueOf(cs: seq<Condition>, k: Kind, rest: seq<Kind>)
    ensures FirstTrue(cs, [k] + rest) == if LastTrue(cs, k) then Some(k) else FirstTrue(cs, rest)
  {
    assert ([k] + rest)[1..] == rest;
  }

  // The state a job is parsed to, its conditions asked one type after another.
  lemma ParsedInOrder(cs: seq<Condition>)
    ensures Parsed(cs).0
            == if LastTrue(cs, ModelUploaded) then ModelUploaded
               else if LastTrue(cs, ModelUploading) then ModelUploading
               else if LastTrue(cs, Failed) then Failed
               else if LastTrue(cs, Succeeded) then Succeeded
               else if LastTrue(cs, Running) then Running
               else Created
  {
    var tail := [Running, Created];
    FirstTrueOf(cs, Running, [Created]);
    FirstTrueOf(cs, Created, []);
    FirstTrueOf(cs, Succeeded, tail);
    FirstTrueOf(cs, Failed, [Succeeded] + tail);
    FirstTrueOf(cs, ModelUploading, [Failed] + ([Succeeded] + tail));
    FirstTrueOf(cs, ModelUploaded, [ModelUploading] + ([Failed] + ([Succeeded] + tail)));
    assert CHECK_ORDER == [ModelUploaded] + ([ModelUploading] + ([Failed] + ([Succeeded] + tail)));
  }

  lemma ParsedIsKnown(cs: seq<Condition>)
    ensures Parsed(cs).0 in CHECK_ORDER
  {
    hide Parsed;
    ParsedInOrder(cs);
  }

  /** The observer and the reconciler agree that a job with distinct condition
      types has come to an end, exactly when no upload is recorded of a job that
      has not finished. */
  lemma ReadersAgreeExactly(cs: seq<Condition>)
    requires Distinct(cs)
    ensures (Settled(Parsed(cs).0) <==> IsFinished(cs))
            <==> (IsStatusConditionTrue(cs, ModelUploaded) || IsStatusConditionTrue(cs, ModelUploading)
                  ==> IsFinished(cs))
  {
    hide Parsed;
    ParsedInOrder(cs);
    LastIsFirst(cs, ModelUploaded);
    LastIsFirst(cs, ModelUploading);
    LastIsFirst(cs, Failed);
    LastIsFirst(cs, Succeeded);
  }

  // ----------------------------------------------------------- reported states

  // `overdue` is the clock's verdict on a job with a time limit.
  datatype Job = Job(name: string, conditions: seq<Condition>, overdue: bool)
  datatype Report = Report(name: string, status: string, info: string)

  function KindName(k: Kind): string {
    match k
    case Created => "Created"
    case Running => "Running"
    case Succeeded => "Succeeded"
    case ModelUploading => "ModelUploading"
    case ModelUploaded => "ModelUploaded"
    case Failed => "Failed"
    case Other(name) => name
  }

  // The state reported for a job.  Past its time limit a job still running
  // counts as succeeded, any other as failed.
  function Reported(j: Job): (Kind, string) {
    if !j.overdue then Parsed(j.conditions)
    else if Parsed(j.conditions).0.Running? then (Succeeded, "timeup when running")
    else (Failed, "timeup job not running")
  }

  function ReportOf(j: Job): Report {
    var (status, info) := Reported(j);
    Report(j.name, FailureBuffer.Lower(KindName(status)), info)
  }

  method GetJobStates(jobs: seq<Job>) returns (stats: seq<Report>)
    ensures |stats| == |jobs| && forall i :: 0 <= i < |jobs| ==> stats[i] == ReportOf(jobs[i])
  {
    hide Parsed;
    stats := [];
    for i := 0 to |jobs|
      invariant |stats| == i && forall h :: 0 <= h < i ==> stats[h] == ReportOf(jobs[h])
    {
      var status, info := ParseStatus(jobs[i].conditions);
      if jobs[i].overdue {
        if status.Running? {
          info, status := "timeup when running", Succeeded;
        } else {
          info, status := "timeup job not running", Failed;
        }
      }
      stats := stats + [Report(jobs[i].name, FailureBuffer.Lower(KindName(status)), info)];
    }
  }

  /** A job is parsed to a state for a condition of that type that is True, the
      last of its type, with its message; or to Created, with a remark. */
  lemma ParsedSpelledOut(cs: seq<Condition>)
    ensures var (k, info) := Parsed(cs);
            || (exists i :: 0 <= i < |cs| && cs[i].kind == k && cs[i].status.True? && cs[i].message == info
                            && forall h :: i < h < |cs| ==> cs[h].kind != k)
            || (k == Created && info == if cs == [] then "no status" else "unknow status")
    ensures (exists k :: k in CHECK_ORDER && LastTrue(cs, k)) ==> LastTrue(cs, Parsed(cs).0)
  {
    ParsedInOrder(cs);
    var first := FirstTrue(cs, CHECK_ORDER);
    if first.Some? {
      var i := LastIndex(cs, first.value);
    }
  }

  lemma {:induction false} LastIndex(cs: seq<Condition>, k: Kind) returns (i: nat)
    requires LastCondition(cs, k).Some?
    ensures i < |cs| && cs[i].kind == k && LastCondition(cs, k) == Some(cs[i])
    ensures forall h :: i < h < |cs| ==> cs[h].kind != k
  {
    if cs[|cs| - 1].kind == k {
      i := |cs| - 1;
    } else {
      i := LastIndex(cs[..|cs| - 1], k);
    }
  }

  /** A report carries its job's name, the name of its state in lower case, and
      what was parsed with the state, or why the time limit put another in its
      place. */
  lemma ReportSpelledOut(j: Job)
    ensures ReportOf(j).name == j.name
    ensures ReportOf(j).status == match Reported(j).0
                                  case Created => "created"
                                  case Running => "running"
                                  case Succeeded => "succeeded"
                                  case ModelUploading => "modeluploading"
                                  case ModelUploaded => "modeluploaded"
                                  case Failed => "failed"
                                  case Other(name) => FailureBuffer.Lower(name)
    ensures ReportOf(j).info == if !j.overdue then Parsed(j.conditions).1
                                else if Parsed(j.conditions).0.Running? then "timeup when running"
                                else "timeup job not running"
  {
    hide Parsed;
    assert FailureBuffer.Lower("Created") == "created";
    assert FailureBuffer.Lower("Running") == "running";
    assert FailureBuffer.Lower("Succeeded") == "succeeded";
    assert FailureBuffer.Lower("ModelUploading") == "modeluploading";
    assert FailureBuffer.Lower("ModelUploaded") == "modeluploaded";
    assert FailureBuffer.Lower("Failed") == "failed";
  }

  lemma LowerNamesDiffer(k: Kind, l: Kind)
    requires k in CHECK_ORDER && l in CHECK_ORDER
    requires FailureBuffer.Lower(KindName(k)) == FailureBuffer.Lower(KindName(l))
    ensures k == l
  {
    assert |FailureBuffer.Lower(KindName(k))| == |KindName(k)|;
    assert |FailureBuffer.Lower(KindName(l))| == |KindName(l)|;
    assert FailureBuffer.Lower(KindName(k))[0] == FailureBuffer.LowerChar(KindName(k)[0]);
    assert FailureBuffer.Lower(KindName(l))[0] == FailureBuffer.LowerChar(KindName(l)[0]);
  }

  /** Lower case loses nothing: the portal can tell the state from its name. */
  lemma ReportTellsState(i: Job, j: Job)
    ensures ReportOf(i).status == ReportOf(j).status <==> Reported(i).0 == Reported(j).0
  {
    hide Parsed, KindName;
    ParsedIsKnown(i.conditions);
    ParsedIsKnown(j.conditions);
    if ReportOf(i).status == ReportOf(j).status {
      LowerNamesDiffer(Reported(i).0, Reported(j).0);
    }
  }

  // ------------------------------------------------------------ GPU summaries

  datatype Node = Node(vendor: string, prod: string, total: int, allocatable: int)
  datatype Summary = Summary(vendor: string, prod: string, total: int, allocatable: int)

  type Key = (string, string)

  function KeyOf(n: Node): Key { (n.vendor, n.prod) }

  function SummaryKey(s: Summary): Key { (s.vendor, s.prod) }

  function TotalOf(nodes: seq<Node>, k: Key): int {
    if nodes == [] then 0
    else TotalOf(nodes[..|nodes| - 1], k)
         + if KeyOf(nodes[|nodes| - 1]) == k then nodes[|nodes| - 1].total else 0
  }

  function AllocatableOf(nodes: seq<Node>, k: Key): int {
    if nodes == [] then 0
    else AllocatableOf(nodes[..|nodes| - 1], k)
         + if KeyOf(nodes[|nodes| - 1]) == k then nodes[|nodes| - 1].allocatable else 0
  }

  function SumNodes(nodes: seq<Node>): (int, int) {
    if nodes == [] then (0, 0)
    else
      var rest, n := SumNodes(nodes[..|nodes| - 1]), nodes[|nodes| - 1];
      (rest.0 + n.total, rest.1 + n.allocatable)
  }

  function SumSummaries(ss: seq<Summary>): (int, int) {
    if ss == [] then (0, 0)
    else
      var rest, s := SumSummaries(ss[..|ss| - 1]), ss[|ss| - 1];
      (rest.0 + s.total, rest.1 + s.allocatable)
  }

  ghost predicate DistinctKeys(ss: seq<Summary>) {
    forall i, j :: 0 <= i < j < |ss| ==> SummaryKey(ss[i]) != SummaryKey(ss[j])
  }

  ghost function NodeKeys(nodes: seq<Node>): set<Key> {
    set n | n in nodes :: KeyOf(n)
  }

  ghost function SummaryKeys(ss: seq<Summary>): set<Key> {
    set s | s in ss :: SummaryKey(s)
  }

  lemma NodeKeysSnoc(nodes: seq<Node>, n: Node)
    ensures NodeKeys(nodes + [n]) == NodeKeys(nodes) + {KeyOf(n)}
  {
    assert forall m :: m in nodes + [n] <==> m in nodes || m == n;
  }

  lemma SummaryKeysSnoc(ss: seq<Summary>, s: Summary)
    ensures SummaryKeys(ss + [s]) == SummaryKeys(ss) + {SummaryKey(s)}
    ensures DistinctKeys(ss) && SummaryKey(s) !in SummaryKeys(ss) ==> DistinctKeys(ss + [s])
  {
    assert forall t :: t in ss + [s] <==> t in ss || t == s;
    assert forall t :: t in ss ==> SummaryKey(t) in SummaryKeys(ss);
  }

  ghost predicate CorrectSums(ss: seq<Summary>, nodes: seq<Node>) {
    forall s :: s in ss ==>
      s.total == TotalOf(nodes, SummaryKey(s)) && s.allocatable == AllocatableOf(nodes, SummaryKey(s))
  }

  // One summary for each key among the nodes, with that key's sums.
  ghost predicate Summarises(ss: seq<Summary>, nodes: seq<Node>) {
    DistinctKeys(ss) && SummaryKeys(ss) == NodeKeys(nodes) && CorrectSums(ss, nodes)
  }

  // The two maps hold the sums of the nodes seen so far.
  ghost predicate Counted(total: map<Key, int>, alloc: map<Key, int>, nodes: seq<Node>) {
    && total.Keys == alloc.Keys == NodeKeys(nodes)
    && (forall k :: k in total ==> total[k] == TotalOf(nodes, k))
    && (forall k :: k in alloc ==> alloc[k] == AllocatableOf(nodes, k))
  }

  // A cluster node, as far as its GPUs go: the product label, the count label and
  // the allocatable quantity.
  datatype KubeNode = KubeNode(product: Option<string>, count: int, allocatable: Option<int>)

  // A node without the product label keeps the zero values.
  function NodeOf(k: KubeNode): Node {
    if k.product.None? then Node("", "", 0, 0)
    else Node("nvidia", k.product.value, k.count, if k.allocatable.Some? then k.allocatable.value else 0)
  }

  function NodesOf(ks: seq<KubeNode>): (r: seq<Node>)
    ensures |r| == |ks| && forall i :: 0 <= i < |ks| ==> r[i] == NodeOf(ks[i])
  {
    seq(|ks|, i requires 0 <= i < |ks| => NodeOf(ks[i]))
  }

  // The count labels of the nodes of one product, added up, and the quantities
  // they can allocate; and the same of all nodes with a product.
  function CountsOf(ks: seq<KubeNode>, product: string): int {
    if ks == [] then 0
    else
      var k := ks[|ks| - 1];
      CountsOf(ks[..|ks| - 1], product) + if k.product == Some(product) then k.count else 0
  }

  function QuantitiesOf(ks: seq<KubeNode>, product: string): int {
    if ks == [] then 0
    else
      var k := ks[|ks| - 1];
      QuantitiesOf(ks[..|ks| - 1], product)
      + if k.product == Some(product) && k.allocatable.Some? then k.allocatable.value else 0
  }

  function AllCounts(ks: seq<KubeNode>): int {
    if ks == [] then 0
    else AllCounts(ks[..|ks| - 1]) + if ks[|ks| - 1].product.Some? then ks[|ks| - 1].count else 0
  }

  function AllQuantities(ks: seq<KubeNode>): int {
    if ks == [] then 0
    else
      var k := ks[|ks| - 1];
      AllQuantities(ks[..|ks| - 1]) + if k.product.Some? && k.allocatable.Some? then k.allocatable.value else 0
  }

  lemma NodesOfInit(ks: seq<KubeNode>)
    requires ks != []
    ensures NodesOf(ks)[..|ks| - 1] == NodesOf(ks[..|ks| - 1])
  {
  }

  lemma {:induction false} LabelsAddUp(ks: seq<KubeNode>, product: string)
    ensures TotalOf(NodesOf(ks), ("nvidia", product)) == CountsOf(ks, product)
    ensures AllocatableOf(NodesOf(ks), ("nvidia", product)) == QuantitiesOf(ks, product)
    ensures SumNodes(NodesOf(ks)) == (AllCounts(ks), AllQuantities(ks))
  {
    if ks != [] {
      NodesOfInit(ks);
      LabelsAddUp(ks[..|ks| - 1], product);
      assert |"nvidia"| != |""|;
    }
  }

  ghost predicate Summarised(ss: seq<Summary>, product: string) {
    exists s :: s in ss && s.vendor == "nvidia" && s.prod == product
  }

  ghost predicate Installed(ks: seq<KubeNode>, product: string) {
    exists k :: k in ks && k.product == Some(product)
  }

  /** The summaries in terms of the nodes' labels: one for each product some node
      has, its total the sum of those nodes' counts, its allocatable the sum of
      their quantities; and over all summaries the sums over all such nodes. */
  lemma SummariesAreOfLabels(ks: seq<KubeNode>, ss: seq<Summary>)
    requires Summarises(ss, NodesOf(ks)) && SumSummaries(ss) == SumNodes(NodesOf(ks))
    ensures forall p :: Summarised(ss, p) <==> Installed(ks, p)
    ensures forall s :: s in ss && s.vendor == "nvidia" ==>
              s.total == CountsOf(ks, s.prod) && s.allocatable == QuantitiesOf(ks, s.prod)
    ensures SumSummaries(ss) == (AllCounts(ks), AllQuantities(ks))
  {
    hide TotalOf, AllocatableOf, SumNodes, SumSummaries, CountsOf, QuantitiesOf, AllCounts, AllQuantities;
    LabelsAddUp(ks, "");
    forall s | s in ss && s.vendor == "nvidia"
      ensures s.total == CountsOf(ks, s.prod) && s.allocatable == QuantitiesOf(ks, s.prod)
    {
      LabelsAddUp(ks, s.prod);
    }
    forall p
      ensures Summarised(ss, p) <==> Installed(ks, p)
    {
      ProductSummarised(ks, ss, p);
    }
  }

  lemma ProductSummarised(ks: seq<KubeNode>, ss: seq<Summary>, p: string)
    requires SummaryKeys(ss) == NodeKeys(NodesOf(ks))
    ensures Summarised(ss, p) <==> Installed(ks, p)
  {
    var key, nodes := ("nvidia", p), NodesOf(ks);
    assert |"nvidia"| != |""|;
    if Summarised(ss, p) {
      var s :| s in ss && s.vendor == "nvidia" && s.prod == p;
      assert SummaryKey(s) in SummaryKeys(ss);
      var n :| n in nodes && KeyOf(n) == key;
      var i :| 0 <= i < |nodes| && nodes[i] == n;
      assert ks[i] in ks;
    }
    if Installed(ks, p) {
      var i :| 0 <= i < |ks| && ks[i].product == Some(p);
      assert nodes[i] in nodes && KeyOf(nodes[i]) == key;
      assert key in SummaryKeys(ss);
    }
  }

  method GetResourceInfo(ks: seq<KubeNode>) returns (nodes: seq<Node>, summaries: seq<Summary>)
    ensures nodes == NodesOf(ks)
    ensures Summarises(summaries, nodes) && SumSummaries(summaries) == SumNodes(nodes)
    ensures forall p :: Summarised(summaries, p) <==> Installed(ks, p)
    ensures forall s :: s in summaries && s.vendor == "nvidia" ==>
              s.total == CountsOf(ks, s.prod) && s.allocatable == QuantitiesOf(ks, s.prod)
    ensures SumSummaries(summaries) == (AllCounts(ks), AllQuantities(ks))
  {
    hide Summarises, SumSummaries, SumNodes, CountsOf, QuantitiesOf, AllCounts, AllQuantities, Summarised, Installed;
    nodes := [];
    for i := 0 to |ks|
      invariant nodes == NodesOf(ks)[..i]
    {
      var t := Node("", "", 0, 0);
      if ks[i].product.Some? {
        t := t.(prod := ks[i].product.value, vendor := "nvidia", total := ks[i].count);
        if ks[i].allocatable.Some? {
          t := t.(allocatable := ks[i].allocatable.value);
        }
      }
      nodes := nodes + [t];
    }
    assert nodes == NodesOf(ks);
    summaries := SummariseGPUs(nodes);
    SummariesAreOfLabels(ks, summaries);
  }

  /** Nodes without GPUs are summarised too, all under the empty key, which is
      there exactly when there is such a node and always counts nothing. */
  lemma PlainNodesUnderEmptyKey(ks: seq<KubeNode>, ss: seq<Summary>)
    requires Summarises(ss, NodesOf(ks))
    ensures ("", "") in SummaryKeys(ss) <==> exists k :: k in ks && k.product.None?
    ensures forall s :: s in ss && SummaryKey(s) == ("", "") ==> s.total == 0 && s.allocatable == 0
  {
    var nodes := NodesOf(ks);
    forall n | n in nodes && KeyOf(n) == ("", "")
      ensures n == Node("", "", 0, 0) && exists k :: k in ks && k.product.None?
    {
      var i :| 0 <= i < |nodes| && nodes[i] == n;
      assert nodes[i] == NodeOf(ks[i]) && |"nvidia"| != |""|;
      assert ks[i] in ks;
    }
    if exists k :: k in ks && k.product.None? {
      var i :| 0 <= i < |ks| && ks[i].product.None?;
      assert nodes[i] in nodes && KeyOf(nodes[i]) == ("", "");
    }
    ZeroNodes(nodes, ("", ""));
  }

  lemma {:induction false} ZeroNodes(nodes: seq<Node>, k: Key)
    requires forall n :: n in nodes && KeyOf(n) == k ==> n.total == 0 && n.allocatable == 0
    ensures TotalOf(nodes, k) == 0 && AllocatableOf(nodes, k) == 0
  {
    if nodes != [] {
      ZeroNodes(nodes[..|nodes| - 1], k);
    }
  }

  /** The statistics of the node list, the map walked in any order. */
  method SummariseGPUs(nodes: seq<Node>) returns (summaries: seq<Summary>)
    ensures Summarises(summaries, nodes)
    ensures SumSummaries(summaries) == SumNodes(nodes)
  {
    hide TotalOf, AllocatableOf, SumSummaries, SumNodes, KeyOf;
    var statTotal: map<Key, int> := map[];
    var statAlloc: map<Key, int> := map[];
    for i := 0 to |nodes|
      invariant Counted(statTotal, statAlloc, nodes[..i])
    {
      var k := KeyOf(nodes[i]);
      CountedSnoc(statTotal, statAlloc, nodes[..i], nodes[i]);
      assert nodes[..i + 1] == nodes[..i] + [nodes[i]];
      statTotal := statTotal[k := (if k in statTotal then statTotal[k] else 0) + nodes[i].total];
      statAlloc := statAlloc[k := (if k in statAlloc then statAlloc[k] else 0) + nodes[i].allocatable];
    }
    assert nodes[..|nodes|] == nodes;
    summaries := [];
    var keys := statTotal.Keys;
    while keys != {}
      invariant keys <= statTotal.Keys
      invariant DistinctKeys(summaries) && CorrectSums(summaries, nodes)
      invariant SummaryKeys(summaries) == statTotal.Keys - keys
      decreases keys
    {
      var k :| k in keys;
      keys := keys - {k};
      var s := Summary(k.0, k.1, statTotal[k], statAlloc[k]);
      SummaryKeysSnoc(summaries, s);
      summaries := summaries + [s];
    }
    SummariesConserve(summaries, nodes);
  }

  lemma CountedSnoc(total: map<Key, int>, alloc: map<Key, int>, nodes: seq<Node>, n: Node)
    requires Counted(total, alloc, nodes)
    ensures var k := KeyOf(n);
            Counted(total[k := (if k in total then total[k] else 0) + n.total],
                    alloc[k := (if k in alloc then alloc[k] else 0) + n.allocatable], nodes + [n])
  {
    NodeKeysSnoc(nodes, n);
    assert (nodes + [n])[..|nodes|] == nodes;
    if KeyOf(n) !in total {
      forall m | m in nodes
        ensures KeyOf(m) != KeyOf(n)
      {
        assert KeyOf(m) in NodeKeys(nodes);
      }
      AbsentKey(nodes, KeyOf(n));
    }
  }

  lemma {:induction false} AbsentKey(nodes: seq<Node>, k: Key)
    requires forall n :: n in nodes ==> KeyOf(n) != k
    ensures TotalOf(nodes, k) == 0 && AllocatableOf(nodes, k) == 0
  {
    if nodes != [] {
      AbsentKey(nodes[..|nodes| - 1], k);
    }
  }

  // The sums of the nodes whose keys are among those of the summaries.
  function SumAmong(nodes: seq<Node>, ss: seq<Summary>): (int, int) {
    if ss == [] then (0, 0)
    else
      var rest, k := SumAmong(nodes, ss[..|ss| - 1]), SummaryKey(ss[|ss| - 1]);
      (rest.0 + TotalOf(nodes, k), rest.1 + AllocatableOf(nodes, k))
  }

  lemma {:induction false} SumAmongIsSum(nodes: seq<Node>, ss: seq<Summary>)
    requires CorrectSums(ss, nodes)
    ensures SumAmong(nodes, ss) == SumSummaries(ss)
  {
    if ss != [] {
      SumAmongIsSum(nodes, ss[..|ss| - 1]);
    }
  }

  // Adding a node adds its numbers once when its key is there, and not at all otherwise.
  lemma {:induction false} SumAmongSnoc(nodes: seq<Node>, n: Node, ss: seq<Summary>)
    requires DistinctKeys(ss)
    ensures var rest := SumAmong(nodes, ss);
            SumAmong(nodes + [n], ss)
            == if KeyOf(n) in SummaryKeys(ss) then (rest.0 + n.total, rest.1 + n.allocatable) else rest
  {
    assert (nodes + [n])[..|nodes|] == nodes;
    if ss != [] {
      var init, last := ss[..|ss| - 1], ss[|ss| - 1];
      assert ss == init + [last];
      SumAmongSnoc(nodes, n, init);
      SummaryKeysSnoc(init, last);
      forall s | s in init
        ensures SummaryKey(s) != SummaryKey(last)
      {
      }
    }
  }

  lemma {:induction false} SumAmongAll(nodes: seq<Node>, ss: seq<Summary>)
    requires DistinctKeys(ss) && NodeKeys(nodes) <= SummaryKeys(ss)
    ensures SumAmong(nodes, ss) == SumNodes(nodes)
  {
    if nodes == [] {
      SumAmongNone(ss);
    } else {
      var init, last := nodes[..|nodes| - 1], nodes[|nodes| - 1];
      assert nodes == init + [last];
      NodeKeysSnoc(init, last);
      SumAmongAll(init, ss);
      SumAmongSnoc(init, last, ss);
    }
  }

  lemma {:induction false} SumAmongNone(ss: seq<Summary>)
    ensures SumAmong([], ss) == (0, 0)
  {
    if ss != [] {
      SumAmongNone(ss[..|ss| - 1]);
    }
  }

  /** Nothing is lost or counted twice: whatever the order, the summaries of a
      node list add up to the nodes. */
  lemma SummariesConserve(ss: seq<Summary>, nodes: seq<Node>)
    requires Summarises(ss, nodes)
    ensures SumSummaries(ss) == SumNodes(nodes)
  {
    SumAmongIsSum(nodes, ss);
    SumAmongAll(nodes, ss);
  }
}

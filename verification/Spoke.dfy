/** What the installed cluster says about itself: internal/monitor/monitor.go. */
module Spoke {
  import opened Base

  datatype VersionCondition = VersionCondition(
    isAvailable: bool,       // its type is Available
    isTrue: bool,
    transition: int,
    reason: string,
    message: string)

  datatype NodeCondition = NodeCondition(
    isReady: bool,           // its type is Ready
    isTrue: bool,
    reason: string,
    message: string)

  datatype Node = Node(name: string, conditions: seq<NodeCondition>)

  /** The three objects that are read from the cluster; None when one cannot be read. */
  datatype Spoke = Spoke(
    start: Option<int>,
    version: Option<seq<VersionCondition>>,
    nodes: Option<seq<Node>>)

  datatype VersionText =
    | StartUnreadable
    | VersionUnreadable
    | StaleData
    | VersionAvailable
    | VersionNotAvailable(reason: string, message: string)
    | NoAvailableCondition

  datatype Complaint = Complaint(node: string, reason: string, message: string)

  datatype NodesText =
    | NotChecked
    | NodesUnreadable
    | NoNodes
    | AllNodesReady
    | NodesNotReady(complaints: seq<Complaint>)

  datatype ClusterInstallStatus = ClusterInstallStatus(installed: bool, version: VersionText, nodes: NodesText)

  // --------------------------------------------------------- in one formula

  const MARGIN := 3600

  /** The cluster version operator has written a condition since shortly before the reconfiguration. */
  predicate OperatorStarted(conditions: seq<VersionCondition>, start: int) {
    exists c :: c in conditions && c.transition > start - MARGIN
  }

  /** Every Ready condition of every node is True. */
  predicate AllReady(nodes: seq<Node>) {
    forall n, c :: n in nodes && c in n.conditions && c.isReady ==> c.isTrue
  }

  /** The first condition of type Available is True. */
  predicate AvailableFirst(conditions: seq<VersionCondition>) {
    exists k ::
      && 0 <= k < |conditions|
      && conditions[k].isAvailable && conditions[k].isTrue
      && forall j :: 0 <= j < k ==> !conditions[j].isAvailable
  }

  predicate IsInstalled(s: Spoke) {
    && s.start.Some? && s.version.Some? && s.nodes.Some?
    && AvailableFirst(s.version.value)
    && OperatorStarted(s.version.value, s.start.value)
    && s.nodes.value != []
    && AllReady(s.nodes.value)
  }

  // ------------------------------------------------------------- the texts

  function VersionReport(conditions: seq<VersionCondition>, start: int): VersionText {
    VersionReportFrom(conditions, 0, OperatorStarted(conditions, start))
  }

  function VersionReportFrom(conditions: seq<VersionCondition>, k: nat, started: bool): VersionText
    requires k <= |conditions|
    decreases |conditions| - k
  {
    if k == |conditions| then NoAvailableCondition
    else if !conditions[k].isAvailable then VersionReportFrom(conditions, k + 1, started)
    else if !started then StaleData
    else if conditions[k].isTrue then VersionAvailable
    else VersionNotAvailable(conditions[k].reason, conditions[k].message)
  }

  function NodeComplaints(name: string, conditions: seq<NodeCondition>): seq<Complaint> {
    if conditions == [] then []
    else
      var c := conditions[|conditions| - 1];
      NodeComplaints(name, conditions[..|conditions| - 1])
      + if c.isReady && !c.isTrue then [Complaint(name, c.reason, c.message)] else []
  }

  function Complaints(nodes: seq<Node>): seq<Complaint> {
    if nodes == [] then []
    else
      var n := nodes[|nodes| - 1];
      Complaints(nodes[..|nodes| - 1]) + NodeComplaints(n.name, n.conditions)
  }

  function NodesReport(nodes: Option<seq<Node>>): NodesText {
    if nodes.None? then NodesUnreadable
    else if nodes.value == [] then NoNodes
    else if Complaints(nodes.value) == [] then AllNodesReady
    else NodesNotReady(Complaints(nodes.value))
  }

  function InstallStatus(s: Spoke): ClusterInstallStatus {
    if s.start.None? then ClusterInstallStatus(false, StartUnreadable, NotChecked)
    else if s.version.None? then ClusterInstallStatus(false, VersionUnreadable, NotChecked)
    else
      var version := VersionReport(s.version.value, s.start.value);
      var nodes := NodesReport(s.nodes);
      ClusterInstallStatus(version == VersionAvailable && nodes == AllNodesReady, version, nodes)
  }

  // --------------------------------------------------- texts and formula agree

  lemma {:induction false} VersionReportMeaning(conditions: seq<VersionCondition>, k: nat, started: bool)
    requires k <= |conditions|
    requires forall j :: 0 <= j < k ==> !conditions[j].isAvailable
    ensures VersionReportFrom(conditions, k, started) == VersionAvailable <==> started && AvailableFirst(conditions)
    decreases |conditions| - k
  {
    if k < |conditions| && !conditions[k].isAvailable {
      VersionReportMeaning(conditions, k + 1, started);
    }
  }

  lemma {:induction false} NoNodeComplaintIff(name: string, conditions: seq<NodeCondition>)
    ensures NodeComplaints(name, conditions) == [] <==> forall c :: c in conditions && c.isReady ==> c.isTrue
  {
    if conditions != [] {
      var rest, c := conditions[..|conditions| - 1], conditions[|conditions| - 1];
      assert conditions == rest + [c];
      NoNodeComplaintIff(name, rest);
    }
  }

  lemma {:induction false} NoComplaintIff(nodes: seq<Node>)
    ensures Complaints(nodes) == [] <==> AllReady(nodes)
  {
    if nodes != [] {
      var rest, n := nodes[..|nodes| - 1], nodes[|nodes| - 1];
      assert nodes == rest + [n];
      NoComplaintIff(rest);
      NoNodeComplaintIff(n.name, n.conditions);
    }
  }

  /** The status says installed exactly when the formula holds. */
  lemma InstalledIff(s: Spoke)
    ensures InstallStatus(s).installed <==> IsInstalled(s)
  {
    if s.version.Some? && s.start.Some? {
      VersionReportMeaning(s.version.value, 0, OperatorStarted(s.version.value, s.start.value));
    }
    if s.nodes.Some? {
      NoComplaintIff(s.nodes.value);
    }
  }

  // -------------------------------------------------- what the texts say

  /** The time of the latest transition. */
  function LatestTransition(conditions: seq<VersionCondition>): int
    requires conditions != []
  {
    var rest, c := conditions[..|conditions| - 1], conditions[|conditions| - 1];
    if rest == [] || LatestTransition(rest) < c.transition then c.transition else LatestTransition(rest)
  }

  lemma {:induction false} LatestIsLargest(conditions: seq<VersionCondition>)
    requires conditions != []
    ensures forall c :: c in conditions ==> c.transition <= LatestTransition(conditions)
    ensures exists c :: c in conditions && c.transition == LatestTransition(conditions)
  {
    var rest, c := conditions[..|conditions| - 1], conditions[|conditions| - 1];
    assert conditions == rest + [c];
    if rest != [] {
      LatestIsLargest(rest);
      var d :| d in rest && d.transition == LatestTransition(rest);
      assert d in conditions;
    }
    assert c in conditions;
  }

  /** Started means that the latest transition is less than an hour older than the reconfiguration, or younger. */
  lemma StartedIff(conditions: seq<VersionCondition>, start: int)
    ensures OperatorStarted(conditions, start) <==> conditions != [] && start < LatestTransition(conditions) + 3600
  {
    if conditions != [] {
      LatestIsLargest(conditions);
    }
  }

  /** The first Available condition alone decides what is said about the version. */
  lemma {:induction false} FirstAvailableDecides(conditions: seq<VersionCondition>, start: int, k: nat)
    requires k <= |conditions| && forall j :: 0 <= j < k ==> !conditions[j].isAvailable
    requires k < |conditions| ==> conditions[k].isAvailable
    ensures VersionReport(conditions, start) ==
              if k == |conditions| then NoAvailableCondition
              else if LatestTransition(conditions) + 3600 <= start then StaleData
              else if conditions[k].isTrue then VersionAvailable
              else VersionNotAvailable(conditions[k].reason, conditions[k].message)
  {
    StartedIff(conditions, start);
    SkipOthers(conditions, 0, k, OperatorStarted(conditions, start));
  }

  lemma {:induction false} SkipOthers(conditions: seq<VersionCondition>, i: nat, k: nat, started: bool)
    requires i <= k <= |conditions| && forall j :: i <= j < k ==> !conditions[j].isAvailable
    ensures VersionReportFrom(conditions, i, started) == VersionReportFrom(conditions, k, started)
    decreases k - i
  {
    if i < k {
      SkipOthers(conditions, i + 1, k, started);
    }
  }

  /** A Ready condition of this node that is not True, as it is complained about. */
  predicate Deserved(c: Complaint, n: Node) {
    exists x :: x in n.conditions && x.isReady && !x.isTrue && c == Complaint(n.name, x.reason, x.message)
  }

  lemma {:induction false} NodeComplaintsExact(name: string, conditions: seq<NodeCondition>, c: Complaint)
    ensures c in NodeComplaints(name, conditions) <==>
              exists x :: x in conditions && x.isReady && !x.isTrue && c == Complaint(name, x.reason, x.message)
  {
    if conditions != [] {
      var rest, x := conditions[..|conditions| - 1], conditions[|conditions| - 1];
      assert conditions == rest + [x];
      NodeComplaintsExact(name, rest, c);
    }
  }

  /** Every node that is not ready is complained about, and no other. */
  lemma {:induction false} ComplaintsExact(nodes: seq<Node>, c: Complaint)
    ensures c in Complaints(nodes) <==> exists n :: n in nodes && Deserved(c, n)
  {
    if nodes != [] {
      var rest, n := nodes[..|nodes| - 1], nodes[|nodes| - 1];
      assert nodes == rest + [n];
      ComplaintsExact(rest, c);
      NodeComplaintsExact(n.name, n.conditions, c);
      assert Deserved(c, n) <==> c in NodeComplaints(n.name, n.conditions);
    }
  }

  /** The whole status, object by object: what could not be read is said, and nothing after it is looked at. */
  lemma StatusSays(s: Spoke)
    ensures var r := InstallStatus(s);
      && (s.start.None? ==> r.version == StartUnreadable && r.nodes == NotChecked)
      && (s.start.Some? && s.version.None? ==> r.version == VersionUnreadable && r.nodes == NotChecked)
      && (s.start.Some? && s.version.Some? ==>
            && r.version == VersionReport(s.version.value, s.start.value)
            && (s.nodes.None? ==> r.nodes == NodesUnreadable)
            && (s.nodes == Some([]) ==> r.nodes == NoNodes)
            && (s.nodes.Some? && s.nodes.value != [] ==>
                  if AllReady(s.nodes.value) then r.nodes == AllNodesReady
                  else && r.nodes.NodesNotReady?
                       && forall c :: c in r.nodes.complaints <==> exists n :: n in s.nodes.value && Deserved(c, n)))
  {
    hide Deserved, AllReady;
    if s.nodes.Some? {
      NoComplaintIff(s.nodes.value);
      forall c ensures c in Complaints(s.nodes.value) <==> exists n :: n in s.nodes.value && Deserved(c, n) {
        ComplaintsExact(s.nodes.value, c);
      }
    }
  }

  // ------------------------------------------------- the code, step by step

  method DidOperatorStart(conditions: seq<VersionCondition>, start: int) returns (r: bool)
    ensures r == OperatorStarted(conditions, start)
  {
    var startTime := start - MARGIN;
    for i := 0 to |conditions|
      invariant forall j :: 0 <= j < i ==> conditions[j].transition <= startTime
    {
      if conditions[i].transition > startTime {
        return true;
      }
    }
    return false;
  }

  method ClusterVersionStatus(conditions: seq<VersionCondition>, start: int)
    returns (available: bool, text: VersionText)
    ensures text == VersionReport(conditions, start)
    ensures available <==> AvailableFirst(conditions) && OperatorStarted(conditions, start)
  {
    VersionReportMeaning(conditions, 0, OperatorStarted(conditions, start));
    for i := 0 to |conditions|
      invariant VersionReport(conditions, start) == VersionReportFrom(conditions, i, OperatorStarted(conditions, start))
    {
      if conditions[i].isAvailable {
        var started := DidOperatorStart(conditions, start);
        if !started {
          return false, StaleData;
        }
        if conditions[i].isTrue {
          return true, VersionAvailable;
        }
        return false, VersionNotAvailable(conditions[i].reason, conditions[i].message);
      }
    }
    return false, NoAvailableCondition;
  }

  method NodesStatus(nodes: Option<seq<Node>>) returns (ready: bool, text: NodesText)
    ensures text == NodesReport(nodes)
    ensures ready <==> nodes.Some? && nodes.value != [] && AllReady(nodes.value)
  {
    if nodes.None? {
      return false, NodesUnreadable;
    }
    if nodes.value == [] {
      return false, NoNodes;
    }
    NoComplaintIff(nodes.value);
    var messages: seq<Complaint> := [];
    ready := true;
    for i := 0 to |nodes.value|
      invariant messages == Complaints(nodes.value[..i])
      invariant ready <==> messages == []
    {
      var node := nodes.value[i];
      for j := 0 to |node.conditions|
        invariant messages == Complaints(nodes.value[..i]) + NodeComplaints(node.name, node.conditions[..j])
        invariant ready <==> messages == []
      {
        var c := node.conditions[j];
        assert node.conditions[..j + 1] == node.conditions[..j] + [c];
        if c.isReady && !c.isTrue {
          messages := messages + [Complaint(node.name, c.reason, c.message)];
          ready := false;
        }
      }
      assert node.conditions[..|node.conditions|] == node.conditions;
      assert nodes.value[..i + 1] == nodes.value[..i] + [node];
    }
    assert nodes.value[..|nodes.value|] == nodes.value;
    text := AllNodesReady;
    if |messages| > 0 {
      text := NodesNotReady(messages);
    }
  }

  method GetClusterInstallStatus(s: Spoke) returns (status: ClusterInstallStatus)
    ensures status == InstallStatus(s)
    ensures status.installed <==> IsInstalled(s)
  {
    InstalledIff(s);
    if s.start.None? {
      return ClusterInstallStatus(false, StartUnreadable, NotChecked);
    }
    if s.version.None? {
      return ClusterInstallStatus(false, VersionUnreadable, NotChecked);
    }
    var available, version := ClusterVersionStatus(s.version.value, s.start.value);
    var ready, nodes := NodesStatus(s.nodes);
    status := ClusterInstallStatus(available && ready, version, nodes);
  }
}

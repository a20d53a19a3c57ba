/**
 * The decision logic of the Pacemaker check (example/check_pacemaker.py).
 *
 * Everything the script learns from the cluster (the local node's status,
 * the resources and their placement, the resource groups, the node list and
 * which daemons run) is one `ClusterState` value given as input; the check
 * turns it into a Xymon message through the builder of module Xymon.
 */
module CheckPacemaker {
  import opened Wrappers
  import opened Text
  import opened Xymon

  const CHECK_SCRIPT: string := "check_pacemaker.py"
  const VERSION: string := "3"
  const CLUSTER_SERVICES: seq<string> := ["corosync", "pacemaker", "pcsd"]
  const SWITCHED: string := " (resources have switched)"

  /** The `node` of a resource: one name, or the list of names when there is not exactly one. */
  datatype Placement = OnNode(name: string) | OnNodes(names: seq<string>)

  datatype Resource = Resource(agent: string, role: string, node: Placement)

  /** The resource dictionary, as (id, resource) pairs in its iteration order. */
  type Resources = seq<(string, Resource)>

  /** The attributes of the local node the check reads; `None` is a missing key. */
  datatype LocalNodeStatus = LocalNodeStatus(
    name: Option<string>,
    online: Option<bool>,
    resourcesRunning: Option<int>)

  /** No two entries share an id, as the keys of a dictionary. */
  predicate UniqueIds(resources: Resources)
  {
    forall i, j :: 0 <= i < j < |resources| ==> resources[i].0 != resources[j].0
  }

  /** What pcs reports about the cluster; `resources` satisfies UniqueIds when read from pcs. */
  datatype ClusterState = ClusterState(
    clusterName: string,
    localNode: LocalNodeStatus,
    resources: Resources,
    groups: map<string, seq<string>>,
    nodes: seq<string>,
    runningServices: set<string>)

  datatype ClusterInfos = ClusterInfos(
    clusterName: string,
    nodeName: string,
    groupsMatchCfg: bool,
    nodeResources: Resources,
    nodeStatus: string,
    resourcesRunning: string)

  // ---------------------------------------------------------------------
  // Resource groups
  // ---------------------------------------------------------------------

  /** `group` is a resource group holding at least one of the node's resources. */
  predicate HoldsNodeResource(group: string, nodeResources: Resources, groups: map<string, seq<string>>)
  {
    group in groups && exists e :: e in nodeResources && e.0 in groups[group]
  }

  /** Do the groups required on this node each hold at least one of its resources? */
  function CheckResourceGroupsStatus(
    required: Option<seq<string>>, nodeResources: Resources, groups: map<string, seq<string>>): (ok: bool)
    ensures required.None? || |required.value| == 0 ==> ok
    ensures required.Some? && |required.value| > 0 ==>
              (ok <==> forall g :: g in required.value ==> HoldsNodeResource(g, nodeResources, groups))
  {
    if required.None? || |required.value| == 0 then true
    else
      var present := set g | g in groups && HoldsNodeResource(g, nodeResources, groups);
      var wanted := set g | g in required.value;
      assert forall g :: g in wanted <==> g in required.value;
      assert forall g :: g in present <==> HoldsNodeResource(g, nodeResources, groups);
      wanted <= present
  }

  /** More resources on the node, or more groups, never turn a match into a mismatch. */
  lemma CheckResourceGroupsMonotone(
    required: Option<seq<string>>,
    nodeResources: Resources, moreResources: Resources,
    groups: map<string, seq<string>>, moreGroups: map<string, seq<string>>)
    requires forall e :: e in nodeResources ==> e in moreResources
    requires forall g :: g in groups ==> g in moreGroups && moreGroups[g] == groups[g]
    requires CheckResourceGroupsStatus(required, nodeResources, groups)
    ensures CheckResourceGroupsStatus(required, moreResources, moreGroups)
  {
  }

  /** Order and repetition in the required list do not matter. */
  lemma CheckResourceGroupsIgnoresOrder(
    required: seq<string>, others: seq<string>, nodeResources: Resources, groups: map<string, seq<string>>)
    requires forall g :: g in required <==> g in others
    ensures CheckResourceGroupsStatus(Some(required), nodeResources, groups)
            == CheckResourceGroupsStatus(Some(others), nodeResources, groups)
  {
  }

  // ---------------------------------------------------------------------
  // Cluster information
  // ---------------------------------------------------------------------

  /** The resources placed on exactly the node `nodeName`, in their original order. */
  function LocalResources(resources: Resources, nodeName: string): (local: Resources)
    ensures forall e :: e in local <==> e in resources && e.1.node == OnNode(nodeName)
    ensures |local| <= |resources|
  {
    if |resources| == 0 then []
    else
      var rest := LocalResources(resources[1..], nodeName);
      assert forall e :: e in resources <==> e == resources[0] || e in resources[1..];
      if resources[0].1.node == OnNode(nodeName) then [resources[0]] + rest else rest
  }

  /** Filtering again changes nothing. */
  lemma {:induction false} LocalResourcesIdempotent(resources: Resources, nodeName: string)
    ensures LocalResources(LocalResources(resources, nodeName), nodeName) == LocalResources(resources, nodeName)
  {
    if |resources| > 0 {
      LocalResourcesIdempotent(resources[1..], nodeName);
      var local := LocalResources(resources, nodeName);
      if resources[0].1.node == OnNode(nodeName) {
        assert local[1..] == LocalResources(resources[1..], nodeName);
      }
    }
  }

  /** The filter keeps the entries in their order: filtering a concatenation concatenates the results. */
  lemma {:induction false} LocalResourcesConcat(a: Resources, b: Resources, nodeName: string)
    ensures LocalResources(a + b, nodeName) == LocalResources(a, nodeName) + LocalResources(b, nodeName)
    ensures |a| == 1 ==> LocalResources(a, nodeName) == if a[0].1.node == OnNode(nodeName) then a else []
  {
    if |a| > 0 {
      assert (a + b)[0] == a[0] && (a + b)[1..] == a[1..] + b;
      LocalResourcesConcat(a[1..], b, nodeName);
      AppendAssoc([a[0]], LocalResources(a[1..], nodeName), LocalResources(b, nodeName));
      if a[0].1.node == OnNode(nodeName) {
        assert LocalResources(a + b, nodeName) == [a[0]] + LocalResources(a[1..] + b, nodeName);
        assert LocalResources(a, nodeName) == [a[0]] + LocalResources(a[1..], nodeName);
      } else {
        assert LocalResources(a + b, nodeName) == LocalResources(a[1..] + b, nodeName);
        assert LocalResources(a, nodeName) == LocalResources(a[1..], nodeName);
      }
      if |a| == 1 {
        assert a[1..] == [];
      }
    } else {
      assert a + b == b;
    }
  }

  /** The filter keeps ids unique. */
  lemma {:induction false} LocalResourcesUniqueIds(resources: Resources, nodeName: string)
    requires UniqueIds(resources)
    ensures UniqueIds(LocalResources(resources, nodeName))
  {
    if |resources| > 0 {
      var rest := LocalResources(resources[1..], nodeName);
      LocalResourcesUniqueIds(resources[1..], nodeName);
      forall j | 0 <= j < |rest|
        ensures rest[j].0 != resources[0].0
      {
        assert rest[j] in resources[1..];
      }
    }
  }

  /** `get_cluster_infos`, with each missing attribute read as "Unknown". */
  function GetClusterInfos(cfg: map<string, seq<string>>, state: ClusterState): (infos: ClusterInfos)
    ensures infos.nodeName == (if state.localNode.name.Some? then state.localNode.name.value else "Unknown")
    ensures infos.nodeStatus == "online" <==> state.localNode.online != Some(false)
    ensures infos.nodeStatus == "online" || infos.nodeStatus == "offline"
    ensures forall e :: e in infos.nodeResources <==> e in state.resources && e.1.node == OnNode(infos.nodeName)
    ensures infos.nodeResources == LocalResources(state.resources, infos.nodeName)
    ensures infos.groupsMatchCfg
            == CheckResourceGroupsStatus(
                 if infos.nodeName in cfg then Some(cfg[infos.nodeName]) else None, infos.nodeResources, state.groups)
    ensures infos.clusterName == state.clusterName
    ensures infos.resourcesRunning
            == if state.localNode.resourcesRunning.Some? then Show(state.localNode.resourcesRunning.value) else "Unknown"
  {
    var local := state.localNode;
    var nodeName := match local.name case Some(n) => n case None => "Unknown";
    // "Unknown" is truthy, so a missing `online` reads as online.
    var nodeStatus := if local.online != Some(false) then "online" else "offline";
    var nodeResources := LocalResources(state.resources, nodeName);
    var resourcesRunning := match local.resourcesRunning case Some(n) => Show(n) case None => "Unknown";
    var required := if nodeName in cfg then Some(cfg[nodeName]) else None;
    ClusterInfos(
      state.clusterName, nodeName,
      CheckResourceGroupsStatus(required, nodeResources, state.groups),
      nodeResources, nodeStatus, resourcesRunning)
  }

  // ---------------------------------------------------------------------
  // Report content
  // ---------------------------------------------------------------------

  /** The node status shown, with a suffix when the groups do not match the configuration. */
  function NodeStatus(infos: ClusterInfos): (status: string)
    ensures status == "online" <==> infos.nodeStatus == "online" && infos.groupsMatchCfg
    ensures infos.groupsMatchCfg ==> status == infos.nodeStatus
    ensures !infos.groupsMatchCfg ==> |status| > |infos.nodeStatus| && status[..|infos.nodeStatus|] == infos.nodeStatus && status[|infos.nodeStatus|..] == SWITCHED
  {
    if infos.groupsMatchCfg then infos.nodeStatus else infos.nodeStatus + SWITCHED
  }

  function NodeColor(infos: ClusterInfos): (color: string)
    ensures color == STATUS_OK <==> infos.nodeStatus == "online" && infos.groupsMatchCfg
    ensures color == STATUS_OK || color == STATUS_CRITICAL
  {
    if NodeStatus(infos) == "online" then STATUS_OK else STATUS_CRITICAL
  }

  function ResourceColor(resource: Resource): (color: string)
    ensures color == STATUS_OK <==> resource.role == "Started"
    ensures color == STATUS_OK || color == STATUS_CRITICAL
  {
    if resource.role == "Started" then STATUS_OK else STATUS_CRITICAL
  }

  lemma NoBreakConcat(a: string, b: string, c: string)
    ensures '\n' !in a && '\n' !in b && '\n' !in c ==> '\n' !in a + b + c
  {
  }

  /** A resource line: its first word is the resource's colour. */
  function ResourceLine(entry: (string, Resource)): (line: string)
    ensures FirstWord(line) == Some(ResourceColor(entry.1))
    ensures '\n' !in entry.0 && '\n' !in entry.1.agent ==> '\n' !in line
  {
    var color := ResourceColor(entry.1);
    var rest := PadRight(entry.0, 22) + " " + entry.1.agent;
    ColorIsWord(color);
    FirstWordOf(color, rest);
    NoBreakConcat(" " + color + " ", PadRight(entry.0, 22), " " + entry.1.agent);
    " " + color + " " + rest
  }

  function ResourceLines(resources: Resources): (lines: seq<string>)
    ensures |lines| == |resources|
    ensures forall i :: 0 <= i < |resources| ==> lines[i] == ResourceLine(resources[i])
  {
    if |resources| == 0 then [] else [ResourceLine(resources[0])] + ResourceLines(resources[1..])
  }

  function ResourcesBody(infos: ClusterInfos): string
  {
    infos.resourcesRunning + " resources running:\n\n" + Join(ResourceLines(infos.nodeResources), "\n")
  }

  /**
   * After its summary line, the resources body splits on line breaks back
   * into the resource lines, one per local resource, provided no id or
   * agent holds a line break.
   */
  lemma ResourcesBodyLines(infos: ClusterInfos)
    requires |infos.nodeResources| > 0
    requires forall i :: 0 <= i < |infos.nodeResources| ==>
               '\n' !in infos.nodeResources[i].0 && '\n' !in infos.nodeResources[i].1.agent
    ensures var summary := infos.resourcesRunning + " resources running:\n\n";
            var body := ResourcesBody(infos);
            |summary| <= |body| && body[..|summary|] == summary
            && Split(body[|summary|..], '\n') == ResourceLines(infos.nodeResources)
  {
    var summary := infos.resourcesRunning + " resources running:\n\n";
    var lines := ResourceLines(infos.nodeResources);
    assert ResourcesBody(infos) == summary + Join(lines, "\n");
    assert ResourcesBody(infos)[|summary|..] == Join(lines, "\n");
    SplitJoin(lines, '\n');
  }

  /** The test on the resource lines: the first word of each is the OK colour. */
  predicate LinesAllOk(lines: seq<string>)
  {
    forall i :: 0 <= i < |lines| ==> FirstWord(lines[i]) == Some(STATUS_OK)
  }

  predicate AllStarted(resources: Resources)
  {
    forall i :: 0 <= i < |resources| ==> resources[i].1.role == "Started"
  }

  lemma ColorIsWord(color: string)
    requires color == STATUS_OK || color == STATUS_CRITICAL
    ensures |color| > 0 && forall i :: 0 <= i < |color| ==> !IsSpace(color[i])
  {
  }

  /** The textual test on the resource lines is the test that every resource is started. */
  lemma LinesAllOkIffStarted(resources: Resources)
    ensures LinesAllOk(ResourceLines(resources)) <==> AllStarted(resources)
  {
    var lines := ResourceLines(resources);
    assert forall i :: 0 <= i < |resources| ==>
             (FirstWord(lines[i]) == Some(STATUS_OK) <==> resources[i].1.role == "Started");
  }

  /** The status line of one service, without its line break: its first word is the service's colour. */
  function ServiceLine(service: string, running: bool): (line: string)
    ensures FirstWord(line) == Some(if running then STATUS_OK else STATUS_CRITICAL)
    ensures '\n' !in service ==> '\n' !in line
  {
    var color := if running then STATUS_OK else STATUS_CRITICAL;
    var state := if running then "active" else "inactive";
    var rest := "service " + PadRight(service, 14) + " " + state;
    ColorIsWord(color);
    FirstWordOf(color, rest);
    NoBreakConcat(" " + color + " service ", PadRight(service, 14), " " + state);
    " " + color + " " + rest
  }

  /** The daemon section: one line per service of CLUSTER_SERVICES, in that list's order. */
  function DaemonsBody(running: set<string>): string
  {
    ServiceLine("corosync", "corosync" in running) + "\n"
      + ServiceLine("pacemaker", "pacemaker" in running) + "\n"
      + ServiceLine("pcsd", "pcsd" in running) + "\n"
  }

  /**
   * The daemon section holds one line per cluster service, in order, each
   * led by green exactly when that service runs.
   */
  lemma DaemonsBodyLines(running: set<string>)
    ensures var lines := Split(DaemonsBody(running), '\n');
            |lines| == 4 && lines[3] == ""
            && forall i :: 0 <= i < 3 ==>
                 FirstWord(lines[i]) == Some(if CLUSTER_SERVICES[i] in running then STATUS_OK else STATUS_CRITICAL)
  {
    var a := ServiceLine("corosync", "corosync" in running);
    var b := ServiceLine("pacemaker", "pacemaker" in running);
    var c := ServiceLine("pcsd", "pcsd" in running);
    ServiceLinesNoBreak(running);
    SplitThreeLines(a, b, c, '\n');
    var lines := Split(DaemonsBody(running), '\n');
    assert lines == [a, b, c, ""];
    forall i | 0 <= i < 3
      ensures FirstWord(lines[i]) == Some(if CLUSTER_SERVICES[i] in running then STATUS_OK else STATUS_CRITICAL)
    {
      if i == 0 {
        assert lines[i] == a;
      } else if i == 1 {
        assert lines[i] == b;
      } else {
        assert lines[i] == c;
      }
    }
  }

  /** No service line holds a line break. */
  lemma ServiceLinesNoBreak(running: set<string>)
    ensures '\n' !in ServiceLine("corosync", "corosync" in running)
    ensures '\n' !in ServiceLine("pacemaker", "pacemaker" in running)
    ensures '\n' !in ServiceLine("pcsd", "pcsd" in running)
  {
    assert '\n' !in "corosync" && '\n' !in "pacemaker" && '\n' !in "pcsd";
  }

  predicate AllRunning(running: set<string>)
  {
    forall s :: s in CLUSTER_SERVICES ==> s in running
  }

  function TitleOf(infos: ClusterInfos): Block
  {
    TitleBlock("Pacemaker cluster \"" + infos.clusterName + "\"")
  }

  function NodeStatusBlock(infos: ClusterInfos): Block
  {
    SectionBlock("Node Status", infos.nodeName + " - " + NodeStatus(infos) + " " + NodeColor(infos))
  }

  function NodesBlock(nodes: seq<string>): Block
  {
    SectionBlock("Cluster Nodes", Join(Sort(nodes), ", "))
  }

  function ResourcesBlock(infos: ClusterInfos): Block
  {
    SectionBlock("Cluster Resources", ResourcesBody(infos))
  }

  function DaemonsBlock(running: set<string>): Block
  {
    SectionBlock("Daemon Status", DaemonsBody(running))
  }

  /** The blocks of the report, in the order the check appends them. */
  function ReportBlocks(infos: ClusterInfos, nodes: seq<string>, checkDaemons: bool, running: set<string>): seq<Block>
  {
    [TitleOf(infos)] + [NodeStatusBlock(infos)] + [NodesBlock(nodes)] + [ResourcesBlock(infos)]
    + (if checkDaemons then [DaemonsBlock(running)] else [])
  }

  /** The colour set after the resources section: critical unless every line reads OK. */
  function ResourceUpdates(infos: ClusterInfos): seq<string>
  {
    if LinesAllOk(ResourceLines(infos.nodeResources)) then [] else [STATUS_CRITICAL]
  }

  /**
   * The resources step sets critical exactly when some local resource is not
   * started; with no local resources it leaves the colour alone.
   */
  lemma ResourceUpdatesIffStarted(infos: ClusterInfos)
    ensures ResourceUpdates(infos) == if AllStarted(infos.nodeResources) then [] else [STATUS_CRITICAL]
    ensures |infos.nodeResources| == 0 ==> ResourceUpdates(infos) == []
  {
    LinesAllOkIffStarted(infos.nodeResources);
  }

  /** The colour set after the daemons section: critical when a daemon is checked and down. */
  function DaemonUpdates(checkDaemons: bool, running: set<string>): seq<string>
  {
    if checkDaemons && !AllRunning(running) then [STATUS_CRITICAL] else []
  }

  /** The values given to the colour setter, in order. */
  function ColorUpdates(infos: ClusterInfos, checkDaemons: bool, running: set<string>): seq<string>
  {
    [NodeColor(infos)] + ResourceUpdates(infos) + DaemonUpdates(checkDaemons, running)
  }

  /**
   * The report is green exactly when the node is online with its groups in
   * place, every local resource is started and, when daemons are checked,
   * every cluster daemon runs; otherwise it is red, never yellow.
   */
  lemma ReportColor(infos: ClusterInfos, checkDaemons: bool, running: set<string>)
    ensures RaiseAll(STATUS_OK, ColorUpdates(infos, checkDaemons, running))
            == if infos.nodeStatus == "online" && infos.groupsMatchCfg && AllStarted(infos.nodeResources)
                  && (!checkDaemons || AllRunning(running))
               then STATUS_OK else STATUS_CRITICAL
  {
    var updates := ColorUpdates(infos, checkDaemons, running);
    LinesAllOkIffStarted(infos.nodeResources);
    if infos.nodeStatus == "online" && infos.groupsMatchCfg && AllStarted(infos.nodeResources)
       && (!checkDaemons || AllRunning(running)) {
      assert updates == [STATUS_OK];
      RaiseAllOk(updates);
    } else {
      assert updates[0] == STATUS_CRITICAL || STATUS_CRITICAL in ResourceUpdates(infos)
             || STATUS_CRITICAL in DaemonUpdates(checkDaemons, running);
      RaiseAllCritical(STATUS_OK, updates);
    }
  }

  /** The `message - cluster node status` step. */
  method ReportNodeStatus(msg: XymonMessage, infos: ClusterInfos)
    requires msg.Valid()
    modifies msg`message, msg`color
    ensures msg.Valid()
    ensures msg.message == old(msg.message) + Fragment(NodeStatusBlock(infos))
    ensures msg.color == RaiseAll(old(msg.color), [NodeColor(infos)])
    ensures msg.lifetime == old(msg.lifetime)
  {
    var nodeColor := NodeColor(infos);
    msg.Section("Node Status", infos.nodeName + " - " + NodeStatus(infos) + " " + nodeColor);
    var _ := msg.SetColor(nodeColor);
    assert [nodeColor][..0] == [];
  }

  /** The `message - resources` step. */
  method ReportResources(msg: XymonMessage, infos: ClusterInfos)
    requires msg.Valid()
    modifies msg`message, msg`color
    ensures msg.Valid()
    ensures msg.message == old(msg.message) + Fragment(ResourcesBlock(infos))
    ensures msg.color == RaiseAll(old(msg.color), ResourceUpdates(infos))
    ensures msg.lifetime == old(msg.lifetime)
  {
    msg.Section("Cluster Resources", ResourcesBody(infos));
    if !LinesAllOk(ResourceLines(infos.nodeResources)) {
      var _ := msg.SetColor(STATUS_CRITICAL);
      assert [STATUS_CRITICAL][..0] == [];
    }
  }

  /** The `message - daemons status` step, which only adds to the report when daemons are checked. */
  method ReportDaemons(msg: XymonMessage, checkDaemons: bool, running: set<string>)
    requires msg.Valid()
    modifies msg`message, msg`color
    ensures msg.Valid()
    ensures msg.message == if checkDaemons then old(msg.message) + Fragment(DaemonsBlock(running)) else old(msg.message)
    ensures msg.color == RaiseAll(old(msg.color), DaemonUpdates(checkDaemons, running))
    ensures msg.lifetime == old(msg.lifetime)
  {
    if checkDaemons {
      msg.Section("Daemon Status", DaemonsBody(running));
      if !AllRunning(running) {
        var _ := msg.SetColor(STATUS_CRITICAL);
        assert [STATUS_CRITICAL][..0] == [];
      }
    }
  }

  /** The body of the report is the HTML of its blocks, each appended in turn. */
  lemma ReportHtml(infos: ClusterInfos, nodes: seq<string>, checkDaemons: bool, running: set<string>)
    ensures var html := Fragment(TitleOf(infos)) + Fragment(NodeStatusBlock(infos)) + Fragment(NodesBlock(nodes))
                        + Fragment(ResourcesBlock(infos));
            HtmlOf(ReportBlocks(infos, nodes, checkDaemons, running))
            == if checkDaemons then html + Fragment(DaemonsBlock(running)) else html
  {
    var more := if checkDaemons then [DaemonsBlock(running)] else [];
    HtmlOfFour(TitleOf(infos), NodeStatusBlock(infos), NodesBlock(nodes), ResourcesBlock(infos), more);
    HtmlOfOne(DaemonsBlock(running));
    AppendEmpty(Fragment(TitleOf(infos)) + Fragment(NodeStatusBlock(infos)) + Fragment(NodesBlock(nodes))
                + Fragment(ResourcesBlock(infos)));
  }

  /** The `message - title` step. */
  method ReportTitle(msg: XymonMessage, infos: ClusterInfos)
    requires msg.Valid()
    modifies msg`message
    ensures msg.Valid()
    ensures msg.message == old(msg.message) + Fragment(TitleOf(infos))
    ensures msg.lifetime == old(msg.lifetime)
  {
    msg.Title("Pacemaker cluster \"" + infos.clusterName + "\"");
  }

  /** The `message - cluster nodes` step. */
  method ReportNodes(msg: XymonMessage, nodes: seq<string>)
    requires msg.Valid()
    modifies msg`message
    ensures msg.Valid()
    ensures msg.message == old(msg.message) + Fragment(NodesBlock(nodes))
    ensures msg.lifetime == old(msg.lifetime)
  {
    msg.Section("Cluster Nodes", Join(Sort(nodes), ", "));
  }

  /** The steps from the title to the cluster nodes. */
  method ReportHead(msg: XymonMessage, infos: ClusterInfos, nodes: seq<string>)
    requires msg.Valid()
    modifies msg`message, msg`color
    ensures msg.Valid()
    ensures msg.message
            == old(msg.message) + Fragment(TitleOf(infos)) + Fragment(NodeStatusBlock(infos)) + Fragment(NodesBlock(nodes))
    ensures msg.color == RaiseAll(old(msg.color), [NodeColor(infos)])
    ensures msg.lifetime == old(msg.lifetime)
  {
    ReportTitle(msg, infos);
    ReportNodeStatus(msg, infos);
    ReportNodes(msg, nodes);
  }

  /** The steps from the resources to the footer. */
  method ReportTail(msg: XymonMessage, infos: ClusterInfos, checkDaemons: bool, running: set<string>)
    requires msg.Valid()
    modifies msg`message, msg`color, msg`footer
    ensures msg.Valid()
    ensures msg.message
            == if checkDaemons then old(msg.message) + Fragment(ResourcesBlock(infos)) + Fragment(DaemonsBlock(running))
               else old(msg.message) + Fragment(ResourcesBlock(infos))
    ensures msg.color == RaiseAll(old(msg.color), ResourceUpdates(infos) + DaemonUpdates(checkDaemons, running))
    ensures msg.footer == Some(FooterFragment(CHECK_SCRIPT, VERSION))
    ensures msg.lifetime == old(msg.lifetime)
  {
    ReportResources(msg, infos);
    ReportDaemons(msg, checkDaemons, running);
    RaiseAllConcat(old(msg.color), ResourceUpdates(infos), DaemonUpdates(checkDaemons, running));
    msg.Footer(CHECK_SCRIPT, VERSION);
  }

  /**
   * The `message - ...` steps of `check_cluster_status`, from the title to
   * the footer, on a fresh message and given the cluster information already
   * collected.
   */
  method BuildReport(
    msg: XymonMessage, infos: ClusterInfos, nodes: seq<string>, checkDaemons: bool, running: set<string>)
    requires msg.Valid() && msg.message == "" && msg.color == STATUS_OK
    modifies msg`message, msg`color, msg`footer
    ensures msg.Valid()
    ensures msg.message == HtmlOf(ReportBlocks(infos, nodes, checkDaemons, running))
    ensures msg.color == RaiseAll(STATUS_OK, ColorUpdates(infos, checkDaemons, running))
    ensures msg.color
            == if infos.nodeStatus == "online" && infos.groupsMatchCfg && AllStarted(infos.nodeResources)
                  && (!checkDaemons || AllRunning(running))
               then STATUS_OK else STATUS_CRITICAL
    ensures msg.footer == Some(FooterFragment(CHECK_SCRIPT, VERSION))
    ensures msg.lifetime == old(msg.lifetime)
  {
    ReportHead(msg, infos, nodes);
    ReportTail(msg, infos, checkDaemons, running);
    RaiseAllConcat(STATUS_OK, [NodeColor(infos)], ResourceUpdates(infos) + DaemonUpdates(checkDaemons, running));
    AppendAssoc([NodeColor(infos)], ResourceUpdates(infos), DaemonUpdates(checkDaemons, running));
    ReportColor(infos, checkDaemons, running);
    ReportHtml(infos, nodes, checkDaemons, running);
    EmptyAppend(Fragment(TitleOf(infos)));
  }

  /**
   * `check_cluster_status`: collects the cluster information, builds the
   * report on a fresh client and hands it to `send`.
   */
  method CheckClusterStatus(
    testName: string, groupsCfg: map<string, seq<string>>, checkDaemons: bool,
    state: ClusterState, env: Env, date: string)
    returns (xymon: XymonClient, sent: Result<Delivery, Error>)
    ensures fresh(xymon) && fresh(xymon.msg) && xymon.test == testName
    ensures xymon.msg.Valid()
    ensures xymon.msg.message
            == HtmlOf(ReportBlocks(GetClusterInfos(groupsCfg, state), state.nodes, checkDaemons, state.runningServices))
    ensures xymon.msg.color
            == RaiseAll(STATUS_OK, ColorUpdates(GetClusterInfos(groupsCfg, state), checkDaemons, state.runningServices))
    ensures var infos := GetClusterInfos(groupsCfg, state);
            xymon.msg.color
            == if infos.nodeStatus == "online" && infos.groupsMatchCfg && AllStarted(infos.nodeResources)
                  && (!checkDaemons || AllRunning(state.runningServices))
               then STATUS_OK else STATUS_CRITICAL
    ensures xymon.msg.footer == Some(FooterFragment(CHECK_SCRIPT, VERSION))
    ensures xymon.msg.lifetime == None
    ensures sent == xymon.Send(env, date)
  {
    xymon := new XymonClient(testName);
    var infos := GetClusterInfos(groupsCfg, state);
    BuildReport(xymon.msg, infos, state.nodes, checkDaemons, state.runningServices);
    sent := xymon.Send(env, date);
  }

  // ---------------------------------------------------------------------
  // Command-line options
  // ---------------------------------------------------------------------

  datatype Config = Config(testName: string, resourceGroups: map<string, seq<string>>, checkDaemons: bool)

  /** How the option loop ends: a configuration to check, or the way the script stops. */
  datatype CommandLine =
    | Run(config: Config)
    | Usage(exitCode: int)          // usage text, then exit
    | UnpackError(argument: string) // ValueError: a -r value not of the form a:b
    | Unhandled(option: string)     // die() on an unknown option

  predicate IsHelp(option: string) { option == "-h" || option == "--help" }
  predicate IsDaemons(option: string) { option == "-d" || option == "--daemons" }
  predicate IsResource(option: string) { option == "-r" || option == "--resource" }
  predicate IsTest(option: string) { option == "-t" || option == "--test" }

  /** `a, b = value.split(":")`: succeeds exactly when the value holds one `:`. */
  function HostGroup(value: string): (r: Option<(string, string)>)
    ensures r.Some? <==> multiset(value)[':'] == 1
    ensures r.Some? ==> value == r.value.0 + ":" + r.value.1 && ':' !in r.value.0 && ':' !in r.value.1
  {
    SplitTwoParts(value, ':');
    var parts := Split(value, ':');
    if |parts| == 2 then Some((parts[0], parts[1])) else None
  }

  /** Options on which the loop stops early. */
  predicate Stops(opt: (string, string))
  {
    || IsHelp(opt.0)
    || (IsResource(opt.0) && HostGroup(opt.1).None?)
    || !(IsDaemons(opt.0) || IsResource(opt.0) || IsTest(opt.0))
  }

  function StopOutcome(opt: (string, string)): CommandLine
  {
    if IsHelp(opt.0) then Usage(0)
    else if IsResource(opt.0) then UnpackError(opt.1)
    else Unhandled(opt.0)
  }

  /** The index of the first option that stops the loop, or the length when none does. */
  function FirstStop(opts: seq<(string, string)>): (k: nat)
    ensures k <= |opts|
    ensures forall j :: 0 <= j < k ==> !Stops(opts[j])
    ensures k < |opts| ==> Stops(opts[k])
  {
    if |opts| == 0 then 0
    else
      var init := opts[..|opts| - 1];
      var k := FirstStop(init);
      assert forall j :: 0 <= j < |init| ==> init[j] == opts[j];
      if k < |opts| - 1 || Stops(opts[|opts| - 1]) then k else |opts|
  }

  /** The (host, group) pairs of the well-formed -r options, in argument order. */
  function HostGroupPairs(opts: seq<(string, string)>): seq<(string, string)>
  {
    if |opts| == 0 then []
    else
      var last := opts[|opts| - 1];
      HostGroupPairs(opts[..|opts| - 1])
        + (if IsResource(last.0) && HostGroup(last.1).Some? then [HostGroup(last.1).value] else [])
  }

  /** The value of the last -t option. */
  function LastTest(opts: seq<(string, string)>): Option<string>
  {
    if |opts| == 0 then None
    else if IsTest(opts[|opts| - 1].0) then Some(opts[|opts| - 1].1)
    else LastTest(opts[..|opts| - 1])
  }

  /** `setdefault(host, []).append(group)` for each pair in turn. */
  function Accumulate(pairs: seq<(string, string)>): map<string, seq<string>>
  {
    if |pairs| == 0 then map[]
    else
      var groups := Accumulate(pairs[..|pairs| - 1]);
      var (host, group) := pairs[|pairs| - 1];
      groups[host := (if host in groups then groups[host] else []) + [group]]
  }

  /** The groups paired with `host`, in order. */
  function GroupsFor(pairs: seq<(string, string)>, host: string): seq<string>
  {
    if |pairs| == 0 then []
    else
      var last := pairs[|pairs| - 1];
      GroupsFor(pairs[..|pairs| - 1], host) + (if last.0 == host then [last.1] else [])
  }

  /**
   * Each host maps to the groups given for it, in argument order, and only
   * hosts that were given a group appear.
   */
  lemma {:induction false} AccumulateGroups(pairs: seq<(string, string)>, host: string)
    ensures (if host in Accumulate(pairs) then Accumulate(pairs)[host] else []) == GroupsFor(pairs, host)
    ensures host in Accumulate(pairs) <==> GroupsFor(pairs, host) != []
  {
    if |pairs| > 0 {
      AccumulateGroups(pairs[..|pairs| - 1], host);
    }
  }

  /** Some option of `opts` is -d. */
  predicate AnyDaemons(opts: seq<(string, string)>)
  {
    exists i :: 0 <= i < |opts| && IsDaemons(opts[i].0)
  }

  /** The state of the option loop: still going with the values read so far, or stopped. */
  datatype Scan =
    | Going(testName: Option<string>, checkDaemons: bool, resourceGroups: map<string, seq<string>>)
    | Stopped(outcome: CommandLine)

  /** One turn of the option loop. */
  function StepOption(testName: Option<string>, checkDaemons: bool, groups: map<string, seq<string>>,
                      opt: (string, string)): (next: Scan)
    ensures next.Stopped? <==> Stops(opt)
    ensures next.Stopped? ==> next.outcome == StopOutcome(opt)
    ensures next.Going? ==> next.testName == (if IsTest(opt.0) then Some(opt.1) else testName)
    ensures next.Going? ==> next.checkDaemons == (checkDaemons || IsDaemons(opt.0))
    ensures next.Going? && !IsResource(opt.0) ==> next.resourceGroups == groups
  {
    if IsHelp(opt.0) then Stopped(Usage(0))
    else if IsDaemons(opt.0) then Going(testName, true, groups)
    else if IsResource(opt.0) then
      match HostGroup(opt.1)
      case None => Stopped(UnpackError(opt.1))
      case Some((host, group)) =>
        Going(testName, checkDaemons, groups[host := (if host in groups then groups[host] else []) + [group]])
    else if IsTest(opt.0) then Going(Some(opt.1), checkDaemons, groups)
    else Stopped(Unhandled(opt.0))
  }

  /** The state after the loop has read `opts`. */
  function ScanOptions(opts: seq<(string, string)>): Scan
  {
    if |opts| == 0 then Going(None, false, map[])
    else match ScanOptions(opts[..|opts| - 1])
      case Stopped(outcome) => Stopped(outcome)
      case Going(testName, checkDaemons, groups) => StepOption(testName, checkDaemons, groups, opts[|opts| - 1])
  }

  /** What follows the loop: the usage text when no test name was given, otherwise the check. */
  function AfterLoop(scan: Scan): CommandLine
  {
    match scan
    case Stopped(outcome) => outcome
    case Going(testName, checkDaemons, groups) =>
      if testName == None || testName == Some("") then Usage(1)
      else Run(Config(testName.value, groups, checkDaemons))
  }

  lemma AccumulateStep(pairs: seq<(string, string)>, host: string, group: string)
    ensures Accumulate(pairs + [(host, group)])
            == Accumulate(pairs)[host := (if host in Accumulate(pairs) then Accumulate(pairs)[host] else []) + [group]]
  {
    assert (pairs + [(host, group)])[..|pairs|] == pairs;
  }

  lemma AnyDaemonsSnoc(opts: seq<(string, string)>)
    requires |opts| > 0
    ensures AnyDaemons(opts) == (AnyDaemons(opts[..|opts| - 1]) || IsDaemons(opts[|opts| - 1].0))
  {
    var init := opts[..|opts| - 1];
    assert forall j :: 0 <= j < |init| ==> init[j] == opts[j];
  }

  /** An option that stops the loop, read while it is still going, gives its own outcome. */
  lemma ScanStops(opts: seq<(string, string)>)
    requires |opts| > 0 && Stops(opts[|opts| - 1]) && ScanOptions(opts[..|opts| - 1]).Going?
    ensures ScanOptions(opts) == Stopped(StopOutcome(opts[|opts| - 1]))
  {
  }

  /** An option that does not stop the loop updates the values read so far. */
  lemma ScanGoes(opts: seq<(string, string)>)
    requires |opts| > 0 && !Stops(opts[|opts| - 1])
    requires var init := opts[..|opts| - 1];
             ScanOptions(init) == Going(LastTest(init), AnyDaemons(init), Accumulate(HostGroupPairs(init)))
    ensures ScanOptions(opts) == Going(LastTest(opts), AnyDaemons(opts), Accumulate(HostGroupPairs(opts)))
  {
    var init := opts[..|opts| - 1];
    var last := opts[|opts| - 1];
    AnyDaemonsSnoc(opts);
    if IsResource(last.0) {
      var (host, group) := HostGroup(last.1).value;
      AccumulateStep(HostGroupPairs(init), host, group);
    } else {
      AppendEmpty(HostGroupPairs(init));
    }
  }

  /**
   * The loop stops at the first option that stops it, with that option's
   * outcome; otherwise it has kept the last -t value, whether some -d was
   * given, and the -r groups accumulated in order.
   */
  lemma {:induction false} ScanSpec(opts: seq<(string, string)>)
    ensures FirstStop(opts) < |opts| ==> ScanOptions(opts) == Stopped(StopOutcome(opts[FirstStop(opts)]))
    ensures FirstStop(opts) == |opts| ==>
              ScanOptions(opts) == Going(LastTest(opts), AnyDaemons(opts), Accumulate(HostGroupPairs(opts)))
  {
    if |opts| > 0 {
      var init := opts[..|opts| - 1];
      ScanSpec(init);
      if FirstStop(init) < |init| {
        assert init[FirstStop(init)] == opts[FirstStop(init)];
      } else if Stops(opts[|opts| - 1]) {
        ScanStops(opts);
      } else {
        ScanGoes(opts);
      }
    }
  }

  /** Once the loop has stopped, the remaining options are never read. */
  lemma {:induction false} ScanStopped(opts: seq<(string, string)>, i: nat)
    requires i <= |opts| && ScanOptions(opts[..i]).Stopped?
    ensures ScanOptions(opts) == ScanOptions(opts[..i])
    decreases |opts| - i
  {
    if i < |opts| {
      assert opts[..i + 1][..i] == opts[..i];
      ScanStopped(opts, i + 1);
    } else {
      assert opts[..i] == opts;
    }
  }

  /** The option loop of the script's entry point, over options already split by getopt. */
  method ParseOptions(opts: seq<(string, string)>) returns (r: CommandLine)
    ensures r == AfterLoop(ScanOptions(opts))
  {
    var testName: Option<string> := None;
    var checkDaemons := false;
    var resourceGroups: map<string, seq<string>> := map[];
    var i := 0;
    while i < |opts|
      invariant 0 <= i <= |opts|
      invariant ScanOptions(opts[..i]) == Going(testName, checkDaemons, resourceGroups)
    {
      var (o, a) := opts[i];
      assert opts[..i + 1][..i] == opts[..i];
      ghost var next := ScanOptions(opts[..i + 1]);
      assert next == StepOption(testName, checkDaemons, resourceGroups, (o, a));
      if IsHelp(o) {
        ScanStopped(opts, i + 1);
        return Usage(0);
      } else if IsDaemons(o) {
        checkDaemons := true;
      } else if IsResource(o) {
        var hostGroup := HostGroup(a);
        if hostGroup.None? {
          ScanStopped(opts, i + 1);
          return UnpackError(a);
        }
        var (host, group) := hostGroup.value;
        var groups := if host in resourceGroups then resourceGroups[host] else [];
        resourceGroups := resourceGroups[host := groups + [group]];
      } else if IsTest(o) {
        testName := Some(a);
      } else {
        ScanStopped(opts, i + 1);
        return Unhandled(o);
      }
      i := i + 1;
    }
    assert opts[..i] == opts;
    if testName == None || testName == Some("") {
      return Usage(1);
    }
    r := Run(Config(testName.value, resourceGroups, checkDaemons));
  }

  /**
   * What the option loop yields: the outcome of the first option that stops
   * it; otherwise the usage text (exit code 1) without a -t value, or the
   * check with the last -t value, the -r groups of each host in argument
   * order and whether some -d was given.
   */
  lemma ParseOptionsSpec(opts: seq<(string, string)>)
    ensures FirstStop(opts) < |opts| ==> AfterLoop(ScanOptions(opts)) == StopOutcome(opts[FirstStop(opts)])
    ensures FirstStop(opts) == |opts| && (LastTest(opts) == None || LastTest(opts) == Some("")) ==>
              AfterLoop(ScanOptions(opts)) == Usage(1)
    ensures FirstStop(opts) == |opts| && LastTest(opts) != None && LastTest(opts) != Some("") ==>
              AfterLoop(ScanOptions(opts))
              == Run(Config(LastTest(opts).value, Accumulate(HostGroupPairs(opts)), AnyDaemons(opts)))
    ensures AfterLoop(ScanOptions(opts)).Run? ==> forall host ::
              var groups := AfterLoop(ScanOptions(opts)).config.resourceGroups;
              (if host in groups then groups[host] else []) == GroupsFor(HostGroupPairs(opts), host)
  {
    ScanSpec(opts);
    forall host | true
      ensures var groups := Accumulate(HostGroupPairs(opts));
              (if host in groups then groups[host] else []) == GroupsFor(HostGroupPairs(opts), host)
    {
      AccumulateGroups(HostGroupPairs(opts), host);
    }
  }
}

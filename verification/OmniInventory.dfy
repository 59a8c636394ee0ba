// Folding Omni's resources into an inventory: nodes joined with their cluster-machine status,
// clusters with counts of their members, and three roll-ups.

module OmniInventory {
  import opened Wrappers
  import opened Records
  import opened Tallies
  import opened RollUps

  /** A machine status and the role of its labels; an empty string stands for an absent field. */
  datatype Machine = Machine(id: string, cluster: string, role: string, connected: bool, talosVersion: string)

  datatype Node = Node(
    id: string, cluster: Option<string>, role: string, connected: bool, hasStatus: bool, talosVersion: string)

  datatype Cluster = Cluster(
    name: string, machineCount: nat, controlPlaneCount: nat, workerCount: nat, connectedCount: nat)

  datatype Note = UnknownCluster(node: string, cluster: string) | NoStatus(node: string, cluster: string)

  datatype Merged = Merged(
    nodes: seq<Node>, clusters: seq<Cluster>, notes: seq<Note>,
    byCluster: RollUp, byRole: RollUp, byTalosVersion: RollUp)

  function BuildNode(m: Machine, statuses: set<string>): Node {
    Node(m.id, if m.cluster == "" then None else Some(m.cluster), m.role, m.connected, m.id in statuses, m.talosVersion)
  }

  function BuildNodes(ms: seq<Machine>, statuses: set<string>): seq<Node> {
    seq(|ms|, i requires 0 <= i < |ms| => BuildNode(ms[i], statuses))
  }

  /** `indexById` keeps resources with a non-empty id; only the ids matter here. */
  function IndexedIds(ids: seq<string>): set<string> {
    set id | id in ids && id != ""
  }

  function NodeNotes(n: Node, clusterNames: set<string>): seq<Note> {
    (if n.cluster.Some? && n.cluster.value !in clusterNames then [UnknownCluster(n.id, n.cluster.value)] else [])
    + (if n.cluster.Some? && !n.hasStatus then [NoStatus(n.id, n.cluster.value)] else [])
  }

  function AllNotes(nodes: seq<Node>, clusterNames: set<string>): seq<Note> {
    if nodes == [] then []
    else AllNotes(nodes[..|nodes| - 1], clusterNames) + NodeNotes(nodes[|nodes| - 1], clusterNames)
  }

  function Members(nodes: seq<Node>, name: string): seq<Node> {
    if nodes == [] then []
    else
      Members(nodes[..|nodes| - 1], name)
      + (if nodes[|nodes| - 1].cluster == Some(name) then [nodes[|nodes| - 1]] else [])
  }

  function WithRole(nodes: seq<Node>, role: string): nat {
    if nodes == [] then 0
    else WithRole(nodes[..|nodes| - 1], role) + (if nodes[|nodes| - 1].role == role then 1 else 0)
  }

  function Connected(nodes: seq<Node>): nat {
    if nodes == [] then 0
    else Connected(nodes[..|nodes| - 1]) + (if nodes[|nodes| - 1].connected then 1 else 0)
  }

  function BuildCluster(name: string, nodes: seq<Node>): Cluster {
    var members := Members(nodes, name);
    Cluster(name, |members|, WithRole(members, "controlplane"), WithRole(members, "worker"), Connected(members))
  }

  function BuildClusters(names: seq<string>, nodes: seq<Node>): seq<Cluster> {
    if names == [] then []
    else BuildClusters(names[..|names| - 1], nodes) + [BuildCluster(names[|names| - 1], nodes)]
  }

  function ClusterKeys(nodes: seq<Node>): seq<string> {
    seq(|nodes|, i requires 0 <= i < |nodes| =>
      if nodes[i].cluster.Some? then nodes[i].cluster.value else "(unassigned)")
  }

  function RoleKeys(nodes: seq<Node>): seq<string> {
    seq(|nodes|, i requires 0 <= i < |nodes| => nodes[i].role)
  }

  function VersionKeys(nodes: seq<Node>): seq<string> {
    seq(|nodes|, i requires 0 <= i < |nodes| =>
      if nodes[i].talosVersion != "" then nodes[i].talosVersion else "(unknown)")
  }

  /** `mergeInventory`; sorting by name is left out, no count depends on it. */
  method MergeInventory(machines: seq<Machine>, statusIds: seq<string>, clusterIds: seq<string>) returns (r: Merged)
    ensures r.nodes == BuildNodes(machines, IndexedIds(statusIds))
    ensures r.clusters == BuildClusters(clusterIds, r.nodes)
    ensures r.notes == AllNotes(r.nodes, IndexedIds(clusterIds))
    ensures r.byCluster == Rolled(ClusterKeys(r.nodes))
    ensures r.byRole == Rolled(RoleKeys(r.nodes))
    ensures r.byTalosVersion == Rolled(VersionKeys(r.nodes))
  {
    var nodes := BuildNodes(machines, IndexedIds(statusIds));
    var clusterNames := IndexedIds(clusterIds);
    var notes: seq<Note> := [];
    for i := 0 to |nodes|
      invariant notes == AllNotes(nodes[..i], clusterNames)
    {
      assert nodes[..i + 1][..i] == nodes[..i];
      notes := notes + NodeNotes(nodes[i], clusterNames);
    }
    assert nodes[..|nodes|] == nodes;
    var clusters: seq<Cluster> := [];
    for i := 0 to |clusterIds|
      invariant clusters == BuildClusters(clusterIds[..i], nodes)
    {
      assert clusterIds[..i + 1][..i] == clusterIds[..i];
      clusters := clusters + [BuildCluster(clusterIds[i], nodes)];
    }
    assert clusterIds[..|clusterIds|] == clusterIds;
    var byCluster := RollUpAll(ClusterKeys(nodes));
    var byRole := RollUpAll(RoleKeys(nodes));
    var byTalosVersion := RollUpAll(VersionKeys(nodes));
    r := Merged(nodes, clusters, notes, byCluster, byRole, byTalosVersion);
  }

  // ---------- Conservation ----------

  function MachineSum(clusters: seq<Cluster>): nat {
    if clusters == [] then 0 else MachineSum(clusters[..|clusters| - 1]) + clusters[|clusters| - 1].machineCount
  }

  function Unassigned(nodes: seq<Node>): nat {
    if nodes == [] then 0
    else Unassigned(nodes[..|nodes| - 1]) + (if nodes[|nodes| - 1].cluster.None? then 1 else 0)
  }

  function UnknownNotes(notes: seq<Note>): nat {
    if notes == [] then 0
    else UnknownNotes(notes[..|notes| - 1]) + (if notes[|notes| - 1].UnknownCluster? then 1 else 0)
  }

  /** How often the list of clusters names a node's cluster. */
  function Listings(names: seq<string>, n: Node): nat {
    if n.cluster.Some? then Occurrences(names, n.cluster.value) else 0
  }

  function AllListings(names: seq<string>, nodes: seq<Node>): nat {
    if nodes == [] then 0
    else AllListings(names, nodes[..|nodes| - 1]) + Listings(names, nodes[|nodes| - 1])
  }

  lemma {:induction false} OneMoreCluster(names: seq<string>, name: string, nodes: seq<Node>)
    ensures AllListings(names + [name], nodes) == AllListings(names, nodes) + |Members(nodes, name)|
  {
    if nodes != [] {
      OneMoreCluster(names, name, nodes[..|nodes| - 1]);
      assert multiset(names + [name]) == multiset(names) + multiset{name};
    }
  }

  lemma {:induction false} NoClusters(nodes: seq<Node>)
    ensures AllListings([], nodes) == 0
  {
    if nodes != [] {
      NoClusters(nodes[..|nodes| - 1]);
    }
  }

  /** Counting members per cluster is counting listings per node. */
  lemma {:induction false} SumIsListings(names: seq<string>, nodes: seq<Node>)
    ensures MachineSum(BuildClusters(names, nodes)) == AllListings(names, nodes)
  {
    if names == [] {
      NoClusters(nodes);
    } else {
      var front, last := names[..|names| - 1], names[|names| - 1];
      SumIsListings(front, nodes);
      OneMoreCluster(front, last, nodes);
      assert names == front + [last];
    }
  }

  lemma {:induction false} UnknownNotesAppend(a: seq<Note>, b: seq<Note>)
    ensures UnknownNotes(a + b) == UnknownNotes(a) + UnknownNotes(b)
  {
    if b == [] {
      assert a + b == a;
    } else {
      assert (a + b)[..|a + b| - 1] == a + b[..|b| - 1];
      UnknownNotesAppend(a, b[..|b| - 1]);
    }
  }

  lemma NotesOfNode(n: Node, clusterNames: set<string>)
    ensures UnknownNotes(NodeNotes(n, clusterNames)) ==
            if n.cluster.Some? && n.cluster.value !in clusterNames then 1 else 0
  {
    var a :=
      if n.cluster.Some? && n.cluster.value !in clusterNames then [UnknownCluster(n.id, n.cluster.value)] else [];
    var b := if n.cluster.Some? && !n.hasStatus then [NoStatus(n.id, n.cluster.value)] else [];
    UnknownNotesAppend(a, b);
    assert a != [] ==> a[..0] == [];
    assert b != [] ==> b[..0] == [];
  }

  ghost predicate NoDoubleListing(names: seq<string>, nodes: seq<Node>) {
    forall n | n in nodes && n.cluster.Some? :: Occurrences(names, n.cluster.value) <= 1
  }

  /**
   * Every node is counted at least once: as a member, as unassigned, or in a note; and exactly
   * once each if and only if no cluster that has a member is listed twice.
   */
  lemma {:induction false} NodesAreConserved(names: seq<string>, nodes: seq<Node>)
    requires forall n | n in nodes && n.cluster.Some? :: n.cluster.value != ""
    ensures var sum := AllListings(names, nodes) + Unassigned(nodes) + UnknownNotes(AllNotes(nodes, IndexedIds(names)));
            |nodes| <= sum && (|nodes| == sum <==> NoDoubleListing(names, nodes))
  {
    if nodes != [] {
      var front, n := nodes[..|nodes| - 1], nodes[|nodes| - 1];
      assert nodes == front + [n];
      NodesAreConserved(names, front);
      NotesOfNode(n, IndexedIds(names));
      UnknownNotesAppend(AllNotes(front, IndexedIds(names)), NodeNotes(n, IndexedIds(names)));
      assert n.cluster.Some? ==> (n.cluster.value in names <==> Occurrences(names, n.cluster.value) >= 1);
    }
  }

  lemma {:induction false} RolesFit(nodes: seq<Node>)
    ensures WithRole(nodes, "controlplane") + WithRole(nodes, "worker") <= |nodes|
  {
    if nodes != [] {
      RolesFit(nodes[..|nodes| - 1]);
      assert "controlplane"[0] != "worker"[0];
    }
  }

  lemma {:induction false} ClustersFit(names: seq<string>, nodes: seq<Node>)
    ensures forall c | c in BuildClusters(names, nodes) :: c.controlPlaneCount + c.workerCount <= c.machineCount
  {
    if names != [] {
      ClustersFit(names[..|names| - 1], nodes);
      RolesFit(Members(nodes, names[|names| - 1]));
    }
  }

  // ---------- Counted over the machines themselves ----------

  function InCluster(name: string): Machine -> bool {
    (m: Machine) => m.cluster == name && name != ""
  }

  function InRole(name: string, role: string): Machine -> bool {
    (m: Machine) => m.cluster == name && name != "" && m.role == role
  }

  function InContact(name: string): Machine -> bool {
    (m: Machine) => m.cluster == name && name != "" && m.connected
  }

  /** Each node says of its machine what it is. */
  lemma NodesMirrorMachines(ms: seq<Machine>, statusIds: seq<string>)
    ensures var nodes := BuildNodes(ms, IndexedIds(statusIds));
            && |nodes| == |ms|
            && forall i | 0 <= i < |ms| ::
                 && nodes[i].id == ms[i].id && nodes[i].role == ms[i].role && nodes[i].connected == ms[i].connected
                 && nodes[i].talosVersion == ms[i].talosVersion
                 && (if ms[i].cluster == "" then nodes[i].cluster == None else nodes[i].cluster == Some(ms[i].cluster))
                 && (nodes[i].hasStatus <==> ms[i].id != "" && ms[i].id in statusIds)
  {
  }

  lemma OneMoreMachine(front: seq<Machine>, m: Machine, statuses: set<string>, name: string)
    ensures Members(BuildNodes(front + [m], statuses), name) ==
            Members(BuildNodes(front, statuses), name) + (if InCluster(name)(m) then [BuildNode(m, statuses)] else [])
  {
    var nodes := BuildNodes(front + [m], statuses);
    assert nodes[..|front|] == BuildNodes(front, statuses) && nodes[|front|] == BuildNode(m, statuses);
  }

  lemma WhereOneMore(front: seq<Machine>, m: Machine, p: Machine -> bool)
    ensures |Where(front + [m], p)| == |Where(front, p)| + if p(m) then 1 else 0
  {
    WhereAppend(front, [m], p);
    assert [m][1..] == [];
  }

  lemma {:induction false} MembersAreCounted(ms: seq<Machine>, statuses: set<string>, name: string)
    ensures |Members(BuildNodes(ms, statuses), name)| == |Where(ms, InCluster(name))|
  {
    if ms != [] {
      var front, m := ms[..|ms| - 1], ms[|ms| - 1];
      assert ms == front + [m];
      MembersAreCounted(front, statuses, name);
      OneMoreMachine(front, m, statuses, name);
      WhereOneMore(front, m, InCluster(name));
    }
  }

  lemma {:induction false} RolesAreCounted(ms: seq<Machine>, statuses: set<string>, name: string, role: string)
    ensures WithRole(Members(BuildNodes(ms, statuses), name), role) == |Where(ms, InRole(name, role))|
  {
    if ms != [] {
      var front, m := ms[..|ms| - 1], ms[|ms| - 1];
      assert ms == front + [m];
      RolesAreCounted(front, statuses, name, role);
      OneMoreMachine(front, m, statuses, name);
      WhereOneMore(front, m, InRole(name, role));
      var members := Members(BuildNodes(front, statuses), name);
      assert members + [] == members && (members + [BuildNode(m, statuses)])[..|members|] == members;
    } else {
      assert BuildNodes(ms, statuses) == [];
    }
  }

  lemma {:induction false} ContactsAreCounted(ms: seq<Machine>, statuses: set<string>, name: string)
    ensures Connected(Members(BuildNodes(ms, statuses), name)) == |Where(ms, InContact(name))|
  {
    if ms != [] {
      var front, m := ms[..|ms| - 1], ms[|ms| - 1];
      assert ms == front + [m];
      ContactsAreCounted(front, statuses, name);
      OneMoreMachine(front, m, statuses, name);
      WhereOneMore(front, m, InContact(name));
      var members := Members(BuildNodes(front, statuses), name);
      assert members + [] == members && (members + [BuildNode(m, statuses)])[..|members|] == members;
    } else {
      assert BuildNodes(ms, statuses) == [];
    }
  }

  /** A cluster as the machines that name it say. */
  function CountedCluster(ms: seq<Machine>, name: string): Cluster {
    Cluster(name, |Where(ms, InCluster(name))|, |Where(ms, InRole(name, "controlplane"))|,
            |Where(ms, InRole(name, "worker"))|, |Where(ms, InContact(name))|)
  }

  lemma ClusterIsCounted(ms: seq<Machine>, statuses: set<string>, name: string)
    ensures BuildCluster(name, BuildNodes(ms, statuses)) == CountedCluster(ms, name)
  {
    MembersAreCounted(ms, statuses, name);
    RolesAreCounted(ms, statuses, name, "controlplane");
    RolesAreCounted(ms, statuses, name, "worker");
    ContactsAreCounted(ms, statuses, name);
  }

  /** Each listed cluster, in order, is counted by the machines that name it, by role and by contact. */
  lemma {:induction false} ClustersAreCounted(ms: seq<Machine>, statuses: set<string>, names: seq<string>)
    ensures var clusters := BuildClusters(names, BuildNodes(ms, statuses));
            |clusters| == |names| && forall p | 0 <= p < |names| :: clusters[p] == CountedCluster(ms, names[p])
  {
    if names != [] {
      var front, last := names[..|names| - 1], names[|names| - 1];
      var before := BuildClusters(front, BuildNodes(ms, statuses));
      ClustersAreCounted(ms, statuses, front);
      ClusterIsCounted(ms, statuses, last);
      var c := CountedCluster(ms, last);
      assert BuildClusters(names, BuildNodes(ms, statuses)) == before + [c];
      forall p | 0 <= p < |names|
        ensures (before + [c])[p] == CountedCluster(ms, names[p])
      {
        assert p < |front| ==> names[p] == front[p] && before[p] == CountedCluster(ms, front[p]);
      }
    }
  }

  /** A node is noted exactly if its machine names a cluster that is not listed, or one without having a status. */
  lemma {:induction false} NotesExactly(ms: seq<Machine>, statusIds: seq<string>, clusterIds: seq<string>,
                                        id: string, cluster: string)
    ensures var notes := AllNotes(BuildNodes(ms, IndexedIds(statusIds)), IndexedIds(clusterIds));
            && (UnknownCluster(id, cluster) in notes <==>
                  cluster != "" && cluster !in clusterIds && exists m | m in ms :: m.id == id && m.cluster == cluster)
            && (NoStatus(id, cluster) in notes <==>
                  cluster != "" && (id == "" || id !in statusIds)
                  && exists m | m in ms :: m.id == id && m.cluster == cluster)
  {
    if ms != [] {
      var front, m := ms[..|ms| - 1], ms[|ms| - 1];
      var nodes := BuildNodes(ms, IndexedIds(statusIds));
      NotesExactly(front, statusIds, clusterIds, id, cluster);
      assert ms == front + [m] && nodes[..|nodes| - 1] == BuildNodes(front, IndexedIds(statusIds));
    } else {
      assert BuildNodes(ms, IndexedIds(statusIds)) == [];
    }
  }

  // ---------- The roll-ups, counted over the machines ----------

  function OfCluster(key: string): Machine -> bool {
    (m: Machine) => (if m.cluster == "" then "(unassigned)" else m.cluster) == key
  }

  function OfRole(key: string): Machine -> bool {
    (m: Machine) => m.role == key
  }

  function OfVersion(key: string): Machine -> bool {
    (m: Machine) => (if m.talosVersion == "" then "(unknown)" else m.talosVersion) == key
  }

  /** If each machine has its key, a key occurs as often as machines have it. */
  lemma {:induction false} KeyIsCounted(ms: seq<Machine>, keys: seq<string>, key: string, has: Machine -> bool)
    requires |keys| == |ms| && forall i | 0 <= i < |ms| :: has(ms[i]) <==> keys[i] == key
    ensures Occurrences(keys, key) == |Where(ms, has)|
  {
    if ms != [] {
      assert keys == [keys[0]] + keys[1..];
      KeyIsCounted(ms[1..], keys[1..], key, has);
    } else {
      assert keys == [];
    }
  }

  /** Each roll-up holds, for a key that no object inherits, the number of machines it stands for, if any. */
  lemma RollUpsExactly(ms: seq<Machine>, statuses: set<string>, key: string)
    requires !Inherited(key)
    ensures var nodes := BuildNodes(ms, statuses);
            && Tallied(Rolled(ClusterKeys(nodes)), key) == |Where(ms, OfCluster(key))|
            && Tallied(Rolled(RoleKeys(nodes)), key) == |Where(ms, OfRole(key))|
            && Tallied(Rolled(VersionKeys(nodes)), key) == |Where(ms, OfVersion(key))|
  {
    var nodes := BuildNodes(ms, statuses);
    KeyIsCounted(ms, ClusterKeys(nodes), key, OfCluster(key));
    KeyIsCounted(ms, RoleKeys(nodes), key, OfRole(key));
    KeyIsCounted(ms, VersionKeys(nodes), key, OfVersion(key));
    RolledKey(ClusterKeys(nodes), key);
    RolledKey(RoleKeys(nodes), key);
    RolledKey(VersionKeys(nodes), key);
  }

  ghost predicate NoneInherited(keys: seq<string>) {
    forall k | k in keys :: !Inherited(k)
  }

  /**
   * The whole inventory: machine counts, unassigned and noted nodes account for every node exactly
   * when no populated cluster is listed twice, and each roll-up does exactly when none of its keys
   * is a name that every object inherits.
   */
  lemma InventoryIsConserved(machines: seq<Machine>, statusIds: seq<string>, clusterIds: seq<string>)
    ensures var nodes := BuildNodes(machines, IndexedIds(statusIds));
            var clusters := BuildClusters(clusterIds, nodes);
            && (|nodes| == MachineSum(clusters) + Unassigned(nodes)
                           + UnknownNotes(AllNotes(nodes, IndexedIds(clusterIds)))
                <==> NoDoubleListing(clusterIds, nodes))
            && (AddsUp(Rolled(ClusterKeys(nodes)), |nodes|) <==> NoneInherited(ClusterKeys(nodes)))
            && (AddsUp(Rolled(RoleKeys(nodes)), |nodes|) <==> NoneInherited(RoleKeys(nodes)))
            && (AddsUp(Rolled(VersionKeys(nodes)), |nodes|) <==> NoneInherited(VersionKeys(nodes)))
            && forall c | c in clusters :: c.controlPlaneCount + c.workerCount <= c.machineCount
  {
    var nodes := BuildNodes(machines, IndexedIds(statusIds));
    SumIsListings(clusterIds, nodes);
    NodesAreConserved(clusterIds, nodes);
    ClustersFit(clusterIds, nodes);
    AddsUpExactly(ClusterKeys(nodes));
    AddsUpExactly(RoleKeys(nodes));
    AddsUpExactly(VersionKeys(nodes));
  }

  /** A cluster may have such a name: its one machine is rolled up as text, and another one not at all. */
  lemma InheritedNamesBreakRollUps(machine: Machine)
    ensures var nodes := BuildNodes([machine.(cluster := "constructor")], {});
            Rolled(ClusterKeys(nodes)) == map["constructor" := Text("function Object() { [native code] }1")]
    ensures var nodes := BuildNodes([machine.(cluster := "__proto__")], {});
            Rolled(ClusterKeys(nodes)) == map[]
  {
    assert InheritedText("constructor") + "1" == "function Object() { [native code] }1";
    assert ClusterKeys(BuildNodes([machine.(cluster := "constructor")], {})) == ["constructor"];
    assert ClusterKeys(BuildNodes([machine.(cluster := "__proto__")], {})) == ["__proto__"];
  }
}

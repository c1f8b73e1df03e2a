/**
 * `buildHierarchyStructure`: turns the account map and the client-to-manager
 * map into a forest. Nodes stay in an id-indexed map and refer to their
 * children by id; the forest is that map plus the list of root ids.
 */
module HierarchyAssembly {
  import opened CustomerNodes
  import opened Enumerations

  datatype Forest = Forest(roots: seq<string>, nodes: map<string, CustomerHierarchyNode>)

  /** A client is attached when both it and its mapped manager are among our accounts. */
  predicate Attached(keys: set<string>, clientToManager: map<string, string>, clientId: string) {
    clientId in keys && clientId in clientToManager && clientToManager[clientId] in keys
  }

  /** The clients attached under `managerId`, in the order the entries are visited. */
  function ClientsOf(entries: seq<string>, keys: set<string>, clientToManager: map<string, string>,
                     managerId: string): seq<string>
  {
    Filter(entries, c => Attached(keys, clientToManager, c) && clientToManager[c] == managerId)
  }

  lemma {:induction false} ClientsOfCons(entries: seq<string>, keys: set<string>, clientToManager: map<string, string>,
                      managerId: string)
    requires entries != []
    ensures ClientsOf(entries, keys, clientToManager, managerId)
      == (if Attached(keys, clientToManager, entries[0]) && clientToManager[entries[0]] == managerId
          then [entries[0]] else [])
         + ClientsOf(entries[1..], keys, clientToManager, managerId)
  {
  }

  /**
   * One entry of the second loop: a client whose manager we hold gets level 1
   * and is appended to the manager's children; otherwise nothing changes here.
   */
  function AttachEntry(nodes: map<string, CustomerHierarchyNode>, clientToManager: map<string, string>,
                       clientId: string): (r: map<string, CustomerHierarchyNode>)
    requires clientId in clientToManager
    ensures r.Keys == nodes.Keys
  {
    var managerId := clientToManager[clientId];
    if clientId in nodes && managerId in nodes then
      var withLevel := nodes[clientId := nodes[clientId].(level := 1)];
      withLevel[managerId := AddChild(withLevel[managerId], clientId)]
    else nodes
  }

  lemma {:induction false} AttachEntryChildren(nodes: map<string, CustomerHierarchyNode>, clientToManager: map<string, string>,
                            clientId: string, k: string)
    requires clientId in clientToManager && k in nodes
    ensures AttachEntry(nodes, clientToManager, clientId)[k].children == nodes[k].children
      + (if Attached(nodes.Keys, clientToManager, clientId) && clientToManager[clientId] == k then [clientId] else [])
  {
  }

  lemma {:induction false} AttachEntryEffect(nodes: map<string, CustomerHierarchyNode>, clientToManager: map<string, string>,
                          clientId: string, k: string)
    requires clientId in clientToManager && k in nodes
    ensures var r := AttachEntry(nodes, clientToManager, clientId);
      && r[k].children == nodes[k].children
           + (if Attached(nodes.Keys, clientToManager, clientId) && clientToManager[clientId] == k then [clientId] else [])
      && r[k].level == (if k == clientId && Attached(nodes.Keys, clientToManager, clientId) then 1 else nodes[k].level)
      && r[k].(level := nodes[k].level, children := nodes[k].children) == nodes[k]
  {
  }

  /** The second loop's effect on the nodes, entry by entry. */
  function AttachAll(nodes: map<string, CustomerHierarchyNode>, clientToManager: map<string, string>,
                     entries: seq<string>): (r: map<string, CustomerHierarchyNode>)
    requires forall i :: 0 <= i < |entries| ==> entries[i] in clientToManager
    ensures r.Keys == nodes.Keys
    decreases |entries|
  {
    if entries == [] then nodes
    else AttachAll(AttachEntry(nodes, clientToManager, entries[0]), clientToManager, entries[1..])
  }

  lemma {:induction false} AttachAllChildren(nodes: map<string, CustomerHierarchyNode>,
                                             clientToManager: map<string, string>, entries: seq<string>, k: string)
    requires forall i :: 0 <= i < |entries| ==> entries[i] in clientToManager
    requires k in nodes
    ensures AttachAll(nodes, clientToManager, entries)[k].children
      == nodes[k].children + ClientsOf(entries, nodes.Keys, clientToManager, k)
    decreases |entries|
  {
    if entries != [] {
      var c := entries[0];
      var keys := nodes.Keys;
      var here := if Attached(keys, clientToManager, c) && clientToManager[c] == k then [c] else [];
      var step := AttachEntry(nodes, clientToManager, c);
      AttachEntryChildren(nodes, clientToManager, c, k);
      assert step[k].children == nodes[k].children + here;
      assert step.Keys == keys;
      AttachAllChildren(step, clientToManager, entries[1..], k);
      var later := ClientsOf(entries[1..], keys, clientToManager, k);
      assert AttachAll(nodes, clientToManager, entries)[k].children == step[k].children + later;
      ClientsOfCons(entries, keys, clientToManager, k);
      assert ClientsOf(entries, keys, clientToManager, k) == here + later;
      assert nodes[k].children + here + later == nodes[k].children + (here + later);
    }
  }

  lemma {:induction false} AttachAllLevel(nodes: map<string, CustomerHierarchyNode>,
                                          clientToManager: map<string, string>, entries: seq<string>, k: string)
    requires forall i :: 0 <= i < |entries| ==> entries[i] in clientToManager
    requires k in nodes
    ensures AttachAll(nodes, clientToManager, entries)[k].level
      == (if k in entries && Attached(nodes.Keys, clientToManager, k) then 1 else nodes[k].level)
    decreases |entries|
  {
    if entries != [] {
      var c := entries[0];
      var step := AttachEntry(nodes, clientToManager, c);
      AttachEntryEffect(nodes, clientToManager, c, k);
      AttachAllLevel(step, clientToManager, entries[1..], k);
      assert step.Keys == nodes.Keys;
      assert k in entries <==> k == c || k in entries[1..];
    }
  }

  lemma {:induction false} AttachAllOthers(nodes: map<string, CustomerHierarchyNode>,
                                           clientToManager: map<string, string>, entries: seq<string>, k: string)
    requires forall i :: 0 <= i < |entries| ==> entries[i] in clientToManager
    requires k in nodes
    ensures var r := AttachAll(nodes, clientToManager, entries);
      r[k].(level := nodes[k].level, children := nodes[k].children) == nodes[k]
    decreases |entries|
  {
    if entries != [] {
      var c := entries[0];
      var step := AttachEntry(nodes, clientToManager, c);
      AttachEntryEffect(nodes, clientToManager, c, k);
      AttachAllOthers(step, clientToManager, entries[1..], k);
    }
  }

  /**
   * After the second loop every node has gained exactly its attached clients,
   * in entry order, attached clients have level 1, and nothing else changed.
   */
  lemma {:induction false} AttachAllEffect(nodes: map<string, CustomerHierarchyNode>,
                        clientToManager: map<string, string>, entries: seq<string>, k: string)
    requires forall i :: 0 <= i < |entries| ==> entries[i] in clientToManager
    requires k in nodes
    ensures var r := AttachAll(nodes, clientToManager, entries);
      && r[k].children == nodes[k].children + ClientsOf(entries, nodes.Keys, clientToManager, k)
      && r[k].level == (if k in entries && Attached(nodes.Keys, clientToManager, k) then 1 else nodes[k].level)
      && r[k].(level := nodes[k].level, children := nodes[k].children) == nodes[k]
  {
    AttachAllChildren(nodes, clientToManager, entries, k);
    AttachAllLevel(nodes, clientToManager, entries, k);
    AttachAllOthers(nodes, clientToManager, entries, k);
  }

  /** First loop: the managers, in map order. */
  function ManagerRoots(customers: map<string, CustomerHierarchyNode>, keyOrder: seq<string>): seq<string> {
    Filter(keyOrder, k => k in customers && customers[k].isManager)
  }

  /** Second loop's roots: clients whose manager is not among our accounts. */
  function OrphanRoots(customers: map<string, CustomerHierarchyNode>, clientToManager: map<string, string>,
                       entryOrder: seq<string>): seq<string> {
    Filter(entryOrder, c => c in customers && c in clientToManager && clientToManager[c] !in customers)
  }

  /** Third loop: clients with no manager entry at all (looked up by the node's own id). */
  function UnmappedRoots(customers: map<string, CustomerHierarchyNode>, clientToManager: map<string, string>,
                         keyOrder: seq<string>): seq<string> {
    Filter(keyOrder, k => k in customers && !customers[k].isManager && customers[k].customerId !in clientToManager)
  }

  /**
   * `buildHierarchyStructure`, with the map iteration orders as inputs:
   * `keyOrder` for `customerMap`, `entryOrder` for `clientToManagerMap`.
   */
  function BuildHierarchyStructure(customers: map<string, CustomerHierarchyNode>,
                                   clientToManager: map<string, string>,
                                   keyOrder: seq<string>, entryOrder: seq<string>): (f: Forest)
    requires IsEnumeration(keyOrder, customers.Keys)
    requires IsEnumeration(entryOrder, clientToManager.Keys)
    ensures f.nodes.Keys == customers.Keys
    ensures forall k :: k in customers ==>
      f.nodes[k].children == customers[k].children + ClientsOf(entryOrder, customers.Keys, clientToManager, k)
    ensures forall k :: k in customers ==>
      f.nodes[k].level == (if Attached(customers.Keys, clientToManager, k) then 1 else customers[k].level)
    ensures forall k :: k in customers ==>
      f.nodes[k].(level := customers[k].level, children := customers[k].children) == customers[k]
    ensures forall k :: k in f.roots ==> k in customers
    ensures forall k :: multiset(f.roots)[k] == RootCount(customers, clientToManager, k)
  {
    var managers := ManagerRoots(customers, keyOrder);
    var orphans := OrphanRoots(customers, clientToManager, entryOrder);
    var unmapped := UnmappedRoots(customers, clientToManager, keyOrder);
    var nodes := AttachAll(customers, clientToManager, entryOrder);
    RootsCount(customers, clientToManager, keyOrder, entryOrder);
    forall k | k in customers
      ensures nodes[k].children == customers[k].children + ClientsOf(entryOrder, customers.Keys, clientToManager, k)
      ensures nodes[k].level == (if Attached(customers.Keys, clientToManager, k) then 1 else customers[k].level)
      ensures nodes[k].(level := customers[k].level, children := customers[k].children) == customers[k]
    {
      AttachAllEffect(customers, clientToManager, entryOrder, k);
    }
    Forest(managers + orphans + unmapped, nodes)
  }

  /**
   * How many times an account is listed as a root: once if it is a manager,
   * once more if its mapped manager is not among our accounts, and once if it
   * is a client with no mapping at all.
   */
  function RootCount(customers: map<string, CustomerHierarchyNode>, clientToManager: map<string, string>, k: string): nat {
    if k !in customers then 0
    else
      var managerRoot := if customers[k].isManager then 1 else 0;
      var orphanRoot := if k in clientToManager && clientToManager[k] !in customers then 1 else 0;
      var unmappedRoot := if !customers[k].isManager && customers[k].customerId !in clientToManager then 1 else 0;
      managerRoot + orphanRoot + unmappedRoot
  }

  lemma {:induction false} RootsCount(customers: map<string, CustomerHierarchyNode>, clientToManager: map<string, string>,
                   keyOrder: seq<string>, entryOrder: seq<string>)
    requires IsEnumeration(keyOrder, customers.Keys)
    requires IsEnumeration(entryOrder, clientToManager.Keys)
    ensures forall k ::
      multiset(ManagerRoots(customers, keyOrder) + OrphanRoots(customers, clientToManager, entryOrder)
               + UnmappedRoots(customers, clientToManager, keyOrder))[k]
      == RootCount(customers, clientToManager, k)
  {
    forall k
      ensures multiset(ManagerRoots(customers, keyOrder) + OrphanRoots(customers, clientToManager, entryOrder)
        + UnmappedRoots(customers, clientToManager, keyOrder))[k] == RootCount(customers, clientToManager, k)
    {
      FilterCount(keyOrder, k => k in customers && customers[k].isManager, k);
      FilterCount(entryOrder, c => c in customers && c in clientToManager && clientToManager[c] !in customers, k);
      FilterCount(keyOrder, k => k in customers && !customers[k].isManager && customers[k].customerId !in clientToManager, k);
    }
  }

  /** Every node is stored under its own id, as `getCustomerHierarchy` builds the map. */
  predicate KeysMatch(customers: map<string, CustomerHierarchyNode>) {
    forall k :: k in customers ==> customers[k].customerId == k
  }

  /** Every node is freshly constructed, without children. */
  predicate Childless(customers: map<string, CustomerHierarchyNode>) {
    forall k :: k in customers ==> customers[k].children == []
  }

  /** How often `k` is listed among the children of `p` in the forest. */
  function ChildCount(f: Forest, p: string, k: string): nat {
    if p in f.nodes then multiset(f.nodes[p].children)[k] else 0
  }

  /**
   * Placement of one account: it is a child of exactly its mapped manager when
   * that manager is among our accounts (once, and of no other node), and it
   * is listed as a root as `RootCount` says.
   */
  lemma {:induction false} Placement(customers: map<string, CustomerHierarchyNode>, clientToManager: map<string, string>,
                  keyOrder: seq<string>, entryOrder: seq<string>, k: string, p: string)
    requires IsEnumeration(keyOrder, customers.Keys)
    requires IsEnumeration(entryOrder, clientToManager.Keys)
    requires Childless(customers)
    ensures var f := BuildHierarchyStructure(customers, clientToManager, keyOrder, entryOrder);
      && ChildCount(f, p, k) == (if p in customers && Attached(customers.Keys, clientToManager, k) && clientToManager[k] == p then 1 else 0)
      && multiset(f.roots)[k] == RootCount(customers, clientToManager, k)
  {
    var f := BuildHierarchyStructure(customers, clientToManager, keyOrder, entryOrder);
    if p in customers {
      assert f.nodes[p].children == ClientsOf(entryOrder, customers.Keys, clientToManager, p);
      FilterCount(entryOrder, c => Attached(customers.Keys, clientToManager, c) && clientToManager[c] == p, k);
    }
  }

  /** Every manager we hold is a root. */
  lemma {:induction false} ManagersAreRoots(customers: map<string, CustomerHierarchyNode>, clientToManager: map<string, string>,
                         keyOrder: seq<string>, entryOrder: seq<string>, k: string)
    requires IsEnumeration(keyOrder, customers.Keys)
    requires IsEnumeration(entryOrder, clientToManager.Keys)
    requires k in customers && customers[k].isManager
    ensures k in BuildHierarchyStructure(customers, clientToManager, keyOrder, entryOrder).roots
  {
    var f := BuildHierarchyStructure(customers, clientToManager, keyOrder, entryOrder);
    assert multiset(f.roots)[k] == RootCount(customers, clientToManager, k) >= 1;
  }

  /**
   * A client whose mapped manager we hold is placed exactly once: as a child
   * of that manager and of no other node, with level 1, and never as a root.
   */
  lemma {:induction false} AttachedClientPlacedOnce(customers: map<string, CustomerHierarchyNode>,
                                                    clientToManager: map<string, string>,
                                                    keyOrder: seq<string>, entryOrder: seq<string>, k: string)
    requires IsEnumeration(keyOrder, customers.Keys)
    requires IsEnumeration(entryOrder, clientToManager.Keys)
    requires Childless(customers) && KeysMatch(customers)
    requires k in customers && !customers[k].isManager && Attached(customers.Keys, clientToManager, k)
    ensures var f := BuildHierarchyStructure(customers, clientToManager, keyOrder, entryOrder);
      && multiset(f.roots)[k] == 0
      && ChildCount(f, clientToManager[k], k) == 1
      && f.nodes[k].level == 1
      && forall p :: p != clientToManager[k] ==> ChildCount(f, p, k) == 0
  {
    var f := BuildHierarchyStructure(customers, clientToManager, keyOrder, entryOrder);
    Placement(customers, clientToManager, keyOrder, entryOrder, k, clientToManager[k]);
    forall p | p != clientToManager[k]
      ensures ChildCount(f, p, k) == 0
    {
      Placement(customers, clientToManager, keyOrder, entryOrder, k, p);
    }
  }

  /**
   * With nodes stored under their own ids, a client whose manager is missing
   * or unknown is listed exactly once as a root, is nobody's child, and keeps
   * its level.
   */
  lemma {:induction false} UnattachedClientIsRoot(customers: map<string, CustomerHierarchyNode>,
                                                  clientToManager: map<string, string>,
                                                  keyOrder: seq<string>, entryOrder: seq<string>, k: string)
    requires IsEnumeration(keyOrder, customers.Keys)
    requires IsEnumeration(entryOrder, clientToManager.Keys)
    requires Childless(customers) && KeysMatch(customers)
    requires k in customers && !customers[k].isManager && !Attached(customers.Keys, clientToManager, k)
    ensures var f := BuildHierarchyStructure(customers, clientToManager, keyOrder, entryOrder);
      && multiset(f.roots)[k] == 1
      && f.nodes[k].level == customers[k].level
      && forall p :: ChildCount(f, p, k) == 0
  {
    var f := BuildHierarchyStructure(customers, clientToManager, keyOrder, entryOrder);
    Placement(customers, clientToManager, keyOrder, entryOrder, k, k);
    forall p
      ensures ChildCount(f, p, k) == 0
    {
      Placement(customers, clientToManager, keyOrder, entryOrder, k, p);
    }
  }

  /**
   * As written, a manager that the client-to-manager map places under another
   * manager we hold is listed twice: as a root, and as that manager's child.
   */
  lemma {:induction false} SubManagerListedTwice(customers: map<string, CustomerHierarchyNode>, clientToManager: map<string, string>,
                              keyOrder: seq<string>, entryOrder: seq<string>, k: string)
    requires IsEnumeration(keyOrder, customers.Keys)
    requires IsEnumeration(entryOrder, clientToManager.Keys)
    requires Childless(customers)
    requires k in customers && customers[k].isManager && Attached(customers.Keys, clientToManager, k)
    ensures var f := BuildHierarchyStructure(customers, clientToManager, keyOrder, entryOrder);
      multiset(f.roots)[k] == 1 && ChildCount(f, clientToManager[k], k) == 1
  {
    Placement(customers, clientToManager, keyOrder, entryOrder, k, clientToManager[k]);
  }
}

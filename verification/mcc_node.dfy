/** One account in the MCC traversal hierarchy; children are held as account ids. */
module MccNodes {

  datatype MccHierarchyNode = MccHierarchyNode(
    customerId: string,
    resourceName: string,
    descriptiveName: string,
    accessLevel: string,
    currencyCode: string,
    timeZone: string,
    isManager: bool,
    level: int,
    discoveredViaMccId: string,
    children: seq<string>)

  /** The nine-argument constructor: every field as given, no children yet. */
  function NewMccNode(customerId: string, resourceName: string, descriptiveName: string,
                      accessLevel: string, currencyCode: string, timeZone: string,
                      isManager: bool, level: int, discoveredViaMccId: string): (n: MccHierarchyNode)
    ensures n.customerId == customerId && n.resourceName == resourceName
    ensures n.descriptiveName == descriptiveName && n.accessLevel == accessLevel
    ensures n.currencyCode == currencyCode && n.timeZone == timeZone
    ensures n.isManager == isManager && n.level == level
    ensures n.discoveredViaMccId == discoveredViaMccId
    ensures !HasChildren(n)
  {
    MccHierarchyNode(customerId, resourceName, descriptiveName, accessLevel,
                     currencyCode, timeZone, isManager, level, discoveredViaMccId, [])
  }

  /** `addChild`: one more child at the end; nothing else changes. */
  function AddChild(n: MccHierarchyNode, childId: string): (n': MccHierarchyNode)
    ensures |n'.children| == |n.children| + 1
    ensures n'.children[..|n.children|] == n.children && n'.children[|n.children|] == childId
    ensures n'.(children := n.children) == n
    ensures HasChildren(n')
  {
    n.(children := n.children + [childId])
  }

  predicate HasChildren(n: MccHierarchyNode) {
    n.children != []
  }

  /** `getAccountType`. */
  function AccountType(n: MccHierarchyNode): (t: string)
    ensures t == "Manager" <==> n.isManager
    ensures t == "Client" <==> !n.isManager
  {
    if n.isManager then "Manager" else "Client"
  }

  /** A node has children exactly when some `addChild` has been applied to a fresh node. */
  lemma {:induction false} HasChildrenAfterAdds(n: MccHierarchyNode, ids: seq<string>)
    requires !HasChildren(n)
    ensures HasChildren(AddAll(n, ids)) <==> ids != []
    ensures AddAll(n, ids).children == ids
    decreases |ids|
  {
    if ids != [] {
      HasChildrenAfterAdds(n, ids[..|ids| - 1]);
    }
  }

  /** `addChild` applied to each id in turn. */
  function AddAll(n: MccHierarchyNode, ids: seq<string>): MccHierarchyNode
    decreases |ids|
  {
    if ids == [] then n else AddChild(AddAll(n, ids[..|ids| - 1]), ids[|ids| - 1])
  }
}

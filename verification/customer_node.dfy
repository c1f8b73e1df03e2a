/**
 * One account in the customer hierarchy. Children are held as account ids;
 * the nodes themselves live in an id-indexed map (see `HierarchyAssembly`).
 */
module CustomerNodes {

  datatype CustomerHierarchyNode = CustomerHierarchyNode(
    customerId: string,
    resourceName: string,
    descriptiveName: string,
    accessRole: string,
    currencyCode: string,
    timeZone: string,
    isManager: bool,
    level: int,
    children: seq<string>)

  /** The eight-argument constructor: every field as given, no children yet. */
  function NewCustomerNode(customerId: string, resourceName: string, descriptiveName: string,
                           accessRole: string, currencyCode: string, timeZone: string,
                           isManager: bool, level: int): (n: CustomerHierarchyNode)
    ensures n.customerId == customerId && n.resourceName == resourceName
    ensures n.descriptiveName == descriptiveName && n.accessRole == accessRole
    ensures n.currencyCode == currencyCode && n.timeZone == timeZone
    ensures n.isManager == isManager && n.level == level
    ensures !HasChildren(n)
  {
    CustomerHierarchyNode(customerId, resourceName, descriptiveName, accessRole,
                          currencyCode, timeZone, isManager, level, [])
  }

  /** `addChild`: one more child at the end; nothing else changes. */
  function AddChild(n: CustomerHierarchyNode, childId: string): (n': CustomerHierarchyNode)
    ensures |n'.children| == |n.children| + 1
    ensures n'.children[..|n.children|] == n.children && n'.children[|n.children|] == childId
    ensures n'.(children := n.children) == n
    ensures HasChildren(n')
  {
    n.(children := n.children + [childId])
  }

  predicate HasChildren(n: CustomerHierarchyNode) {
    n.children != []
  }

  /** `getAccountType`. */
  function AccountType(n: CustomerHierarchyNode): (t: string)
    ensures t == "Manager" <==> n.isManager
    ensures t == "Client" <==> !n.isManager
  {
    if n.isManager then "Manager" else "Client"
  }

  /** A node has children exactly when some `addChild` has been applied to a fresh node. */
  lemma {:induction false} HasChildrenAfterAdds(n: CustomerHierarchyNode, ids: seq<string>)
    requires !HasChildren(n)
    ensures HasChildren(AddAll(n, ids)) <==> ids != []
    ensures AddAll(n, ids).children == ids
    decreases |ids|
  {
    if ids != [] {
      HasChildrenAfterAdds(n, ids[..|ids| - 1]);
    }
  }

  /** `addChild` applied to each id in turn. */
  function AddAll(n: CustomerHierarchyNode, ids: seq<string>): CustomerHierarchyNode
    decreases |ids|
  {
    if ids == [] then n else AddChild(AddAll(n, ids[..|ids| - 1]), ids[|ids| - 1])
  }
}

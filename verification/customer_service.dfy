/**
 * `CustomerService`: lists the accounts the caller can see with the caller's
 * access role on each, and assembles them into a manager/client hierarchy.
 */
module CustomerService {
  import opened Results
  import opened Remote
  import opened ResourceNames
  import opened UserAccess
  import opened CustomerNodes
  import opened Enumerations
  import opened HierarchyAssembly

  datatype GoogleAdsCustomer = GoogleAdsCustomer(customerId: string, resourceName: string, accessRole: string)

  /**
   * `getAccessRoleForCustomer`: the label of the caller's role on the account;
   * "Unknown" when no user access is found; "Error" when the id does not parse
   * or the lookup throws.
   */
  function AccessRoleForCustomer(dir: Directory, customerId: string, emailAddress: string): (role: string)
    ensures dir.parseLong(customerId).None? ==> role == "Error"
    ensures dir.parseLong(customerId).Some? ==>
      match GetCustomerUserAccess(dir, dir.parseLong(customerId).value, emailAddress)
      case Failure(_) => role == "Error"
      case Success(None) => role == "Unknown"
      case Success(Some(access)) =>
        role == AccessRoleDisplayName(Some(access.accessRole)) && role != "Error" && role != "Unknown"
  {
    match dir.parseLong(customerId)
    case None => "Error"
    case Some(id) =>
      match GetCustomerUserAccess(dir, id, emailAddress)
      case Failure(_) => "Error"
      case Success(found) =>
        match found
        case None => "Unknown"
        case Some(access) =>
          DisplayNameIsNotError(Some(access.accessRole));
          AccessRoleDisplayName(Some(access.accessRole))
  }

  /** The customer built for one resource name: its id, the name verbatim, and the caller's role. */
  function CustomerOf(dir: Directory, resourceName: string, emailAddress: string): (c: GoogleAdsCustomer)
    ensures c.resourceName == resourceName && c.customerId == ExtractCustomerId(resourceName)
    ensures c.accessRole == AccessRoleForCustomer(dir, c.customerId, emailAddress)
    ensures SlashFree(c.customerId) && |c.customerId| <= |resourceName|
    ensures resourceName[|resourceName| - |c.customerId|..] == c.customerId
  {
    var customerId := ExtractCustomerId(resourceName);
    GoogleAdsCustomer(customerId, resourceName, AccessRoleForCustomer(dir, customerId, emailAddress))
  }

  /**
   * `processCustomersWithAccessLevels`: one customer per resource name, in
   * order, with the extracted id and the resource name kept verbatim.
   */
  method ProcessCustomersWithAccessLevels(dir: Directory, resourceNames: seq<string>, emailAddress: string)
    returns (customers: seq<GoogleAdsCustomer>)
    ensures |customers| == |resourceNames|
    ensures forall i :: 0 <= i < |customers| ==> customers[i] == CustomerOf(dir, resourceNames[i], emailAddress)
    ensures forall i :: 0 <= i < |customers| ==>
      && customers[i].resourceName == resourceNames[i]
      && customers[i].customerId == ExtractCustomerId(resourceNames[i])
      && SlashFree(customers[i].customerId)
  {
    customers := [];
    var i := 0;
    while i < |resourceNames|
      invariant 0 <= i <= |resourceNames|
      invariant |customers| == i
      invariant forall j :: 0 <= j < i ==> customers[j] == CustomerOf(dir, resourceNames[j], emailAddress)
    {
      customers := customers + [CustomerOf(dir, resourceNames[i], emailAddress)];
      i := i + 1;
    }
  }

  /** `listAccessibleCustomers`: fails only when listing the accessible accounts fails. */
  method ListAccessibleCustomers(dir: Directory, emailAddress: string) returns (r: Attempt<seq<GoogleAdsCustomer>>)
    ensures dir.accessibleResourceNames.Failure? <==> r.Failure?
    ensures r.Failure? ==>
      r.message == "Failed to list accessible Google Ads customers: " + dir.accessibleResourceNames.message
    ensures r.Success? ==>
      && |r.value| == |dir.accessibleResourceNames.value|
      && forall i :: 0 <= i < |r.value| ==> r.value[i].resourceName == dir.accessibleResourceNames.value[i]
    ensures r.Success? ==>
      forall i :: 0 <= i < |r.value| ==>
        r.value[i] == CustomerOf(dir, dir.accessibleResourceNames.value[i], emailAddress)
  {
    match dir.accessibleResourceNames
    case Failure(message) =>
      r := Failure("Failed to list accessible Google Ads customers: " + message);
    case Success(names) =>
      var customers := ProcessCustomersWithAccessLevels(dir, names, emailAddress);
      r := Success(customers);
  }

  /**
   * `getCustomerDetails`: the account's details from its first row; a
   * placeholder if the search throws before any row; nothing (null) if the
   * search yields no row.
   */
  function CustomerDetails(dir: Directory, customerId: string, emailAddress: string): (node: Option<CustomerHierarchyNode>)
    ensures var s := dir.customerRows(customerId);
      && (node.None? <==> s.Rows() == [] && s.failure.None?)
      && (node.Some? ==>
            && node.value.customerId == customerId
            && node.value.resourceName == ResourceNameOf(customerId)
            && node.value.accessRole == AccessRoleForCustomer(dir, customerId, emailAddress)
            && node.value.level == 0 && node.value.children == [])
      && (s.Rows() != [] ==>
            var row := s.Rows()[0];
            && node.value.descriptiveName == row.descriptiveName
            && node.value.currencyCode == row.currencyCode
            && node.value.timeZone == row.timeZone
            && node.value.isManager == row.manager)
      && (s.Rows() == [] && s.failure.Some? ==>
            && node.value.descriptiveName == "Unknown"
            && node.value.currencyCode == "USD" && node.value.timeZone == "UTC"
            && !node.value.isManager)
  {
    var stream := dir.customerRows(customerId);
    var rows := stream.Rows();
    if rows != [] then
      var row := rows[0];
      Some(NewCustomerNode(customerId, ResourceNameOf(customerId), row.descriptiveName,
                           AccessRoleForCustomer(dir, customerId, emailAddress),
                           row.currencyCode, row.timeZone, row.manager, 0))
    else if stream.failure.Some? then
      Some(NewCustomerNode(customerId, ResourceNameOf(customerId), "Unknown",
                           AccessRoleForCustomer(dir, customerId, emailAddress), "USD", "UTC", false, 0))
    else None
  }

  /** `findManagerForClient`: the id of the first manager link delivered, or null. */
  function FindManagerForClient(dir: Directory, clientId: string): (managerId: Option<string>)
    ensures var rows := dir.managerLinkRows(clientId).Rows();
      && (managerId.None? <==> rows == [])
      && (managerId.Some? ==> managerId.value == ExtractCustomerId(rows[0]) && SlashFree(managerId.value))
  {
    var rows := dir.managerLinkRows(clientId).Rows();
    if rows == [] then None else Some(ExtractCustomerId(rows[0]))
  }

  /**
   * Only the first manager link matters: later links, and any exception
   * the search throws, leave the answer unchanged.
   */
  lemma {:induction false} ManagerForClientFirstRow(dir: Directory, dir': Directory, clientId: string)
    requires SameFirstRow(dir.managerLinkRows(clientId), dir'.managerLinkRows(clientId))
    ensures FindManagerForClient(dir, clientId) == FindManagerForClient(dir', clientId)
  {
  }

  /**
   * Only the first row of the details search matters, and when no row is
   * delivered, only whether the search threw: later rows and the exception's
   * message leave the details unchanged.
   */
  lemma {:induction false} CustomerDetailsFirstRow(dir: Directory, customerRows': string -> Stream<CustomerRow>,
                                                   customerId: string, emailAddress: string)
    requires SameFirstRow(dir.customerRows(customerId), customerRows'(customerId))
    requires dir.customerRows(customerId).Rows() == [] ==>
      dir.customerRows(customerId).failure.Some? == customerRows'(customerId).failure.Some?
    ensures CustomerDetails(dir, customerId, emailAddress)
      == CustomerDetails(dir.(customerRows := customerRows'), customerId, emailAddress)
  {
  }

  /** `findClientsForManager`: the ids of every client link delivered before the search ended or threw. */
  function FindClientsForManager(dir: Directory, managerId: string): (clientIds: seq<string>)
    ensures var rows := dir.clientLinkRows(managerId).Rows();
      && |clientIds| == |rows|
      && forall i :: 0 <= i < |rows| ==> clientIds[i] == ExtractCustomerId(rows[i])
  {
    var rows := dir.clientLinkRows(managerId).Rows();
    seq(|rows|, i requires 0 <= i < |rows| => ExtractCustomerId(rows[i]))
  }

  /** A failure after the rows changes nothing: what was collected is returned. */
  lemma {:induction false} ClientsSurviveFailure(dir: Directory, dir': Directory, managerId: string)
    requires dir.clientLinkRows(managerId).batches == dir'.clientLinkRows(managerId).batches
    ensures FindClientsForManager(dir, managerId) == FindClientsForManager(dir', managerId)
  {
  }

  /** What the first loop of `getCustomerHierarchy` has built. */
  datatype Accounts = Accounts(customers: map<string, CustomerHierarchyNode>, clientToManager: map<string, string>)

  /**
   * One id of the first loop: store the details, and for a client, its
   * manager. `details` and `managerOf` stand for the two remote lookups.
   */
  function CollectStep(details: string -> Option<CustomerHierarchyNode>, managerOf: string -> Option<string>,
                       acc: Accounts, customerId: string): Accounts {
    match details(customerId)
    case None => acc
    case Some(node) =>
      var customers := acc.customers[customerId := node];
      if node.isManager then Accounts(customers, acc.clientToManager)
      else
        match managerOf(customerId)
        case None => Accounts(customers, acc.clientToManager)
        case Some(managerId) => Accounts(customers, acc.clientToManager[customerId := managerId])
  }

  /** The first loop's invariant: what it holds for the ids in `ids`. */
  ghost predicate Collected(details: string -> Option<CustomerHierarchyNode>, managerOf: string -> Option<string>,
                            ids: set<string>, acc: Accounts) {
    && (forall id :: id in acc.customers <==> id in ids && details(id).Some?)
    && (forall id :: id in acc.customers ==> acc.customers[id] == details(id).value)
    && (forall id :: id in acc.clientToManager <==>
          id in acc.customers && !acc.customers[id].isManager && managerOf(id).Some?)
    && (forall id :: id in acc.clientToManager ==> acc.clientToManager[id] == managerOf(id).value)
  }

  lemma {:induction false} CollectStepKeeps(details: string -> Option<CustomerHierarchyNode>, managerOf: string -> Option<string>,
                         ids: set<string>, acc: Accounts, customerId: string)
    requires Collected(details, managerOf, ids, acc)
    ensures Collected(details, managerOf, ids + {customerId}, CollectStep(details, managerOf, acc, customerId))
  {
  }

  /** The first loop over the ids, in order. */
  function Collect(details: string -> Option<CustomerHierarchyNode>, managerOf: string -> Option<string>,
                   ids: seq<string>): (acc: Accounts)
    ensures Collected(details, managerOf, (set id | id in ids), acc)
    decreases |ids|
  {
    if ids == [] then Accounts(map[], map[])
    else
      var n := |ids|;
      var prefix := ids[..n - 1];
      var prev := Collect(details, managerOf, prefix);
      assert (set id | id in ids) == (set id | id in prefix) + {ids[n - 1]} by {
        assert ids == prefix + [ids[n - 1]];
      }
      CollectStepKeeps(details, managerOf, (set id | id in prefix), prev, ids[n - 1]);
      CollectStep(details, managerOf, prev, ids[n - 1])
  }

  /** The ids of a list of resource names, in order. */
  function IdsOf(resourceNames: seq<string>): (ids: seq<string>)
    ensures |ids| == |resourceNames|
    ensures forall i :: 0 <= i < |ids| ==> ids[i] == ExtractCustomerId(resourceNames[i])
  {
    seq(|resourceNames|, i requires 0 <= i < |resourceNames| => ExtractCustomerId(resourceNames[i]))
  }

  /**
   * The first loop of `getCustomerHierarchy`: an account for every listed id
   * whose details are not null, and a manager for every such client whose
   * manager lookup answered.
   */
  function CollectAccounts(dir: Directory, emailAddress: string, resourceNames: seq<string>): Accounts {
    Collect(id => CustomerDetails(dir, id, emailAddress), id => FindManagerForClient(dir, id), IdsOf(resourceNames))
  }

  /** The first loop over the ids of some resource names, for any pair of lookups. */
  lemma {:induction false} CollectOfNames(details: string -> Option<CustomerHierarchyNode>,
                                          managerOf: string -> Option<string>, resourceNames: seq<string>)
    ensures var acc := Collect(details, managerOf, IdsOf(resourceNames));
      forall id :: id in acc.customers <==>
        (exists i :: 0 <= i < |resourceNames| && ExtractCustomerId(resourceNames[i]) == id) && details(id).Some?
    ensures var acc := Collect(details, managerOf, IdsOf(resourceNames));
      forall id :: id in acc.customers ==> acc.customers[id] == details(id).value
    ensures var acc := Collect(details, managerOf, IdsOf(resourceNames));
      forall id :: id in acc.clientToManager <==>
        id in acc.customers && !acc.customers[id].isManager && managerOf(id).Some?
    ensures var acc := Collect(details, managerOf, IdsOf(resourceNames));
      forall id :: id in acc.clientToManager ==> acc.clientToManager[id] == managerOf(id).value
  {
    var ids := IdsOf(resourceNames);
    var acc := Collect(details, managerOf, ids);
    assert Collected(details, managerOf, (set id | id in ids), acc);
    IdsOfMembers(resourceNames);
  }

  /** An id is among the extracted ids exactly when some listed name yields it. */
  lemma {:induction false} IdsOfMembers(resourceNames: seq<string>)
    ensures forall id :: id in IdsOf(resourceNames) <==>
      exists i :: 0 <= i < |resourceNames| && ExtractCustomerId(resourceNames[i]) == id
  {
    var ids := IdsOf(resourceNames);
    forall id ensures id in ids <==> exists i :: 0 <= i < |resourceNames| && ExtractCustomerId(resourceNames[i]) == id {
      if id in ids {
        var i :| 0 <= i < |ids| && ids[i] == id;
      }
    }
  }

  /** What the first loop holds, in terms of the remote lookups. */
  lemma {:induction false} CollectAccountsHolds(dir: Directory, emailAddress: string, resourceNames: seq<string>)
    ensures var acc := CollectAccounts(dir, emailAddress, resourceNames);
      && (forall id :: id in acc.customers <==>
            (exists i :: 0 <= i < |resourceNames| && ExtractCustomerId(resourceNames[i]) == id)
            && CustomerDetails(dir, id, emailAddress).Some?)
      && (forall id :: id in acc.customers ==> acc.customers[id] == CustomerDetails(dir, id, emailAddress).value)
      && (forall id :: id in acc.clientToManager <==>
            id in acc.customers && !acc.customers[id].isManager && FindManagerForClient(dir, id).Some?)
      && (forall id :: id in acc.clientToManager ==> acc.clientToManager[id] == FindManagerForClient(dir, id).value)
  {
    var details := id => CustomerDetails(dir, id, emailAddress);
    var managerOf := id => FindManagerForClient(dir, id);
    CollectOfNames(details, managerOf, resourceNames);
    assert forall id :: details(id) == CustomerDetails(dir, id, emailAddress);
    assert forall id :: managerOf(id) == FindManagerForClient(dir, id);
  }

  /** The second loop's inner loop: every listed client we hold now maps to this manager. */
  function RecordClients(clientToManager: map<string, string>, keys: set<string>, managerId: string,
                         clientIds: seq<string>): (r: map<string, string>)
    ensures forall c :: c in r <==> c in clientToManager || (c in clientIds && c in keys)
    ensures forall c :: c in r ==> r[c] == if c in clientIds && c in keys then managerId else clientToManager[c]
    decreases |clientIds|
  {
    if clientIds == [] then clientToManager
    else
      var step := if clientIds[0] in keys then clientToManager[clientIds[0] := managerId] else clientToManager;
      assert forall c :: c in clientIds <==> c == clientIds[0] || c in clientIds[1..];
      RecordClients(step, keys, managerId, clientIds[1..])
  }

  /** Whether the account under key `m` is a manager whose client list names `clientId`. */
  predicate Lists(customers: map<string, CustomerHierarchyNode>, clientsOf: string -> seq<string>,
                  m: string, clientId: string) {
    m in customers && customers[m].isManager && clientId in clientsOf(customers[m].customerId)
  }

  /** The keys, in iteration order, of the managers whose client list names `clientId`. */
  function Listing(customers: map<string, CustomerHierarchyNode>, clientsOf: string -> seq<string>,
                   order: seq<string>, clientId: string): (listing: seq<string>)
    ensures forall i :: 0 <= i < |listing| ==> Lists(customers, clientsOf, listing[i], clientId)
  {
    if order == [] then []
    else
      (if Lists(customers, clientsOf, order[0], clientId) then [order[0]] else [])
      + Listing(customers, clientsOf, order[1..], clientId)
  }

  /** One manager of the second loop: a manager records its listed clients; any other account does nothing. */
  function ManagerStep(customers: map<string, CustomerHierarchyNode>, clientsOf: string -> seq<string>,
                       clientToManager: map<string, string>, m: string): (r: map<string, string>)
    requires m in customers
    ensures forall c :: c in r <==> c in clientToManager || (Lists(customers, clientsOf, m, c) && c in customers)
    ensures forall c :: c in r ==>
      r[c] == if Lists(customers, clientsOf, m, c) && c in customers then customers[m].customerId
              else clientToManager[c]
  {
    var node := customers[m];
    if node.isManager
    then RecordClients(clientToManager, customers.Keys, node.customerId, clientsOf(node.customerId))
    else clientToManager
  }

  /**
   * The second loop of `getCustomerHierarchy`: for each manager, in map order,
   * every client it lists that we hold is mapped to it, overwriting any earlier
   * entry.
   */
  function ManagerPass(customers: map<string, CustomerHierarchyNode>, clientsOf: string -> seq<string>,
                       clientToManager: map<string, string>, order: seq<string>): map<string, string>
    requires forall i :: 0 <= i < |order| ==> order[i] in customers
    decreases |order|
  {
    if order == [] then clientToManager
    else ManagerPass(customers, clientsOf, ManagerStep(customers, clientsOf, clientToManager, order[0]), order[1..])
  }

  lemma {:induction false} ListingCons(customers: map<string, CustomerHierarchyNode>, clientsOf: string -> seq<string>,
                    order: seq<string>, c: string)
    requires order != []
    ensures var rest := Listing(customers, clientsOf, order[1..], c);
      var listing := Listing(customers, clientsOf, order, c);
      && (listing != [] <==> Lists(customers, clientsOf, order[0], c) || rest != [])
      && (rest != [] ==> listing[|listing| - 1] == rest[|rest| - 1])
      && (rest == [] && Lists(customers, clientsOf, order[0], c) ==> listing[|listing| - 1] == order[0])
  {
    var head := if Lists(customers, clientsOf, order[0], c) then [order[0]] else [];
    var rest := Listing(customers, clientsOf, order[1..], c);
    var listing := Listing(customers, clientsOf, order, c);
    assert listing == head + rest;
  }

  /**
   * The second loop keeps every entry it does not overwrite, and the last
   * listing manager wins for every held client some manager lists.
   */
  lemma {:induction false} ManagerPassEffect(customers: map<string, CustomerHierarchyNode>,
                                             clientsOf: string -> seq<string>,
                                             clientToManager: map<string, string>, order: seq<string>, c: string)
    requires forall i :: 0 <= i < |order| ==> order[i] in customers
    ensures var r := ManagerPass(customers, clientsOf, clientToManager, order);
      var listing := Listing(customers, clientsOf, order, c);
      && (c in r <==> c in clientToManager || (c in customers && listing != []))
      && (c in r && c in customers && listing != [] ==> r[c] == customers[listing[|listing| - 1]].customerId)
      && (c in r && !(c in customers && listing != []) ==> r[c] == clientToManager[c])
    decreases |order|
  {
    if order != [] {
      var step := ManagerStep(customers, clientsOf, clientToManager, order[0]);
      ManagerPassEffect(customers, clientsOf, step, order[1..], c);
      ListingCons(customers, clientsOf, order, c);
    }
  }

  /** The manager-side lookup as a function of the manager id. */
  function ClientLinks(dir: Directory): string -> seq<string> {
    id => FindClientsForManager(dir, id)
  }

  /** The client-to-manager map after both loops. */
  function ClientManagerMap(dir: Directory, emailAddress: string, resourceNames: seq<string>,
                            keyOrder: seq<string>): map<string, string>
    requires IsEnumeration(keyOrder, CollectAccounts(dir, emailAddress, resourceNames).customers.Keys)
  {
    var acc := CollectAccounts(dir, emailAddress, resourceNames);
    ManagerPass(acc.customers, ClientLinks(dir), acc.clientToManager, keyOrder)
  }

  /**
   * The accounts of the first loop are stored under their own ids, have no
   * children yet, and sit at level 0.
   */
  lemma {:induction false} CollectedAccountsFresh(dir: Directory, emailAddress: string, resourceNames: seq<string>)
    ensures var customers := CollectAccounts(dir, emailAddress, resourceNames).customers;
      && KeysMatch(customers) && Childless(customers)
      && forall k :: k in customers ==> customers[k].level == 0
  {
    CollectAccountsHolds(dir, emailAddress, resourceNames);
  }

  /**
   * Both passes together: a held account gets an entry when some held
   * manager lists it, or when it is a client whose own manager lookup
   * answered. The last listing manager in iteration order wins; the
   * client-side answer is kept only when no held manager lists it.
   */
  lemma {:induction false} ClientManagerMapEntry(dir: Directory, emailAddress: string, resourceNames: seq<string>,
                              keyOrder: seq<string>, c: string)
    requires IsEnumeration(keyOrder, CollectAccounts(dir, emailAddress, resourceNames).customers.Keys)
    ensures var customers := CollectAccounts(dir, emailAddress, resourceNames).customers;
      var m := ClientManagerMap(dir, emailAddress, resourceNames, keyOrder);
      var listing := Listing(customers, ClientLinks(dir), keyOrder, c);
      && (c in m <==> c in customers
                      && (listing != [] || (!customers[c].isManager && FindManagerForClient(dir, c).Some?)))
      && (c in m && listing != [] ==> m[c] == listing[|listing| - 1])
      && (c in m && listing == [] ==> m[c] == FindManagerForClient(dir, c).value)
  {
    var acc := CollectAccounts(dir, emailAddress, resourceNames);
    CollectAccountsHolds(dir, emailAddress, resourceNames);
    CollectedAccountsFresh(dir, emailAddress, resourceNames);
    ManagerPassEffect(acc.customers, ClientLinks(dir), acc.clientToManager, keyOrder, c);
  }

  /**
   * `getCustomerHierarchy`, with the two map iteration orders as inputs. Fails
   * only when listing the accessible accounts fails.
   */
  function GetCustomerHierarchy(dir: Directory, emailAddress: string, keyOrder: seq<string>,
                                entryOrder: seq<string>): (r: Attempt<Forest>)
    requires dir.accessibleResourceNames.Success? ==>
      var names := dir.accessibleResourceNames.value;
      && IsEnumeration(keyOrder, CollectAccounts(dir, emailAddress, names).customers.Keys)
      && IsEnumeration(entryOrder, ClientManagerMap(dir, emailAddress, names, keyOrder).Keys)
    ensures r.Failure? <==> dir.accessibleResourceNames.Failure?
    ensures r.Failure? ==> r.message == "Failed to build customer hierarchy: " + dir.accessibleResourceNames.message
    ensures r.Success? ==> r.value.nodes.Keys == CollectAccounts(dir, emailAddress, dir.accessibleResourceNames.value).customers.Keys
  {
    match dir.accessibleResourceNames
    case Failure(message) => Failure("Failed to build customer hierarchy: " + message)
    case Success(names) =>
      var acc := CollectAccounts(dir, emailAddress, names);
      var clientToManager := ClientManagerMap(dir, emailAddress, names, keyOrder);
      Success(BuildHierarchyStructure(acc.customers, clientToManager, keyOrder, entryOrder))
  }

  /** Every manager account the first loop holds is a root of the hierarchy. */
  lemma {:induction false} HierarchyManagersAreRoots(dir: Directory, emailAddress: string, keyOrder: seq<string>,
                                  entryOrder: seq<string>, k: string)
    requires dir.accessibleResourceNames.Success?
    requires var names := dir.accessibleResourceNames.value;
      && IsEnumeration(keyOrder, CollectAccounts(dir, emailAddress, names).customers.Keys)
      && IsEnumeration(entryOrder, ClientManagerMap(dir, emailAddress, names, keyOrder).Keys)
    requires var customers := CollectAccounts(dir, emailAddress, dir.accessibleResourceNames.value).customers;
      k in customers && customers[k].isManager
    ensures k in GetCustomerHierarchy(dir, emailAddress, keyOrder, entryOrder).value.roots
  {
    var names := dir.accessibleResourceNames.value;
    ManagersAreRoots(CollectAccounts(dir, emailAddress, names).customers,
                     ClientManagerMap(dir, emailAddress, names, keyOrder), keyOrder, entryOrder, k);
  }

  /**
   * Every client account the first loop holds is placed exactly once: under
   * its mapped manager, at level 1, when we hold that manager; otherwise as a
   * root at its original level, and then it is nobody's child.
   */
  lemma {:induction false} HierarchyClientPlacedOnce(dir: Directory, emailAddress: string, keyOrder: seq<string>,
                                  entryOrder: seq<string>, k: string)
    requires dir.accessibleResourceNames.Success?
    requires var names := dir.accessibleResourceNames.value;
      && IsEnumeration(keyOrder, CollectAccounts(dir, emailAddress, names).customers.Keys)
      && IsEnumeration(entryOrder, ClientManagerMap(dir, emailAddress, names, keyOrder).Keys)
    requires var customers := CollectAccounts(dir, emailAddress, dir.accessibleResourceNames.value).customers;
      k in customers && !customers[k].isManager
    ensures var names := dir.accessibleResourceNames.value;
      var customers := CollectAccounts(dir, emailAddress, names).customers;
      var m := ClientManagerMap(dir, emailAddress, names, keyOrder);
      var f := GetCustomerHierarchy(dir, emailAddress, keyOrder, entryOrder).value;
      if k in m && m[k] in customers then
        && multiset(f.roots)[k] == 0 && f.nodes[k].level == 1
        && ChildCount(f, m[k], k) == 1
        && forall p :: p != m[k] ==> ChildCount(f, p, k) == 0
      else
        && multiset(f.roots)[k] == 1 && f.nodes[k].level == 0
        && forall p :: ChildCount(f, p, k) == 0
  {
    var names := dir.accessibleResourceNames.value;
    var customers := CollectAccounts(dir, emailAddress, names).customers;
    var m := ClientManagerMap(dir, emailAddress, names, keyOrder);
    CollectedAccountsFresh(dir, emailAddress, names);
    if Attached(customers.Keys, m, k) {
      AttachedClientPlacedOnce(customers, m, keyOrder, entryOrder, k);
    } else {
      UnattachedClientIsRoot(customers, m, keyOrder, entryOrder, k);
    }
  }

  /**
   * As written, a held manager that another held manager lists as a client
   * is shown twice: once as a root and once under the last manager that
   * lists it.
   */
  lemma {:induction false} HierarchySubManagerShownTwice(dir: Directory, emailAddress: string, keyOrder: seq<string>,
                                      entryOrder: seq<string>, k: string)
    requires dir.accessibleResourceNames.Success?
    requires var names := dir.accessibleResourceNames.value;
      && IsEnumeration(keyOrder, CollectAccounts(dir, emailAddress, names).customers.Keys)
      && IsEnumeration(entryOrder, ClientManagerMap(dir, emailAddress, names, keyOrder).Keys)
    requires var customers := CollectAccounts(dir, emailAddress, dir.accessibleResourceNames.value).customers;
      && k in customers && customers[k].isManager
      && Listing(customers, ClientLinks(dir), keyOrder, k) != []
    ensures var names := dir.accessibleResourceNames.value;
      var customers := CollectAccounts(dir, emailAddress, names).customers;
      var listing := Listing(customers, ClientLinks(dir), keyOrder, k);
      var f := GetCustomerHierarchy(dir, emailAddress, keyOrder, entryOrder).value;
      multiset(f.roots)[k] == 1 && ChildCount(f, listing[|listing| - 1], k) == 1
  {
    var names := dir.accessibleResourceNames.value;
    var customers := CollectAccounts(dir, emailAddress, names).customers;
    var m := ClientManagerMap(dir, emailAddress, names, keyOrder);
    CollectedAccountsFresh(dir, emailAddress, names);
    var listing := Listing(customers, ClientLinks(dir), keyOrder, k);
    ClientManagerMapEntry(dir, emailAddress, names, keyOrder, k);
    assert Lists(customers, ClientLinks(dir), listing[|listing| - 1], k);
    assert Attached(customers.Keys, m, k) && m[k] == listing[|listing| - 1];
    SubManagerListedTwice(customers, m, keyOrder, entryOrder, k);
    assert GetCustomerHierarchy(dir, emailAddress, keyOrder, entryOrder).value
      == BuildHierarchyStructure(customers, m, keyOrder, entryOrder);
  }
}

# Google Ads MCC hierarchy service — a Dafny model

The service lists the Google Ads customer accounts an authenticated user can
reach, labels each with the user's access role, and arranges them into a
manager/client hierarchy. It does this in two ways:

* `CustomerService` lists the accessible accounts and looks up each one's
  details. It asks each client account for its manager and each manager
  account for its clients. It then builds a forest: managers and orphaned
  clients are roots, and clients hang under their manager.
* The experimental `ExperimentalMccService` picks the manager (MCC) accounts
  among the accessible ones. For each manager it fetches the level-1 clients
  in a single search, then sorts them: managers first, then by name,
  case-sensitively. It reports one flat tree per manager, plus totals.

The model also covers:

* the two node records, `CustomerHierarchyNode` and `MccHierarchyNode`;
* the traversal summary of `MccTraversalResult`;
* the user-access lookup of `UserAccessService`;
* the front end's `formatCustomerId`.

The Google Ads API is a value of type `Remote.Directory`. It records each
remote answer as a function of the request. A search answers with a
`Stream`: the batches of rows it delivers, then possibly the exception it
throws. This covers the source's cases:

* "first row or null";
* "rows read before the failure are kept";
* "placeholder on failure".

Trees are held as an id-indexed map of nodes whose children are ids.
`HashMap` iteration orders are explicit inputs: a sequence that enumerates
the map's keys exactly once.

Java `int` arithmetic wraps modulo 2^32, and `JavaInts` writes the wrap out.
It applies to the `totalAccounts`/`totalErrors` counters, `incrementErrors`,
and the `(int)` cast of a client's 64-bit level. `String.compareTo`
compares UTF-16 code units (`Utf16`). JavaScript strings in the formatter
are sequences of UTF-16 code units as well.

Points of behaviour worth knowing:

* The traversal summary reads "via MCC".
* The experimental service only ever does a single-level, flat traversal.
* `getDirectChildrenForMcc` catches search failures itself, so
  `totalErrors` counts only managers whose id does not parse. See
  "Findings".
* A manager account that another accessible manager lists as a client is
  shown twice: once as a root and once under that manager
  (`CustomerService.HierarchySubManagerShownTwice`).

## Model

Source paths are relative to the repository root.

| member | source | states |
|---|---|---|
| JavaInts.ToInt32 | src/main/java/org/adthena/adwordsmcc/experimental/mcc/ExperimentalMccService.java:81 | a value already inside the 32-bit range is unchanged by the wrap-around of Java `int` addition |
| JavaInts.ToInt32Add | src/main/java/org/adthena/adwordsmcc/experimental/mcc/ExperimentalMccService.java:71-91 | wrapping after each addition gives the same counter as wrapping once after the whole unbounded sum |
| JavaInts.Increment32 | src/main/java/org/adthena/adwordsmcc/experimental/mcc/model/MccTraversalResult.java:96-98 | `++` on an `int` adds one below the maximum and wraps the maximum to the minimum |
| JavaInts.Increment32IsToInt32 | src/main/java/org/adthena/adwordsmcc/experimental/mcc/ExperimentalMccService.java:85 | `totalErrors++` agrees with wrapping the unbounded count plus one |
| ResourceNames.LastIndexOf | src/main/java/org/adthena/adwordsmcc/service/CustomerService.java:120 | `lastIndexOf` finds the character at its index and nowhere after it, or -1 |
| ResourceNames.ExtractCustomerId | src/main/java/org/adthena/adwordsmcc/service/CustomerService.java:119-121 | the id is the slash-free suffix after the last `/`, or the whole name when there is none |
| ResourceNames.ExtractResourceNameOf | src/main/java/org/adthena/adwordsmcc/service/CustomerService.java:119-121 | extracting from `customers/<id>` gives back any slash-free id (round trip with the resource name built for an account) |
| ResourceNames.ExtractSlashFree | src/main/java/org/adthena/adwordsmcc/experimental/mcc/ExperimentalMccService.java:348-350 | a name without a slash is its own id |
| UserAccess.BuildUserAccessQuery | src/main/java/org/adthena/adwordsmcc/service/UserAccessService.java:32-43 | the query starts with `SELECT` and ends with the email clause quoting the address verbatim |
| UserAccess.QueryRoundTrip | src/main/java/org/adthena/adwordsmcc/service/UserAccessService.java:32-43 | the email address can be read back out of the query built for it |
| UserAccess.FirstUserAccess | src/main/java/org/adthena/adwordsmcc/service/UserAccessService.java:54-63 | the result is empty exactly when no row carries a user access, and is otherwise the first row, in stream order, that does |
| UserAccess.GetCustomerUserAccess | src/main/java/org/adthena/adwordsmcc/service/UserAccessService.java:17-30 | fails exactly when the search throws before any user access is delivered; otherwise returns the first one delivered |
| UserAccess.AccessRoleDisplayName | src/main/java/org/adthena/adwordsmcc/service/UserAccessService.java:65-82 | null shows as "Unknown"; the four known roles have their labels; any other role shows its enum name |
| UserAccess.DisplayNameRoundTrip | src/main/java/org/adthena/adwordsmcc/service/UserAccessService.java:65-82 | distinct roles get distinct labels: the role can be recovered from its label |
| UserAccess.DisplayNameIsNotError | src/main/java/org/adthena/adwordsmcc/service/UserAccessService.java:65-82 | no role is labelled "Error", so that label always means a failed lookup |
| CustomerNodes.NewCustomerNode | src/main/java/org/adthena/adwordsmcc/model/CustomerHierarchyNode.java:69-81 | every field is as given and the node starts without children |
| CustomerNodes.AddChild | src/main/java/org/adthena/adwordsmcc/model/CustomerHierarchyNode.java:86-88 | the child is appended after the existing children; nothing else changes |
| CustomerNodes.AccountType | src/main/java/org/adthena/adwordsmcc/model/CustomerHierarchyNode.java:100-102 | "Manager" exactly for managers and "Client" exactly for the others |
| CustomerNodes.HasChildrenAfterAdds | src/main/java/org/adthena/adwordsmcc/model/CustomerHierarchyNode.java:86-95 | after adding a list of children to a fresh node, its children are that list, and it has children exactly when the list is non-empty |
| MccNodes.NewMccNode | src/main/java/org/adthena/adwordsmcc/experimental/mcc/model/MccHierarchyNode.java:77-90 | every field is as given and the node starts without children |
| MccNodes.AddChild | src/main/java/org/adthena/adwordsmcc/experimental/mcc/model/MccHierarchyNode.java:95-97 | the child is appended after the existing children; nothing else changes |
| MccNodes.AccountType | src/main/java/org/adthena/adwordsmcc/experimental/mcc/model/MccHierarchyNode.java:109-111 | "Manager" exactly for managers and "Client" exactly for the others |
| MccNodes.HasChildrenAfterAdds | src/main/java/org/adthena/adwordsmcc/experimental/mcc/model/MccHierarchyNode.java:95-104 | after adding a list of children to a fresh node, its children are that list, and it has children exactly when the list is non-empty |
| MccTraversal.Blank | src/main/java/org/adthena/adwordsmcc/experimental/mcc/model/MccTraversalResult.java:14-16 | the no-argument constructor leaves the three lists null and all five counters and the elapsed time at zero |
| MccTraversal.NewResult | src/main/java/org/adthena/adwordsmcc/experimental/mcc/model/MccTraversalResult.java:67-71 | a null hierarchy becomes empty; both lists start empty; every counter starts at zero |
| MccTraversal.AddInaccessibleAccount | src/main/java/org/adthena/adwordsmcc/experimental/mcc/model/MccTraversalResult.java:76-81 | the id is appended to the list, which is created first when null; nothing else changes |
| MccTraversal.AddEntryPointMccId | src/main/java/org/adthena/adwordsmcc/experimental/mcc/model/MccTraversalResult.java:86-91 | the id is appended to the list, which is created first when null; nothing else changes |
| MccTraversal.IncrementErrors | src/main/java/org/adthena/adwordsmcc/experimental/mcc/model/MccTraversalResult.java:96-98 | the error counter goes up by one, wrapping at the `int` maximum; nothing else changes |
| MccTraversal.TraversalSummary | src/main/java/org/adthena/adwordsmcc/experimental/mcc/model/MccTraversalResult.java:103-111 | the summary starts with "Traversal completed in ", and parsing it gives back all seven reported numbers; a null inaccessible list counts as zero |
| MccTraversal.FieldRoundTrip | src/main/java/org/adthena/adwordsmcc/experimental/mcc/model/MccTraversalResult.java:104-106 | a `%d` number followed by its literal can be read back |
| MccTraversal.InterleaveRoundTrip | src/main/java/org/adthena/adwordsmcc/experimental/mcc/model/MccTraversalResult.java:104-110 | numbers interleaved with non-digit literals can be read back, in order |
| MccTraversal.SummaryRoundTrip | src/main/java/org/adthena/adwordsmcc/experimental/mcc/model/MccTraversalResult.java:103-111 | parsing a rendered summary gives back the fields it was rendered from |
| Decimal.NatToStringValue | src/main/java/org/adthena/adwordsmcc/experimental/mcc/model/MccTraversalResult.java:104-110 | the decimal digits `%d` prints for a natural number denote that number |
| Decimal.ReadIntRoundTrip | src/main/java/org/adthena/adwordsmcc/experimental/mcc/model/MccTraversalResult.java:104-110 | reading the decimal text of any integer, followed by a non-digit, gives back the integer and the rest |
| Decimal.IntToStringInjective | src/main/java/org/adthena/adwordsmcc/experimental/mcc/ExperimentalMccService.java:184 | distinct ids print as distinct decimal strings |
| Formatters.FormatCustomerId | frontend/src/utils/formatters.js:2-9 | a falsy value gives the empty string; a 10-unit string gets dashes after units 3 and 6, and removing them gives back the string; anything else is returned as its string |
| Formatters.FormatIdempotent | frontend/src/utils/formatters.js:2-9 | formatting an already formatted id changes nothing |
| Formatters.FormatChangesOnlyTenUnitIds | frontend/src/utils/formatters.js:5-8 | a truthy value is changed by formatting exactly when its string is 10 units long |
| Utf16.CompareToZero | src/main/java/org/adthena/adwordsmcc/experimental/mcc/ExperimentalMccService.java:266 | `compareTo` is zero exactly for equal strings |
| Utf16.CompareToAntisymmetric | src/main/java/org/adthena/adwordsmcc/experimental/mcc/ExperimentalMccService.java:266 | swapping the operands of `compareTo` negates its result |
| Utf16.CompareToTransitive | src/main/java/org/adthena/adwordsmcc/experimental/mcc/ExperimentalMccService.java:266 | `compareTo` is a transitive order |
| Utf16.UppercaseFirst | src/main/java/org/adthena/adwordsmcc/experimental/mcc/ExperimentalMccService.java:264-266 | a name starting with an ASCII capital sorts before one starting with an ASCII lower-case letter |
| Utf16.EncodeAscii | src/main/java/org/adthena/adwordsmcc/experimental/mcc/ExperimentalMccService.java:266 | an ASCII string is one code unit per character, each its own code |
| DisplayOrder.CompareAntisymmetric | src/main/java/org/adthena/adwordsmcc/experimental/mcc/ExperimentalMccService.java:246-267 | the display comparator is antisymmetric |
| DisplayOrder.CompareTransitive | src/main/java/org/adthena/adwordsmcc/experimental/mcc/ExperimentalMccService.java:246-267 | the display comparator is transitive |
| DisplayOrder.CompareZero | src/main/java/org/adthena/adwordsmcc/experimental/mcc/ExperimentalMccService.java:246-267 | two accounts compare equal exactly when both the manager flag (null read as false) and the name (null read as empty) agree |
| DisplayOrder.Insert | src/main/java/org/adthena/adwordsmcc/experimental/mcc/ExperimentalMccService.java:245-268 | one insertion step of the sort adds exactly the one account |
| DisplayOrder.InsertSorted | src/main/java/org/adthena/adwordsmcc/experimental/mcc/ExperimentalMccService.java:245-268 | inserting into a sorted list keeps it sorted |
| DisplayOrder.InsertStable | src/main/java/org/adthena/adwordsmcc/experimental/mcc/ExperimentalMccService.java:245-268 | insertion keeps accounts that compare equal in their original relative order |
| DisplayOrder.SortAccountsForDisplay | src/main/java/org/adthena/adwordsmcc/experimental/mcc/ExperimentalMccService.java:244-269 | the result is a permutation of the input, sorted by the comparator, and stable: equal-comparing accounts keep their input order |
| DisplayOrder.ManagersFirst | src/main/java/org/adthena/adwordsmcc/experimental/mcc/ExperimentalMccService.java:258-262 | no client account comes before a manager account |
| DisplayOrder.NamesOrderedWithinGroup | src/main/java/org/adthena/adwordsmcc/experimental/mcc/ExperimentalMccService.java:264-266 | within the managers, and within the clients, names are in `compareTo` order |
| Enumerations.Filter | src/main/java/org/adthena/adwordsmcc/service/CustomerService.java:340-368 | a loop that keeps some elements keeps only elements of the input that pass the test |
| Enumerations.FilterCount | src/main/java/org/adthena/adwordsmcc/service/CustomerService.java:340-368 | over a duplicate-free iteration, a passing element is kept exactly once and any other element not at all |
| ExperimentalMcc.GetAccessibleCustomerIds | src/main/java/org/adthena/adwordsmcc/experimental/mcc/ExperimentalMccService.java:111-128 | fails exactly when listing fails; otherwise gives one slash-free id per resource name, in order |
| ExperimentalMcc.IsManagerAccount | src/main/java/org/adthena/adwordsmcc/experimental/mcc/ExperimentalMccService.java:307-331 | the flag of the first row delivered; false when no row is delivered, even if the search throws |
| ExperimentalMcc.IsManagerAccountFirstRow | src/main/java/org/adthena/adwordsmcc/experimental/mcc/ExperimentalMccService.java:321-330 | only the first row matters: two searches that agree on it, or that both deliver nothing, give the same answer, whatever follows or is thrown |
| ExperimentalMcc.IdentifyMccAccounts | src/main/java/org/adthena/adwordsmcc/experimental/mcc/ExperimentalMccService.java:133-144 | an id is kept exactly when it is accessible and a manager; the result is no longer than the input |
| ExperimentalMcc.IdentifyMccAccountsAppend | src/main/java/org/adthena/adwordsmcc/experimental/mcc/ExperimentalMccService.java:133-144 | the selection keeps input order: selecting from two lists joined is joining the selections |
| ExperimentalMcc.IdentifyMccAccountsSingle | src/main/java/org/adthena/adwordsmcc/experimental/mcc/ExperimentalMccService.java:137-141 | a single id is kept exactly when it is a manager |
| ExperimentalMcc.AccountOfRow | src/main/java/org/adthena/adwordsmcc/experimental/mcc/ExperimentalMccService.java:183-191 | the account's id reads back as the row's id; its level is the row's level cast to `int`; the other fields come from the row and the manager queried |
| ExperimentalMcc.AccountsOfRows | src/main/java/org/adthena/adwordsmcc/experimental/mcc/ExperimentalMccService.java:179-196 | one account per row delivered, in order |
| ExperimentalMcc.BuildFlatTree | src/main/java/org/adthena/adwordsmcc/experimental/mcc/ExperimentalMccService.java:220-237 | the virtual root is a level-0 manager named "MCC Root (<id>)" whose resource name gives back its id; its children are the accounts in display order, a stable permutation |
| ExperimentalMcc.GetDirectChildrenForMcc | src/main/java/org/adthena/adwordsmcc/experimental/mcc/ExperimentalMccService.java:150-214 | escapes only when the id does not parse; a search that throws yields an entry with no tree, zero accounts and the error; otherwise the tree is the flat tree built from every delivered row, the account count is the number of rows, and each account is discovered via this manager |
| ExperimentalMcc.FetchedAppend | src/main/java/org/adthena/adwordsmcc/experimental/mcc/ExperimentalMccService.java:74-87 | the hierarchies collected over two runs of managers joined are the two collections joined |
| ExperimentalMcc.SumAccountsAppend | src/main/java/org/adthena/adwordsmcc/experimental/mcc/ExperimentalMccService.java:79-82 | the account total is additive over joined lists |
| ExperimentalMcc.AddEntryKeepsSum | src/main/java/org/adthena/adwordsmcc/experimental/mcc/ExperimentalMccService.java:79-82 | adding one entry's count to the wrapped running total gives the wrapped total of the longer list |
| ExperimentalMcc.CountOneMore | src/main/java/org/adthena/adwordsmcc/experimental/mcc/ExperimentalMccService.java:83-86 | one more escaped failure raises the wrapped error count by one |
| ExperimentalMcc.AddFetch | src/main/java/org/adthena/adwordsmcc/experimental/mcc/ExperimentalMccService.java:75-86 | one loop iteration keeps the loop invariant: entries are the fetches that returned, accounts are their wrapped sum, errors are the wrapped count of escaped fetches |
| ExperimentalMcc.Aggregate | src/main/java/org/adthena/adwordsmcc/experimental/mcc/ExperimentalMccService.java:70-87 | after the loop, the entries are exactly the fetches that returned, in order; totalAccounts is their wrapped account sum; totalErrors is the wrapped number of managers without an entry |
| ExperimentalMcc.Traverse | src/main/java/org/adthena/adwordsmcc/experimental/mcc/ExperimentalMccService.java:62-92 | the entry points are the accessible managers in input order; the result carries the accessible ids verbatim, the entries of the fetches that returned, the wrapped account sum, and the wrapped count of fetches that escaped |
| ExperimentalMcc.GetCompleteMccHierarchy | src/main/java/org/adthena/adwordsmcc/experimental/mcc/ExperimentalMccService.java:52-106 | fails, with the "Failed to retrieve MCC hierarchy: " prefix, exactly when listing the accessible accounts fails; otherwise it is the traversal of the listed ids |
| ExperimentalMcc.FetchFailedWhen | src/main/java/org/adthena/adwordsmcc/experimental/mcc/ExperimentalMccService.java:150-211 | a manager's fetch fails in some way exactly when its id does not parse or its search throws |
| ExperimentalMcc.FetchedErrors | src/main/java/org/adthena/adwordsmcc/experimental/mcc/ExperimentalMccService.java:74-87 | escaped failures plus entries recording a caught error are all the failed fetches |
| ExperimentalMcc.TotalErrorsMissesCaughtFailure | src/main/java/org/adthena/adwordsmcc/experimental/mcc/ExperimentalMccService.java:83-86 | one manager whose search fails, yet the reported error total is zero |
| ExperimentalMcc.CorrectedTotalErrorsWrap | src/main/java/org/adthena/adwordsmcc/experimental/mcc/ExperimentalMccService.java:72-91 | adding the caught errors to the wrapped escaped count equals wrapping the unbounded total of failures |
| ExperimentalMcc.CorrectedTotalErrorsOf | src/main/java/org/adthena/adwordsmcc/experimental/mcc/ExperimentalMccService.java:72-91 | for any loop outcome, the corrected count is the wrapped number of failed fetches |
| ExperimentalMcc.CorrectedTotalErrorsCountsEveryFailure | src/main/java/org/adthena/adwordsmcc/experimental/mcc/ExperimentalMccService.java:72-91 | the corrected error total counts every manager whose fetch failed, whether the failure escaped or was caught |
| ExperimentalMcc.CorrectedTraverse | src/main/java/org/adthena/adwordsmcc/experimental/mcc/ExperimentalMccService.java:62-92 | the traversal with the intended error total: the same entry points in input order, entries and account total, and an error total counting every failed fetch once |
| CustomerService.AccessRoleForCustomer | src/main/java/org/adthena/adwordsmcc/service/CustomerService.java:123-135 | "Error" when the id does not parse or the lookup fails; "Unknown" when no user access is found; otherwise the role's label, which is never either of those |
| CustomerService.CustomerOf | src/main/java/org/adthena/adwordsmcc/service/CustomerService.java:108-114 | the customer keeps the resource name verbatim; its id is the name's slash-free suffix; its role is the caller's role on that id |
| CustomerService.ProcessCustomersWithAccessLevels | src/main/java/org/adthena/adwordsmcc/service/CustomerService.java:101-117 | one customer per resource name, in order, each with that name and its extracted id |
| CustomerService.ListAccessibleCustomers | src/main/java/org/adthena/adwordsmcc/service/CustomerService.java:57-75 | fails, with its message prefix, exactly when the listing fails; otherwise gives one customer per listed name, in order, each with that name, its extracted id and the caller's role on it |
| CustomerService.CustomerDetails | src/main/java/org/adthena/adwordsmcc/service/CustomerService.java:229-275 | null exactly when the search delivers no row and does not throw; the first row's details when one is delivered; the "Unknown"/"USD"/"UTC" client placeholder when it throws first; always level 0, no children and `customers/<id>` |
| CustomerService.CustomerDetailsFirstRow | src/main/java/org/adthena/adwordsmcc/service/CustomerService.java:243-274 | only the first row matters, and with no row only whether the search threw: later rows and the exception's message do not change the details |
| CustomerService.FindManagerForClient | src/main/java/org/adthena/adwordsmcc/service/CustomerService.java:277-303 | null exactly when no manager link is delivered; otherwise the slash-free id of the first one |
| CustomerService.ManagerForClientFirstRow | src/main/java/org/adthena/adwordsmcc/service/CustomerService.java:292-302 | only the first manager link matters: later links and any exception leave the answer unchanged |
| CustomerService.FindClientsForManager | src/main/java/org/adthena/adwordsmcc/service/CustomerService.java:305-334 | the ids of every client link delivered, in order, up to any failure |
| CustomerService.ClientsSurviveFailure | src/main/java/org/adthena/adwordsmcc/service/CustomerService.java:322-331 | whether or not the search then throws, the clients collected are the same |
| CustomerService.CollectStepKeeps | src/main/java/org/adthena/adwordsmcc/service/CustomerService.java:190-204 | one iteration of the first loop keeps its invariant |
| CustomerService.Collect | src/main/java/org/adthena/adwordsmcc/service/CustomerService.java:190-204 | after the first loop, exactly the ids with details are held, each under its own details; exactly the held clients whose manager lookup answered are mapped, to that answer |
| CustomerService.IdsOf | src/main/java/org/adthena/adwordsmcc/service/CustomerService.java:190-192 | one extracted id per resource name, in order |
| CustomerService.IdsOfMembers | src/main/java/org/adthena/adwordsmcc/service/CustomerService.java:190-192 | an id is among those the first loop visits exactly when some listed resource name yields it |
| CustomerService.CollectOfNames | src/main/java/org/adthena/adwordsmcc/service/CustomerService.java:190-204 | for any lookups, after the first loop over the ids of the listed names: exactly the listed ids with details are held, under those details, and exactly the held clients whose manager lookup answered are mapped to that answer |
| CustomerService.CollectAccountsHolds | src/main/java/org/adthena/adwordsmcc/service/CustomerService.java:190-204 | the first loop's outcome, stated in terms of the remote lookups of the listed ids |
| CustomerService.RecordClients | src/main/java/org/adthena/adwordsmcc/service/CustomerService.java:210-214 | each listed client we hold is mapped to this manager; every other entry is kept |
| CustomerService.Listing | src/main/java/org/adthena/adwordsmcc/service/CustomerService.java:207-217 | every manager picked lists the client |
| CustomerService.ManagerStep | src/main/java/org/adthena/adwordsmcc/service/CustomerService.java:207-217 | a manager maps each held client it lists to itself; any other account changes nothing |
| CustomerService.ListingCons | src/main/java/org/adthena/adwordsmcc/service/CustomerService.java:207-217 | the last listing manager of the whole iteration is that of its tail, or else the head |
| CustomerService.ManagerPassEffect | src/main/java/org/adthena/adwordsmcc/service/CustomerService.java:207-217 | after the second loop, a held client some manager lists maps to the last such manager in iteration order; every other entry is kept |
| CustomerService.CollectedAccountsFresh | src/main/java/org/adthena/adwordsmcc/service/CustomerService.java:190-204 | the held accounts are keyed by their own ids, have no children and are at level 0 |
| CustomerService.ClientManagerMapEntry | src/main/java/org/adthena/adwordsmcc/service/CustomerService.java:190-217 | both loops together: a held account is mapped when a held manager lists it or its own lookup answered; the manager-side answer wins |
| CustomerService.GetCustomerHierarchy | src/main/java/org/adthena/adwordsmcc/service/CustomerService.java:176-227 | fails, with its message prefix, exactly when the listing fails; otherwise the forest holds exactly the accounts the first loop collected |
| CustomerService.HierarchyManagersAreRoots | src/main/java/org/adthena/adwordsmcc/service/CustomerService.java:340-344 | every held manager is a root of the hierarchy |
| CustomerService.HierarchyClientPlacedOnce | src/main/java/org/adthena/adwordsmcc/service/CustomerService.java:176-227 | every held client appears once: under its mapped manager at level 1 when that manager is held, otherwise as a root at level 0 and nobody's child |
| CustomerService.HierarchySubManagerShownTwice | src/main/java/org/adthena/adwordsmcc/service/CustomerService.java:340-361 | a held manager that another held manager lists is both a root and a child of the last manager that lists it |
| HierarchyAssembly.ClientsOfCons | src/main/java/org/adthena/adwordsmcc/service/CustomerService.java:347-361 | the clients attached to a manager are gathered in entry order |
| HierarchyAssembly.AttachEntry | src/main/java/org/adthena/adwordsmcc/service/CustomerService.java:348-360 | attaching one entry adds and removes no node |
| HierarchyAssembly.AttachEntryChildren | src/main/java/org/adthena/adwordsmcc/service/CustomerService.java:348-360 | only the mapped manager, and only when both nodes are held, gains the client as its last child |
| HierarchyAssembly.AttachEntryEffect | src/main/java/org/adthena/adwordsmcc/service/CustomerService.java:348-360 | an attached client's level becomes 1; no other node or field changes |
| HierarchyAssembly.AttachAll | src/main/java/org/adthena/adwordsmcc/service/CustomerService.java:347-361 | the second loop adds and removes no node |
| HierarchyAssembly.AttachAllChildren | src/main/java/org/adthena/adwordsmcc/service/CustomerService.java:347-361 | each node's children become its previous children followed by its attached clients, in entry order |
| HierarchyAssembly.AttachAllLevel | src/main/java/org/adthena/adwordsmcc/service/CustomerService.java:347-361 | exactly the attached clients are moved to level 1 |
| HierarchyAssembly.AttachAllOthers | src/main/java/org/adthena/adwordsmcc/service/CustomerService.java:347-361 | fields other than level and children are unchanged |
| HierarchyAssembly.AttachAllEffect | src/main/java/org/adthena/adwordsmcc/service/CustomerService.java:347-361 | children, level and the other fields together, for every node |
| HierarchyAssembly.BuildHierarchyStructure | src/main/java/org/adthena/adwordsmcc/service/CustomerService.java:336-371 | the forest has the same nodes; each gains its attached clients as children; attached clients move to level 1; every root is a held account, listed as often as `RootCount` says |
| HierarchyAssembly.RootsCount | src/main/java/org/adthena/adwordsmcc/service/CustomerService.java:340-368 | the three root loops together list each account once per reason it has to be a root |
| HierarchyAssembly.Placement | src/main/java/org/adthena/adwordsmcc/service/CustomerService.java:336-371 | an account is a child of exactly its mapped manager, once, when both are held, and of no other node |
| HierarchyAssembly.ManagersAreRoots | src/main/java/org/adthena/adwordsmcc/service/CustomerService.java:340-344 | every held manager is a root |
| HierarchyAssembly.AttachedClientPlacedOnce | src/main/java/org/adthena/adwordsmcc/service/CustomerService.java:347-361 | a client whose manager is held is that manager's child once, nobody else's, never a root, at level 1 |
| HierarchyAssembly.UnattachedClientIsRoot | src/main/java/org/adthena/adwordsmcc/service/CustomerService.java:352-368 | a client whose manager is missing or unknown is a root once, nobody's child, and keeps its level |
| HierarchyAssembly.SubManagerListedTwice | src/main/java/org/adthena/adwordsmcc/service/CustomerService.java:340-361 | a manager mapped under another held manager is listed both as a root and as a child |

## Left out

- The Google Ads client, OAuth credentials and Spring wiring are left out. The remote side is the `Directory` value; only what each call answers is modelled.
- The Jackson conversion of the experimental result to JSON, and its fallback error text, are left out. The model returns the record that would be serialised.
- `System.currentTimeMillis` is left out. The elapsed time is an input of `ExperimentalMcc.GetCompleteMccHierarchy`.
- `Long.parseLong` is an input function of the directory, `parseLong`. Its exception message is a fixed placeholder (`UnparsedPrefix`) because the JDK's text is not part of this model.
- Logging (`logger`, `System.out`/`System.err`) is left out: it has no effect on results.
- The REST controllers, the token service and `getUserEmail`, and the React components other than `formatCustomerId` are left out. The caller's email address is an input.
- `getClientAccountsForManager` is left out: nothing in the service calls it.
- Lombok-generated getters, setters and the all-arguments constructors are left out. Fields are read directly.
- The counters of `MccTraversalResult` that no code here updates (total, direct, via-MCC, maximum depth, time) are plain fields set only by construction.
- `HashMap` iteration order is an input: a sequence enumerating the keys once.
- ExperimentalMcc.MccHierarchy: the per-manager `totalAccounts` is an unbounded count. A Java list has fewer than 2^31 elements, so `size()` cannot wrap.
- MccTraversal.TraversalSummary: `String.format` prints `%d` in the JVM's default locale; the model assumes a locale whose digits are the ASCII '0' to '9' and that adds no grouping separators.
- Formatters.FormatCustomerId: numbers are integers of magnitude at most 2^53, which JavaScript prints digit for digit. Fractions, larger magnitudes (where `toString` prints the shortest round-tripping digits, e.g. 2^60 as "1152921504606847000", or switches to exponent form) and integers that are not doubles are excluded by its `PlainNumber` precondition.
- ExperimentalMcc.GetCompleteMccHierarchy: its success case is stated as equal to `Traverse`, whose contract carries the properties.
- Customer ids are compared as exact strings. Unicode normalisation and case folding play no part.

## Findings

| source | as written | input that shows it | evidently intended | confidence | as-written member | corrected member |
|---|---|---|---|---|---|---|
| src/main/java/org/adthena/adwordsmcc/experimental/mcc/ExperimentalMccService.java:83-86 | `totalErrors` grows only when `getDirectChildrenForMcc` throws. But that method catches every search failure itself (lines 205-211), so only an id that fails `Long.parseLong` is ever counted | one accessible manager "1" whose level-1 search throws "quota exceeded": its entry records the error, yet `totalErrors` is 0 | `totalErrors` counts every manager whose fetch failed, whether the failure escaped or was recorded in its entry | medium, not executed | ExperimentalMcc.TotalErrorsMissesCaughtFailure | ExperimentalMcc.CorrectedTraverse |

/**
 * `ExperimentalMccService`: for every manager (MCC) account the caller can
 * see, one `customer_client` search for its level-1 accounts, shown as a
 * flat tree under a virtual root, plus totals over all managers. The JSON
 * rendering of the result is not modelled; the result is the record that
 * would be rendered.
 */
module ExperimentalMcc {
  import opened Results
  import opened Remote
  import opened Decimal
  import opened ResourceNames
  import opened DisplayOrder
  import opened JavaInts

  /** The message of the whole call when the accessible accounts cannot be listed. */
  const FailedPrefix := "Failed to retrieve MCC hierarchy: "
  /** Stands for the `NumberFormatException` of `Long.parseLong`, whose text is not modelled. */
  const UnparsedPrefix := "login customer id does not parse: "

  /** `getAccessibleCustomerIds`: the id of every accessible resource name, in order. */
  function GetAccessibleCustomerIds(dir: Directory): (r: Attempt<seq<string>>)
    ensures r.Failure? <==> dir.accessibleResourceNames.Failure?
    ensures r.Failure? ==> r.message == dir.accessibleResourceNames.message
    ensures r.Success? ==>
      var names := dir.accessibleResourceNames.value;
      && |r.value| == |names|
      && forall i :: 0 <= i < |names| ==> r.value[i] == ExtractCustomerId(names[i]) && SlashFree(r.value[i])
  {
    match dir.accessibleResourceNames
    case Failure(message) => Failure(message)
    case Success(names) =>
      Success(seq(|names|, i requires 0 <= i < |names| => ExtractCustomerId(names[i])))
  }

  /**
   * `isManagerAccount`: the flag of the first row; false when the search
   * yields no row, whether or not it then throws.
   */
  function IsManagerAccount(dir: Directory, customerId: string): (isManager: bool)
    ensures var rows := dir.managerFlagRows(customerId).Rows();
      isManager <==> rows != [] && rows[0]
    ensures dir.managerFlagRows(customerId).Rows() == [] ==> !isManager
  {
    var rows := dir.managerFlagRows(customerId).Rows();
    if rows == [] then false else rows[0]
  }

  /**
   * Only the first row matters: any later rows, and any exception the search
   * throws, leave the answer unchanged.
   */
  lemma {:induction false} IsManagerAccountFirstRow(dir: Directory, dir': Directory, customerId: string)
    requires SameFirstRow(dir.managerFlagRows(customerId), dir'.managerFlagRows(customerId))
    ensures IsManagerAccount(dir, customerId) == IsManagerAccount(dir', customerId)
  {
  }

  /** An id is an entry point exactly when it is accessible and a manager. */
  ghost predicate EntryPoints(dir: Directory, customerIds: seq<string>, mccIds: seq<string>) {
    forall x :: x in mccIds <==> x in customerIds && IsManagerAccount(dir, x)
  }

  /** `identifyMccAccounts`: the manager ids among `customerIds`, in their order. */
  function IdentifyMccAccounts(dir: Directory, customerIds: seq<string>): (mccIds: seq<string>)
    ensures |mccIds| <= |customerIds|
    ensures EntryPoints(dir, customerIds, mccIds)
  {
    if customerIds == [] then []
    else
      (if IsManagerAccount(dir, customerIds[0]) then [customerIds[0]] else [])
      + IdentifyMccAccounts(dir, customerIds[1..])
  }

  /** Filtering a concatenation filters each part in place, so the input order is kept. */
  lemma {:induction false} IdentifyMccAccountsAppend(dir: Directory, a: seq<string>, b: seq<string>)
    ensures IdentifyMccAccounts(dir, a + b) == IdentifyMccAccounts(dir, a) + IdentifyMccAccounts(dir, b)
    decreases |a|
  {
    if a == [] {
      assert a + b == b;
    } else {
      assert (a + b)[0] == a[0];
      assert (a + b)[1..] == a[1..] + b;
      IdentifyMccAccountsAppend(dir, a[1..], b);
    }
  }

  /** A single id is kept exactly when it is a manager. */
  lemma {:induction false} IdentifyMccAccountsSingle(dir: Directory, id: string)
    ensures IdentifyMccAccounts(dir, [id]) == if IsManagerAccount(dir, id) then [id] else []
  {
    assert [id][1..] == [];
  }

  /**
   * One row of the level-1 search as an account of the flat tree: the id in
   * decimal, the level cast to a Java `int`, and the manager it was found
   * under.
   */
  function AccountOfRow(row: CustomerClientRow, mccId: string): (a: FlatAccount)
    ensures ReadInt(a.customerId) == Some((row.id, ""))
    ensures a.descriptiveName == Some(row.descriptiveName) && a.isManager == Some(row.manager)
    ensures a.level == ToInt32(row.level)
    ensures a.currencyCode == row.currencyCode && a.timeZone == row.timeZone
    ensures a.resourceName == row.clientCustomer && a.discoveredViaMccId == mccId
  {
    ReadIntRoundTrip(row.id, "");
    assert IntToString(row.id) + "" == IntToString(row.id);
    FlatAccount(IntToString(row.id), Some(row.descriptiveName), ToInt32(row.level), Some(row.manager),
                row.currencyCode, row.timeZone, row.clientCustomer, mccId)
  }

  /** Every row of a search, mapped in order. */
  function AccountsOfRows(rows: seq<CustomerClientRow>, mccId: string): (accounts: seq<FlatAccount>)
    ensures |accounts| == |rows|
    ensures forall i :: 0 <= i < |rows| ==> accounts[i] == AccountOfRow(rows[i], mccId)
  {
    seq(|rows|, i requires 0 <= i < |rows| => AccountOfRow(rows[i], mccId))
  }

  /** The virtual root and its children. Children carry no children of their own. */
  datatype FlatTree = FlatTree(root: FlatAccount, children: seq<FlatAccount>)

  /**
   * `buildFlatTree`: a virtual manager root for `rootMccId` whose children
   * are the accounts in display order.
   */
  function BuildFlatTree(accounts: seq<FlatAccount>, rootMccId: string): (t: FlatTree)
    ensures t.root.customerId == rootMccId && t.root.discoveredViaMccId == rootMccId
    ensures t.root.descriptiveName == Some("MCC Root (" + rootMccId + ")")
    ensures t.root.level == 0 && t.root.isManager == Some(true)
    ensures t.root.currencyCode == "" && t.root.timeZone == ""
    ensures t.root.resourceName == CustomersPrefix + rootMccId
    ensures SlashFree(rootMccId) ==> ExtractCustomerId(t.root.resourceName) == rootMccId
    ensures multiset(t.children) == multiset(accounts) && Sorted(t.children)
    ensures forall k :: EqualTo(t.children, k) == EqualTo(accounts, k)
  {
    assert SlashFree(rootMccId) ==> ExtractCustomerId(CustomersPrefix + rootMccId) == rootMccId by {
      if SlashFree(rootMccId) {
        ExtractResourceNameOf(rootMccId);
      }
    }
    var root := FlatAccount(rootMccId, Some("MCC Root (" + rootMccId + ")"), 0, Some(true), "", "",
                            CustomersPrefix + rootMccId, rootMccId);
    FlatTree(root, SortAccountsForDisplay(accounts))
  }

  /**
   * One entry of `mccHierarchies`. A failed search leaves an empty tree
   * (`None`), zero accounts and the exception's message.
   */
  datatype MccHierarchy = MccHierarchy(mccId: string, tree: Option<FlatTree>, totalAccounts: nat, error: Option<string>)

  /**
   * `getDirectChildrenForMcc`. Acting as the manager parses its id before
   * the guarded block, so an id that does not parse escapes as a failure.
   * A search that throws, even after some rows, is caught: the rows read so
   * far are dropped and the entry records the error.
   */
  function GetDirectChildrenForMcc(dir: Directory, mccId: string): (r: Attempt<MccHierarchy>)
    ensures r.Failure? <==> dir.parseLong(mccId).None?
    ensures r.Success? ==> r.value.mccId == mccId
    ensures var s := dir.customerClientRows(mccId);
      r.Success? && s.failure.Some? ==>
        r.value.tree.None? && r.value.totalAccounts == 0 && r.value.error == s.failure
    ensures var s := dir.customerClientRows(mccId);
      r.Success? && s.failure.None? ==>
        && r.value.error.None? && r.value.totalAccounts == |s.Rows()|
        && r.value.tree == Some(BuildFlatTree(AccountsOfRows(s.Rows(), mccId), mccId))
        && r.value.tree.value.root.customerId == mccId
        && multiset(r.value.tree.value.children) == multiset(AccountsOfRows(s.Rows(), mccId))
        && forall a :: a in r.value.tree.value.children ==> a.discoveredViaMccId == mccId
  {
    match dir.parseLong(mccId)
    case None => Failure(UnparsedPrefix + mccId)
    case Some(_) =>
      var stream := dir.customerClientRows(mccId);
      match stream.failure
      case Some(message) => Success(MccHierarchy(mccId, None, 0, Some(message)))
      case None =>
        var accounts := AccountsOfRows(stream.Rows(), mccId);
        var tree := BuildFlatTree(accounts, mccId);
        assert forall a :: a in tree.children ==> a.discoveredViaMccId == mccId by {
          forall a | a in tree.children
            ensures a.discoveredViaMccId == mccId
          {
            assert a in multiset(accounts);
          }
        }
        Success(MccHierarchy(mccId, Some(tree), |accounts|, None))
  }

  /** One manager's fetch, as a function of its id. */
  function Fetcher(dir: Directory): string -> Attempt<MccHierarchy> {
    mccId => GetDirectChildrenForMcc(dir, mccId)
  }

  /** A manager's entry when its fetch did not escape, and nothing when it did. */
  function EntryOf<K, H>(fetch: K -> Attempt<H>, mccId: K): seq<H> {
    match fetch(mccId)
    case Success(h) => [h]
    case Failure(_) => []
  }

  /** The entries for the managers whose fetch did not escape, in order. */
  function Fetched<K, H>(fetch: K -> Attempt<H>, mccIds: seq<K>): seq<H> {
    if mccIds == [] then [] else EntryOf(fetch, mccIds[0]) + Fetched(fetch, mccIds[1..])
  }

  lemma {:induction false} FetchedAppend<K, H>(fetch: K -> Attempt<H>, a: seq<K>, b: seq<K>)
    ensures Fetched(fetch, a + b) == Fetched(fetch, a) + Fetched(fetch, b)
    decreases |a|
  {
    if a == [] {
      assert a + b == b;
    } else {
      var head := EntryOf(fetch, a[0]);
      assert (a + b)[0] == a[0];
      assert (a + b)[1..] == a[1..] + b;
      FetchedAppend(fetch, a[1..], b);
      assert Fetched(fetch, a + b) == head + (Fetched(fetch, a[1..]) + Fetched(fetch, b));
      assert head + (Fetched(fetch, a[1..]) + Fetched(fetch, b)) == (head + Fetched(fetch, a[1..])) + Fetched(fetch, b);
    }
  }

  /** The sum of the entries' account counts, unbounded. */
  function SumAccounts(hierarchies: seq<MccHierarchy>): nat {
    if hierarchies == [] then 0 else hierarchies[0].totalAccounts + SumAccounts(hierarchies[1..])
  }

  lemma {:induction false} SumAccountsAppend(a: seq<MccHierarchy>, b: seq<MccHierarchy>)
    ensures SumAccounts(a + b) == SumAccounts(a) + SumAccounts(b)
    decreases |a|
  {
    if a == [] {
      assert a + b == b;
    } else {
      assert (a + b)[0] == a[0];
      assert (a + b)[1..] == a[1..] + b;
      SumAccountsAppend(a[1..], b);
    }
  }

  /** Adding an entry's count to the wrapped running sum wraps the longer sum. */
  lemma {:induction false} AddEntryKeepsSum(hierarchies: seq<MccHierarchy>, h: MccHierarchy, total: Int32)
    requires total == ToInt32(SumAccounts(hierarchies))
    ensures ToInt32(total + h.totalAccounts) == ToInt32(SumAccounts(hierarchies + [h]))
  {
    SumAccountsAppend(hierarchies, [h]);
    assert [h][1..] == [];
    ToInt32Add(SumAccounts(hierarchies), h.totalAccounts);
  }

  /** Incrementing a wrapped count wraps the next count. */
  lemma {:induction false} CountOneMore(k: int, count: Int32)
    requires count == ToInt32(k)
    ensures Increment32(count) == ToInt32(k + 1)
  {
    Increment32IsToInt32(count);
    ToInt32Add(k, 1);
  }

  /** What the per-manager loop of `getCompleteMccHierarchy` accumulates. */
  datatype Totals = Totals(hierarchies: seq<MccHierarchy>, totalAccounts: Int32, totalErrors: Int32)

  /**
   * One turn of the per-manager loop: a fetched entry is kept and its count
   * added (as Java `int`s); a fetch that escapes adds one error and no entry.
   */
  function AddFetch<K>(fetch: K -> Attempt<MccHierarchy>, prefix: seq<K>, prev: Totals, mccId: K): (t: Totals)
    requires prev.hierarchies == Fetched(fetch, prefix)
    requires prev.totalAccounts == ToInt32(SumAccounts(prev.hierarchies))
    requires |prev.hierarchies| <= |prefix|
    requires prev.totalErrors == ToInt32(|prefix| - |prev.hierarchies|)
    ensures t.hierarchies == Fetched(fetch, prefix + [mccId])
    ensures t.totalAccounts == ToInt32(SumAccounts(t.hierarchies))
    ensures |t.hierarchies| <= |prefix + [mccId]|
    ensures t.totalErrors == ToInt32(|prefix + [mccId]| - |t.hierarchies|)
  {
    FetchedAppend(fetch, prefix, [mccId]);
    assert [mccId][1..] == [];
    match fetch(mccId)
    case Success(h) =>
      AddEntryKeepsSum(prev.hierarchies, h, prev.totalAccounts);
      Totals(prev.hierarchies + [h], ToInt32(prev.totalAccounts + h.totalAccounts), prev.totalErrors)
    case Failure(_) =>
      CountOneMore(|prefix| - |prev.hierarchies|, prev.totalErrors);
      Totals(prev.hierarchies, prev.totalAccounts, Increment32(prev.totalErrors))
  }

  /**
   * The per-manager loop, one manager at a time in order. The errors are
   * exactly the managers without an entry.
   */
  function Aggregate<K>(fetch: K -> Attempt<MccHierarchy>, mccIds: seq<K>): (t: Totals)
    ensures t.hierarchies == Fetched(fetch, mccIds)
    ensures t.totalAccounts == ToInt32(SumAccounts(t.hierarchies))
    ensures |t.hierarchies| <= |mccIds|
    ensures t.totalErrors == ToInt32(|mccIds| - |t.hierarchies|)
    decreases |mccIds|
  {
    if mccIds == [] then Totals([], 0, 0)
    else
      var prefix := mccIds[..|mccIds| - 1];
      var last := mccIds[|mccIds| - 1];
      assert mccIds == prefix + [last];
      AddFetch(fetch, prefix, Aggregate(fetch, prefix), last)
  }

  /** The record `getCompleteMccHierarchy` renders as JSON. */
  datatype CompleteHierarchy = CompleteHierarchy(
    entryPointMccIds: seq<string>,
    directAccessCustomers: seq<string>,
    mccHierarchies: seq<MccHierarchy>,
    totalAccounts: Int32,
    totalErrors: Int32,
    traversalTimeMs: Int64)

  /** The record for given entry points: fetch each in turn and total, for any fetch. */
  function Assemble(fetch: string -> Attempt<MccHierarchy>, mccIds: seq<string>, ids: seq<string>,
                    elapsedMs: Int64): (h: CompleteHierarchy)
    ensures h.directAccessCustomers == ids && h.entryPointMccIds == mccIds
    ensures h.mccHierarchies == Fetched(fetch, mccIds)
    ensures h.totalAccounts == ToInt32(SumAccounts(h.mccHierarchies))
    ensures h.totalErrors == ToInt32(|mccIds| - |h.mccHierarchies|)
    ensures h.traversalTimeMs == elapsedMs
  {
    var totals := Aggregate(fetch, mccIds);
    CompleteHierarchy(mccIds, ids, totals.hierarchies, totals.totalAccounts, totals.totalErrors, elapsedMs)
  }

  /**
   * The part of `getCompleteMccHierarchy` after the accessible accounts are
   * listed: pick the managers among them, fetch each in turn, and total.
   */
  function Traverse(dir: Directory, ids: seq<string>, elapsedMs: Int64): (h: CompleteHierarchy)
    ensures h.directAccessCustomers == ids
    ensures h.entryPointMccIds == IdentifyMccAccounts(dir, ids)
    ensures EntryPoints(dir, ids, h.entryPointMccIds)
    ensures h.mccHierarchies == Fetched(Fetcher(dir), h.entryPointMccIds)
    ensures h.totalAccounts == ToInt32(SumAccounts(h.mccHierarchies))
    ensures h.totalErrors == ToInt32(|h.entryPointMccIds| - |h.mccHierarchies|)
    ensures h.traversalTimeMs == elapsedMs
  {
    var mccIds := IdentifyMccAccounts(dir, ids);
    assert EntryPoints(dir, ids, mccIds);
    var h := Assemble(Fetcher(dir), mccIds, ids, elapsedMs);
    assert h.entryPointMccIds == mccIds;
    h
  }

  /**
   * `getCompleteMccHierarchy`, with the elapsed time as an input. Only a
   * failure to list the accessible accounts makes the whole call fail.
   */
  function GetCompleteMccHierarchy(dir: Directory, elapsedMs: Int64): (r: Attempt<CompleteHierarchy>)
    ensures r.Failure? <==> dir.accessibleResourceNames.Failure?
    ensures r.Failure? ==> r.message == FailedPrefix + dir.accessibleResourceNames.message
    ensures r.Success? ==> r.value == Traverse(dir, GetAccessibleCustomerIds(dir).value, elapsedMs)
  {
    match GetAccessibleCustomerIds(dir)
    case Failure(message) => Failure(FailedPrefix + message)
    case Success(ids) => Success(Traverse(dir, ids, elapsedMs))
  }

  /** Whether a fetch failed in either way: it escaped, or its entry records an error. */
  predicate FetchFailed<K>(fetch: K -> Attempt<MccHierarchy>, mccId: K) {
    fetch(mccId).Failure? || fetch(mccId).value.error.Some?
  }

  /** For the real fetch: the id does not parse, or the search throws. */
  lemma {:induction false} FetchFailedWhen(dir: Directory, mccId: string)
    ensures FetchFailed(Fetcher(dir), mccId)
      <==> dir.parseLong(mccId).None? || dir.customerClientRows(mccId).failure.Some?
  {
  }

  /** The number of managers whose fetch failed in either way. */
  function FailedCount<K>(fetch: K -> Attempt<MccHierarchy>, mccIds: seq<K>): nat {
    if mccIds == [] then 0
    else (if FetchFailed(fetch, mccIds[0]) then 1 else 0) + FailedCount(fetch, mccIds[1..])
  }

  /** The number of entries that record a caught error. */
  function ErrorEntries(hierarchies: seq<MccHierarchy>): nat {
    if hierarchies == [] then 0
    else (if hierarchies[0].error.Some? then 1 else 0) + ErrorEntries(hierarchies[1..])
  }

  /**
   * As written, `totalErrors` counts only fetches that escape: a manager
   * whose search throws is caught inside the fetch and adds nothing. Here a
   * single manager's search fails, yet the total reports no error.
   */
  lemma {:induction false} TotalErrorsMissesCaughtFailure()
    ensures var dir := Directory(
        Success(["customers/1"]),
        _ => Some(1),
        (_, _) => Stream([], None),
        _ => Stream([], None),
        _ => Stream([], None),
        _ => Stream([], None),
        _ => Stream([[true]], None),
        _ => Stream([], Some("quota exceeded")));
      && FailedCount(Fetcher(dir), ["1"]) == 1
      && Aggregate(Fetcher(dir), ["1"]).totalErrors == 0
  {
    var dir := Directory(
        Success(["customers/1"]),
        _ => Some(1),
        (_, _) => Stream([], None),
        _ => Stream([], None),
        _ => Stream([], None),
        _ => Stream([], None),
        _ => Stream([[true]], None),
        _ => Stream([], Some("quota exceeded")));
    var entry := MccHierarchy("1", None, 0, Some("quota exceeded"));
    assert Fetcher(dir)("1") == Success(entry);
    assert ["1"][1..] == [];
    assert Fetched(Fetcher(dir), ["1"]) == [entry];
  }

  /**
   * The evidently intended count: the escaped failures plus the entries
   * that record a caught one.
   */
  function CorrectedTotalErrors(t: Totals): Int32 {
    ToInt32(t.totalErrors + ErrorEntries(t.hierarchies))
  }

  lemma {:induction false} FetchedErrors<K>(fetch: K -> Attempt<MccHierarchy>, mccIds: seq<K>)
    ensures |mccIds| - |Fetched(fetch, mccIds)| + ErrorEntries(Fetched(fetch, mccIds)) == FailedCount(fetch, mccIds)
    decreases |mccIds|
  {
    if mccIds != [] {
      FetchedErrors(fetch, mccIds[1..]);
      var rest := Fetched(fetch, mccIds[1..]);
      match fetch(mccIds[0])
      case Success(h) =>
        assert Fetched(fetch, mccIds) == [h] + rest;
        assert ([h] + rest)[1..] == rest;
      case Failure(_) =>
        assert Fetched(fetch, mccIds) == rest;
    }
  }

  /** The corrected count adds the caught errors to the unbounded escaped count before wrapping. */
  lemma {:induction false} CorrectedTotalErrorsWrap(t: Totals, escaped: int, failed: int)
    requires t.totalErrors == ToInt32(escaped)
    requires failed == escaped + ErrorEntries(t.hierarchies)
    ensures CorrectedTotalErrors(t) == ToInt32(failed)
  {
    ToInt32Add(escaped, ErrorEntries(t.hierarchies));
  }

  /** The corrected count of any loop outcome whose errors are the managers without an entry. */
  lemma {:induction false} CorrectedTotalErrorsOf<K>(fetch: K -> Attempt<MccHierarchy>, mccIds: seq<K>, t: Totals)
    requires t.hierarchies == Fetched(fetch, mccIds)
    requires t.totalErrors == ToInt32(|mccIds| - |t.hierarchies|)
    ensures CorrectedTotalErrors(t) == ToInt32(FailedCount(fetch, mccIds))
  {
    var escaped := |mccIds| - |t.hierarchies|;
    assert t.totalErrors == ToInt32(escaped);
    FetchedErrors(fetch, mccIds);
    CorrectedTotalErrorsWrap(t, escaped, FailedCount(fetch, mccIds));
  }

  /** The corrected count is the number of managers whose fetch failed in either way. */
  lemma {:induction false} CorrectedTotalErrorsCountsEveryFailure<K>(fetch: K -> Attempt<MccHierarchy>, mccIds: seq<K>)
    ensures CorrectedTotalErrors(Aggregate(fetch, mccIds)) == ToInt32(FailedCount(fetch, mccIds))
  {
    var t := Aggregate(fetch, mccIds);
    CorrectedTotalErrorsOf(fetch, mccIds, t);
  }

  /**
   * The traversal with the corrected error count: every manager whose fetch
   * failed, whether the failure escaped or was caught, counts once.
   */
  function CorrectedTraverse(dir: Directory, ids: seq<string>, elapsedMs: Int64): (h: CompleteHierarchy)
    ensures h.directAccessCustomers == ids
    ensures h.entryPointMccIds == IdentifyMccAccounts(dir, ids)
    ensures EntryPoints(dir, ids, h.entryPointMccIds)
    ensures h.mccHierarchies == Fetched(Fetcher(dir), h.entryPointMccIds)
    ensures h.totalAccounts == ToInt32(SumAccounts(h.mccHierarchies))
    ensures h.totalErrors == ToInt32(FailedCount(Fetcher(dir), h.entryPointMccIds))
    ensures h.traversalTimeMs == elapsedMs
  {
    var mccIds := IdentifyMccAccounts(dir, ids);
    var totals := Aggregate(Fetcher(dir), mccIds);
    CorrectedTotalErrorsCountsEveryFailure(Fetcher(dir), mccIds);
    var h := CompleteHierarchy(mccIds, ids, totals.hierarchies, totals.totalAccounts, CorrectedTotalErrors(totals), elapsedMs);
    assert h.entryPointMccIds == mccIds && h.mccHierarchies == totals.hierarchies;
    h
  }
}

/**
 * The display order of a manager's level-1 accounts: managers before clients,
 * then names in `String.compareTo` order (UTF-16 code units, so uppercase
 * before lowercase). A missing manager flag counts as false and a missing name
 * as "". The source sorts with a stable sort; `SortAccountsForDisplay` is a
 * stable insertion sort proved to be a sorted, stable permutation.
 */
module DisplayOrder {
  import opened Results
  import opened Utf16

  /** One account row of the flat tree. Flag and name may be missing. */
  datatype FlatAccount = FlatAccount(
    customerId: string,
    descriptiveName: Option<string>,
    level: int,
    isManager: Option<bool>,
    currencyCode: string,
    timeZone: string,
    resourceName: string,
    discoveredViaMccId: string)

  function ManagerFlag(a: FlatAccount): bool {
    a.isManager.GetOr(false)
  }

  function NameUnits(a: FlatAccount): seq<CodeUnit> {
    Encode(a.descriptiveName.GetOr(""))
  }

  /** `Boolean.compare(x, y)`. */
  function BooleanCompare(x: bool, y: bool): int {
    if x == y then 0 else if x then 1 else -1
  }

  /** The source's comparator: `Boolean.compare(m2, m1)`, then `name1.compareTo(name2)`. */
  function Compare(a1: FlatAccount, a2: FlatAccount): int {
    var byManager := BooleanCompare(ManagerFlag(a2), ManagerFlag(a1));
    if byManager != 0 then byManager else CompareTo(NameUnits(a1), NameUnits(a2))
  }

  lemma {:induction false} CompareAntisymmetric(a: FlatAccount, b: FlatAccount)
    ensures Compare(a, b) == -Compare(b, a)
  {
    CompareToAntisymmetric(NameUnits(a), NameUnits(b));
  }

  lemma {:induction false} CompareTransitive(a: FlatAccount, b: FlatAccount, c: FlatAccount)
    requires Compare(a, b) <= 0 && Compare(b, c) <= 0
    ensures Compare(a, c) <= 0
  {
    if ManagerFlag(a) == ManagerFlag(b) == ManagerFlag(c) {
      CompareToTransitive(NameUnits(a), NameUnits(b), NameUnits(c));
    }
  }

  /** Comparing equal means same group and same name. */
  lemma {:induction false} CompareZero(a: FlatAccount, b: FlatAccount)
    ensures Compare(a, b) == 0 <==> ManagerFlag(a) == ManagerFlag(b) && NameUnits(a) == NameUnits(b)
  {
    CompareToZero(NameUnits(a), NameUnits(b));
  }

  lemma {:induction false} CompareZeroTransitive(a: FlatAccount, b: FlatAccount, c: FlatAccount)
    requires Compare(a, b) == 0 && Compare(b, c) == 0
    ensures Compare(a, c) == 0
  {
    CompareZero(a, b);
    CompareZero(b, c);
    CompareZero(a, c);
  }

  ghost predicate Sorted(s: seq<FlatAccount>) {
    forall i, j :: 0 <= i < j < |s| ==> Compare(s[i], s[j]) <= 0
  }

  /** The accounts of `s` that compare equal to `k`, in their order in `s`. */
  function EqualTo(s: seq<FlatAccount>, k: FlatAccount): (r: seq<FlatAccount>)
    ensures |r| <= |s|
  {
    if s == [] then []
    else (if Compare(s[0], k) == 0 then [s[0]] else []) + EqualTo(s[1..], k)
  }

  /** Places `x` before the first element it does not sort after. */
  function Insert(x: FlatAccount, t: seq<FlatAccount>): (r: seq<FlatAccount>)
    ensures multiset(r) == multiset{x} + multiset(t)
    ensures |r| == |t| + 1
  {
    if t == [] || Compare(x, t[0]) <= 0 then [x] + t
    else
      assert t == [t[0]] + t[1..];
      [t[0]] + Insert(x, t[1..])
  }

  /** Every element of `Insert(x, t)` is `x` or an element of `t`. */
  lemma {:induction false} InsertMembers(x: FlatAccount, t: seq<FlatAccount>)
    ensures forall e :: e in Insert(x, t) ==> e == x || e in t
    decreases |t|
  {
    if t != [] && Compare(x, t[0]) > 0 {
      InsertMembers(x, t[1..]);
    }
  }

  /** A sorted sequence stays sorted under a new head that sorts before all of it. */
  lemma {:induction false} SortedCons(a: FlatAccount, s: seq<FlatAccount>)
    requires Sorted(s)
    requires forall e :: e in s ==> Compare(a, e) <= 0
    ensures Sorted([a] + s)
  {
    var r := [a] + s;
    forall i, j | 0 <= i < j < |r|
      ensures Compare(r[i], r[j]) <= 0
    {
      if i == 0 {
        assert r[j] == s[j - 1] && r[j] in s;
      } else {
        assert r[i] == s[i - 1] && r[j] == s[j - 1];
      }
    }
  }

  /** The head of a sorted sequence sorts before every element of it. */
  lemma {:induction false} SortedHead(t: seq<FlatAccount>)
    requires Sorted(t) && t != []
    ensures forall e :: e in t ==> Compare(t[0], e) <= 0
  {
    forall e | e in t
      ensures Compare(t[0], e) <= 0
    {
      var m :| 0 <= m < |t| && t[m] == e;
      if m == 0 {
        CompareZero(e, e);
      }
    }
  }

  lemma {:induction false} InsertSorted(x: FlatAccount, t: seq<FlatAccount>)
    requires Sorted(t)
    ensures Sorted(Insert(x, t))
    decreases |t|
  {
    if t == [] {
      SortedCons(x, t);
    } else if Compare(x, t[0]) <= 0 {
      SortedHead(t);
      forall e | e in t
        ensures Compare(x, e) <= 0
      {
        CompareTransitive(x, t[0], e);
      }
      SortedCons(x, t);
    } else {
      var rest := t[1..];
      assert Sorted(rest) by {
        forall i, j | 0 <= i < j < |rest|
          ensures Compare(rest[i], rest[j]) <= 0
        {
          assert rest[i] == t[i + 1] && rest[j] == t[j + 1];
        }
      }
      InsertSorted(x, rest);
      InsertMembers(x, rest);
      SortedHead(t);
      CompareAntisymmetric(x, t[0]);
      forall e | e in Insert(x, rest)
        ensures Compare(t[0], e) <= 0
      {
        if e != x {
          assert e in t;
        }
      }
      SortedCons(t[0], Insert(x, rest));
    }
  }

  lemma {:induction false} InsertStable(x: FlatAccount, t: seq<FlatAccount>, k: FlatAccount)
    ensures EqualTo(Insert(x, t), k) == EqualTo([x] + t, k)
    decreases |t|
  {
    if t == [] || Compare(x, t[0]) <= 0 {
    } else {
      InsertStable(x, t[1..], k);
      assert ([x] + t)[1..] == t;
      assert ([x] + t[1..])[1..] == t[1..];
      if Compare(x, k) == 0 && Compare(t[0], k) == 0 {
        CompareAntisymmetric(t[0], k);
        CompareZeroTransitive(x, k, t[0]);
      }
    }
  }

  /** Inserting the head into the sorted tail sorts the whole sequence, stably. */
  lemma {:induction false} SortStep(accounts: seq<FlatAccount>, rest: seq<FlatAccount>)
    requires accounts != []
    requires multiset(rest) == multiset(accounts[1..]) && Sorted(rest)
    requires forall k :: EqualTo(rest, k) == EqualTo(accounts[1..], k)
    ensures var r := Insert(accounts[0], rest);
      && multiset(r) == multiset(accounts) && Sorted(r)
      && forall k :: EqualTo(r, k) == EqualTo(accounts, k)
  {
    InsertSorted(accounts[0], rest);
    assert accounts == [accounts[0]] + accounts[1..];
    forall k
      ensures EqualTo(Insert(accounts[0], rest), k) == EqualTo(accounts, k)
    {
      InsertStable(accounts[0], rest, k);
      assert ([accounts[0]] + rest)[1..] == rest;
      assert accounts[1..] == ([accounts[0]] + accounts[1..])[1..];
    }
  }

  /** `sortAccountsForDisplay`: a stable sort by the comparator, as an insertion sort. */
  function SortAccountsForDisplay(accounts: seq<FlatAccount>): (sorted: seq<FlatAccount>)
    ensures multiset(sorted) == multiset(accounts)
    ensures |sorted| == |accounts|
    ensures Sorted(sorted)
    ensures forall k :: EqualTo(sorted, k) == EqualTo(accounts, k)
  {
    if accounts == [] then []
    else
      var rest := SortAccountsForDisplay(accounts[1..]);
      SortStep(accounts, rest);
      Insert(accounts[0], rest)
  }

  /** After sorting, every manager (flag true) comes before every account whose flag is false or missing. */
  lemma {:induction false} ManagersFirst(accounts: seq<FlatAccount>, i: int, j: int)
    requires 0 <= i < j < |accounts|
    requires ManagerFlag(SortAccountsForDisplay(accounts)[j])
    ensures ManagerFlag(SortAccountsForDisplay(accounts)[i])
  {
  }

  /** After sorting, names within a group are non-decreasing in code-unit order, a missing name read as "". */
  lemma {:induction false} NamesOrderedWithinGroup(accounts: seq<FlatAccount>, i: int, j: int)
    requires 0 <= i < j < |accounts|
    requires ManagerFlag(SortAccountsForDisplay(accounts)[i]) == ManagerFlag(SortAccountsForDisplay(accounts)[j])
    ensures CompareTo(NameUnits(SortAccountsForDisplay(accounts)[i]), NameUnits(SortAccountsForDisplay(accounts)[j])) <= 0
  {
  }
}

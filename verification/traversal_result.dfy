/**
 * The traversal-result accumulator: append-only id lists, a 32-bit error
 * counter and a one-line summary.
 */
module MccTraversal {
  import opened Results
  import opened Decimal
  import opened MccNodes
  import opened JavaInts

  /** Lists are `Option`s because the no-argument constructor leaves them null. */
  datatype MccTraversalResult = MccTraversalResult(
    hierarchy: Option<seq<MccHierarchyNode>>,
    totalAccountsDiscovered: Int32,
    directAccessAccounts: Int32,
    mccDiscoveredAccounts: Int32,
    errorsEncountered: Int32,
    inaccessibleAccounts: Option<seq<string>>,
    maxDepthReached: Int32,
    traversalTimeMs: Int64,
    entryPointMccIds: Option<seq<string>>)

  /** The no-argument constructor: every reference null, every number zero. */
  function Blank(): (r: MccTraversalResult)
    ensures r.hierarchy.None? && r.inaccessibleAccounts.None? && r.entryPointMccIds.None?
    ensures r.errorsEncountered == 0 && r.totalAccountsDiscovered == 0
    ensures r.directAccessAccounts == 0 && r.mccDiscoveredAccounts == 0
    ensures r.maxDepthReached == 0 && r.traversalTimeMs == 0
  {
    MccTraversalResult(None, 0, 0, 0, 0, None, 0, 0, None)
  }

  /** The one-argument constructor: a null hierarchy becomes empty, both id lists start empty. */
  function NewResult(hierarchy: Option<seq<MccHierarchyNode>>): (r: MccTraversalResult)
    ensures r.hierarchy == Some(hierarchy.GetOr([]))
    ensures r.inaccessibleAccounts == Some([]) && r.entryPointMccIds == Some([])
    ensures r.totalAccountsDiscovered == 0 && r.directAccessAccounts == 0
    ensures r.mccDiscoveredAccounts == 0 && r.errorsEncountered == 0
    ensures r.maxDepthReached == 0 && r.traversalTimeMs == 0
  {
    MccTraversalResult(Some(hierarchy.GetOr([])), 0, 0, 0, 0, Some([]), 0, 0, Some([]))
  }

  /** `addInaccessibleAccount`: creates the list if null, then appends one id. */
  function AddInaccessibleAccount(r: MccTraversalResult, customerId: string): (r': MccTraversalResult)
    ensures r'.inaccessibleAccounts.Some?
    ensures r'.inaccessibleAccounts.value == r.inaccessibleAccounts.GetOr([]) + [customerId]
    ensures r'.(inaccessibleAccounts := r.inaccessibleAccounts) == r
  {
    r.(inaccessibleAccounts := Some(r.inaccessibleAccounts.GetOr([]) + [customerId]))
  }

  /** `addEntryPointMccId`: creates the list if null, then appends one id. */
  function AddEntryPointMccId(r: MccTraversalResult, mccId: string): (r': MccTraversalResult)
    ensures r'.entryPointMccIds.Some?
    ensures r'.entryPointMccIds.value == r.entryPointMccIds.GetOr([]) + [mccId]
    ensures r'.(entryPointMccIds := r.entryPointMccIds) == r
  {
    r.(entryPointMccIds := Some(r.entryPointMccIds.GetOr([]) + [mccId]))
  }

  /** `incrementErrors`: the counter goes up by one (modulo 2^32); nothing else changes. */
  function IncrementErrors(r: MccTraversalResult): (r': MccTraversalResult)
    ensures r.errorsEncountered < MaxInt32 ==> r'.errorsEncountered == r.errorsEncountered + 1
    ensures r.errorsEncountered == MaxInt32 ==> r'.errorsEncountered == MinInt32
    ensures r'.(errorsEncountered := r.errorsEncountered) == r
  {
    r.(errorsEncountered := Increment32(r.errorsEncountered))
  }

  /** The six counts and the time the summary reports, in order. */
  datatype SummaryFields = SummaryFields(
    timeMs: int, total: int, direct: int, viaMcc: int, maxDepth: int, errors: int, inaccessible: int)

  function FieldsOf(r: MccTraversalResult): SummaryFields {
    SummaryFields(r.traversalTimeMs, r.totalAccountsDiscovered, r.directAccessAccounts,
                  r.mccDiscoveredAccounts, r.maxDepthReached, r.errorsEncountered,
                  if r.inaccessibleAccounts.Some? then |r.inaccessibleAccounts.value| else 0)
  }

  const Part0: string := "Traversal completed in "

  /** The literal text after each number, in order. */
  const Literals: seq<string> := [
    " ms. Found ", " total accounts (", " direct access, ", " via MCC). Max depth: ",
    ". Errors: ", ". Inaccessible: ", "."]

  function Numbers(f: SummaryFields): seq<int> {
    [f.timeMs, f.total, f.direct, f.viaMcc, f.maxDepth, f.errors, f.inaccessible]
  }

  /** Each number in decimal, followed by its literal. */
  function Interleave(numbers: seq<int>, literals: seq<string>): string
    requires |numbers| == |literals|
  {
    if numbers == [] then "" else IntToString(numbers[0]) + literals[0] + Interleave(numbers[1..], literals[1..])
  }

  function Render(f: SummaryFields): string {
    Part0 + Interleave(Numbers(f), Literals)
  }

  /** `getTraversalSummary`: a fixed sentence with seven decimal numbers. */
  function TraversalSummary(r: MccTraversalResult): (s: string)
    ensures |Part0| <= |s| && s[..|Part0|] == Part0
    ensures ParseSummary(s) == Some(FieldsOf(r))
    ensures r.inaccessibleAccounts.None? ==> FieldsOf(r).inaccessible == 0
  {
    SummaryRoundTrip(FieldsOf(r));
    Render(FieldsOf(r))
  }

  /** Strips a literal from the front of `s`. */
  function Expect(lit: string, s: string): Option<string> {
    if |lit| <= |s| && s[..|lit|] == lit then Some(s[|lit|..]) else None
  }

  /** Reads a number and then the literal after it. */
  function Field(s: string, after: string): Option<(int, string)> {
    match ReadInt(s)
    case None => None
    case Some((n, rest)) =>
      match Expect(after, rest)
      case None => None
      case Some(rest') => Some((n, rest'))
  }

  /** Reads number-then-literal for each literal, and then expects the end of the text. */
  function ReadFields(s: string, literals: seq<string>): (r: Option<seq<int>>)
    ensures r.Some? ==> |r.value| == |literals|
  {
    if literals == [] then (if s == [] then Some([]) else None)
    else
      match Field(s, literals[0])
      case None => None
      case Some((n, rest)) =>
        match ReadFields(rest, literals[1..])
        case None => None
        case Some(ns) => Some([n] + ns)
  }

  /** Recovers the seven numbers from a summary sentence; `None` for any other text. */
  function ParseSummary(s: string): Option<SummaryFields> {
    match Expect(Part0, s)
    case None => None
    case Some(rest) =>
      match ReadFields(rest, Literals)
      case None => None
      case Some(ns) => Some(SummaryFields(ns[0], ns[1], ns[2], ns[3], ns[4], ns[5], ns[6]))
  }

  lemma {:induction false} FieldRoundTrip(n: int, lit: string, rest: string)
    requires lit != [] && !IsDigit(lit[0])
    ensures Field(IntToString(n) + (lit + rest), lit) == Some((n, rest))
  {
    ReadIntRoundTrip(n, lit + rest);
    assert (lit + rest)[..|lit|] == lit;
    assert (lit + rest)[|lit|..] == rest;
  }

  lemma {:induction false} InterleaveRoundTrip(numbers: seq<int>, literals: seq<string>)
    requires |numbers| == |literals|
    requires forall i :: 0 <= i < |literals| ==> literals[i] != [] && !IsDigit(literals[i][0])
    ensures ReadFields(Interleave(numbers, literals), literals) == Some(numbers)
    decreases |numbers|
  {
    if numbers != [] {
      var tail := Interleave(numbers[1..], literals[1..]);
      assert Interleave(numbers, literals) == IntToString(numbers[0]) + (literals[0] + tail);
      FieldRoundTrip(numbers[0], literals[0], tail);
      InterleaveRoundTrip(numbers[1..], literals[1..]);
      assert [numbers[0]] + numbers[1..] == numbers;
    }
  }

  /** The summary sentence determines every number in it. */
  lemma {:induction false} SummaryRoundTrip(f: SummaryFields)
    ensures ParseSummary(Render(f)) == Some(f)
  {
    var s := Render(f);
    var rest := Interleave(Numbers(f), Literals);
    assert s[..|Part0|] == Part0 && s[|Part0|..] == rest;
    InterleaveRoundTrip(Numbers(f), Literals);
  }
}

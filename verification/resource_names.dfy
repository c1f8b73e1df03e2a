/** Resource names of the form `customers/<id>` and the id at their end. */
module ResourceNames {

  const CustomersPrefix: string := "customers/"

  /** `String.lastIndexOf(c)`: the last position holding `c`, or -1. */
  function LastIndexOf(s: string, c: char): (i: int)
    ensures -1 <= i < |s|
    ensures i >= 0 ==> s[i] == c
    ensures forall j :: i < j < |s| ==> s[j] != c
  {
    if s == [] then -1
    else if s[|s| - 1] == c then |s| - 1
    else LastIndexOf(s[..|s| - 1], c)
  }

  /** `customers/<id>` for an account id. */
  function ResourceNameOf(customerId: string): string {
    CustomersPrefix + customerId
  }

  /** No character of `s` is a '/'. */
  predicate SlashFree(s: string) {
    forall k :: 0 <= k < |s| ==> s[k] != '/'
  }

  /**
   * The text after the last '/', or the whole name when it has none:
   * `substring(lastIndexOf('/') + 1)`. That is the longest slash-free
   * suffix: it is the whole name or follows a '/'.
   */
  function ExtractCustomerId(resourceName: string): (id: string)
    ensures SlashFree(id)
    ensures |id| <= |resourceName| && resourceName[|resourceName| - |id|..] == id
    ensures |id| == |resourceName| || resourceName[|resourceName| - |id| - 1] == '/'
  {
    var i := LastIndexOf(resourceName, '/');
    SlashFreeAfter(resourceName, i);
    var id := resourceName[i + 1..];
    assert |resourceName| - |id| == i + 1;
    id
  }

  /** What follows a position after which no '/' occurs is slash-free. */
  lemma {:induction false} SlashFreeAfter(s: string, i: int)
    requires -1 <= i < |s|
    requires forall j :: i < j < |s| ==> s[j] != '/'
    ensures SlashFree(s[i + 1..])
  {
    var tail := s[i + 1..];
    forall k | 0 <= k < |tail|
      ensures tail[k] != '/'
    {
      assert tail[k] == s[i + 1 + k];
    }
  }

  /** A name without a '/' is its own id. */
  lemma {:induction false} ExtractSlashFree(resourceName: string)
    requires SlashFree(resourceName)
    ensures ExtractCustomerId(resourceName) == resourceName
  {
    assert resourceName[0..] == resourceName;
  }

  /** Extracting from a resource name built for a slash-free id gives the id back. */
  lemma {:induction false} ExtractResourceNameOf(customerId: string)
    requires SlashFree(customerId)
    ensures ExtractCustomerId(ResourceNameOf(customerId)) == customerId
  {
    var r := ResourceNameOf(customerId);
    var p := |CustomersPrefix|;
    assert r[p - 1] == '/';
    var i := LastIndexOf(r, '/');
    assert i == p - 1;
    assert r[i + 1..] == customerId;
  }
}

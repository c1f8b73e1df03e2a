/**
 * The front end's customer-id formatter. JavaScript strings are sequences of
 * UTF-16 code units: `length` and `slice` count code units.
 */
module Formatters {
  import opened Utf16
  import opened Decimal

  /** The values `formatCustomerId` may receive; numbers are integers. */
  datatype JsValue = Undefined | Null | Bool(b: bool) | Number(n: int) | Str(s: seq<CodeUnit>)

  /** JavaScript's falsy values among `JsValue`. */
  predicate Falsy(v: JsValue) {
    v.Undefined? || v.Null? || v == Bool(false) || v == Number(0) || v == Str([])
  }

  /**
   * Numbers are the integers of magnitude at most 2^53: each is a double,
   * and `toString` prints its exact decimal digits. Larger integers are
   * either not doubles at all or print with rounded digits.
   */
  predicate PlainNumber(v: JsValue) {
    v.Number? ==> -9_007_199_254_740_992 <= v.n <= 9_007_199_254_740_992
  }

  /** `toString()` of a truthy value. */
  function ToJsString(v: JsValue): seq<CodeUnit>
    requires !Falsy(v) && PlainNumber(v)
  {
    match v
    case Bool(_) => Encode("true")
    case Number(n) => Encode(IntToString(n))
    case Str(s) => s
  }

  const Dash: CodeUnit := '-' as int

  /** Drops the two dashes a formatted id carries at positions 3 and 7. */
  function Unformat(formatted: seq<CodeUnit>): seq<CodeUnit>
    requires |formatted| == 12
  {
    formatted[..3] + formatted[4..7] + formatted[8..]
  }

  /**
   * `formatCustomerId`: '' for a falsy value; a ten-unit id becomes
   * `xxx-xxx-xxxx`; any other id is returned as its string.
   */
  function FormatCustomerId(v: JsValue): (r: seq<CodeUnit>)
    requires PlainNumber(v)
    ensures Falsy(v) ==> r == []
    ensures !Falsy(v) && |ToJsString(v)| == 10 ==>
      var id := ToJsString(v);
      && |r| == 12 && r[3] == Dash && r[7] == Dash
      && r[..3] == id[..3] && r[4..7] == id[3..6] && r[8..] == id[6..]
      && Unformat(r) == id
    ensures !Falsy(v) && |ToJsString(v)| != 10 ==> r == ToJsString(v)
  {
    if Falsy(v) then []
    else
      var id := ToJsString(v);
      if |id| == 10 then
        var r := id[..3] + [Dash] + id[3..6] + [Dash] + id[6..];
        assert r[..3] == id[..3] && r[4..7] == id[3..6] && r[8..] == id[6..];
        assert id == id[..3] + id[3..6] + id[6..];
        r
      else id
  }

  /** Formatting an already formatted id changes nothing. */
  lemma {:induction false} FormatIdempotent(v: JsValue)
    requires PlainNumber(v)
    ensures FormatCustomerId(Str(FormatCustomerId(v))) == FormatCustomerId(v)
  {
    if !Falsy(v) {
      var id := ToJsString(v);
      assert |id| > 0 by {
        if v.Number? {
          assert |IntToString(v.n)| >= 1;
        } else if v.Bool? {
          assert |Encode("true")| >= 4;
        }
      }
    }
  }

  /** Only ten-unit ids change, and those grow by exactly the two dashes. */
  lemma {:induction false} FormatChangesOnlyTenUnitIds(v: JsValue)
    requires PlainNumber(v) && !Falsy(v)
    ensures FormatCustomerId(v) != ToJsString(v) <==> |ToJsString(v)| == 10
  {
  }
}

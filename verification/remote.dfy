/**
 * The remote account directory, abstracted. Every search the services issue
 * is answered by a stream: batches of rows delivered in order, after which the
 * stream either ends or throws. A call that fails before yielding anything is
 * a stream with no batches and a failure.
 */
module Remote {
  import opened Results

  datatype Stream<T> = Stream(batches: seq<seq<T>>, failure: Option<string>) {
    /** The rows delivered before the stream ended or threw, in order. */
    function Rows(): seq<T> {
      Flatten(batches)
    }
  }

  /** Whether two streams deliver a row alike: both none, or both some with the same first row. */
  predicate SameFirstRow<T(==)>(s: Stream<T>, s': Stream<T>) {
    && (s.Rows() == [] <==> s'.Rows() == [])
    && (s.Rows() != [] ==> s.Rows()[0] == s'.Rows()[0])
  }

  function Flatten<T>(batches: seq<seq<T>>): (rows: seq<T>)
    ensures batches == [] ==> rows == []
  {
    if batches == [] then [] else batches[0] + Flatten(batches[1..])
  }

  /** Values of the `AccessRole` enumeration, including protobuf's catch-all. */
  datatype AccessRole = Unspecified | Unknown | Admin | Standard | ReadOnly | EmailOnly | Unrecognized {
    /** `Enum.name()`. */
    function Name(): string {
      match this
      case Unspecified => "UNSPECIFIED"
      case Unknown => "UNKNOWN"
      case Admin => "ADMIN"
      case Standard => "STANDARD"
      case ReadOnly => "READ_ONLY"
      case EmailOnly => "EMAIL_ONLY"
      case Unrecognized => "UNRECOGNIZED"
    }
  }

  datatype CustomerUserAccess = CustomerUserAccess(emailAddress: string, accessRole: AccessRole)

  /** A row of the user-access search: it may or may not carry a user access. */
  datatype UserAccessRow = UserAccessRow(customerUserAccess: Option<CustomerUserAccess>)

  /** A row of `SELECT customer.* FROM customer`. */
  datatype CustomerRow = CustomerRow(descriptiveName: string, currencyCode: string, timeZone: string, manager: bool)

  /** A row of `SELECT customer_client.* FROM customer_client`; `level` and `id` are 64-bit. */
  datatype CustomerClientRow = CustomerClientRow(
    clientCustomer: string,
    descriptiveName: string,
    level: int,
    manager: bool,
    currencyCode: string,
    timeZone: string,
    id: int)

  /**
   * What the remote side answers, per call. Streams are keyed by the
   * customer id the request is issued against.
   */
  datatype Directory = Directory(
    /** `listAccessibleCustomers`: resource names, or the exception it threw. */
    accessibleResourceNames: Attempt<seq<string>>,
    /** `Long.parseLong`: the value, or `None` where it throws. */
    parseLong: string -> Option<int>,
    /** The user-access search, keyed by customer id and query text. */
    userAccessRows: (int, string) -> Stream<UserAccessRow>,
    /** The customer-details search. */
    customerRows: string -> Stream<CustomerRow>,
    /** Manager resource names from `customer_manager_link`, asked of a client. */
    managerLinkRows: string -> Stream<string>,
    /** Client resource names from `customer_client_link`, asked of a manager. */
    clientLinkRows: string -> Stream<string>,
    /** The `customer.manager` flag search. */
    managerFlagRows: string -> Stream<bool>,
    /** The level-1 `customer_client` search, issued while acting as the manager. */
    customerClientRows: string -> Stream<CustomerClientRow>)
}

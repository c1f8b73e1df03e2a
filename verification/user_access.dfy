/** The user-access lookup: its query text, the first-match scan and role labels. */
module UserAccess {
  import opened Results
  import opened Remote

  const Select: string := "SELECT "
  /** The condition the address is spliced into. */
  const EmailClause: string := "email_address = '"

  /** The selected columns, the table, and the start of the condition. */
  const Columns: string :=
    "  customer_user_access.user_id,"
    + "  customer_user_access.email_address,"
    + "  customer_user_access.access_role,"
    + "  customer_user_access.access_creation_date_time "
    + "FROM customer_user_access "
    + "WHERE"
    + "  customer_user_access."

  /** Everything the query says before the e-mail address. */
  const QueryPrefix: string := Select + Columns + EmailClause

  /** The search for one user's access, the address spliced in verbatim (no escaping). */
  function BuildUserAccessQuery(emailAddress: string): (q: string)
    ensures |q| == |QueryPrefix| + |emailAddress| + 1
    ensures q[..|Select|] == Select
    ensures q[|q| - |emailAddress| - |EmailClause| - 1..] == EmailClause + emailAddress + "'"
  {
    var q := Select + Columns + EmailClause + emailAddress + "'";
    assert q[..|Select|] == Select;
    q
  }

  /** Reads the address back out of a query built by `BuildUserAccessQuery`. */
  function EmailOfQuery(q: string): Option<string> {
    if |q| > |QueryPrefix| && q[..|QueryPrefix|] == QueryPrefix && q[|q| - 1] == '\''
    then Some(q[|QueryPrefix|..|q| - 1])
    else None
  }

  /** The query determines the address: different users get different queries. */
  lemma {:induction false} QueryRoundTrip(emailAddress: string)
    ensures EmailOfQuery(BuildUserAccessQuery(emailAddress)) == Some(emailAddress)
  {
    var q := BuildUserAccessQuery(emailAddress);
    assert q[..|QueryPrefix|] == QueryPrefix;
    assert q[|QueryPrefix|..|q| - 1] == emailAddress;
  }

  /** The first row, in stream order, that carries a user access. */
  function FirstUserAccess(rows: seq<UserAccessRow>): (r: Option<CustomerUserAccess>)
    ensures r.None? <==> forall i :: 0 <= i < |rows| ==> rows[i].customerUserAccess.None?
    ensures r.Some? ==> exists i :: (0 <= i < |rows| && rows[i].customerUserAccess == r
      && forall j :: 0 <= j < i ==> rows[j].customerUserAccess.None?)
  {
    if rows == [] then None
    else if rows[0].customerUserAccess.Some? then rows[0].customerUserAccess
    else
      var r := FirstUserAccess(rows[1..]);
      assert forall i :: 1 <= i < |rows| ==> rows[i] == rows[1..][i - 1];
      if r.Some? then
        var k :| 0 <= k < |rows[1..]| && rows[1..][k].customerUserAccess == r
          && forall j :: 0 <= j < k ==> rows[1..][j].customerUserAccess.None?;
        assert rows[k + 1].customerUserAccess == r;
        r
      else r
  }

  /** Scans the response batches in order and returns the first user access found. */
  function ExtractUserAccessFromResponse(batches: seq<seq<UserAccessRow>>): Option<CustomerUserAccess> {
    FirstUserAccess(Flatten(batches))
  }

  /**
   * `getCustomerUserAccess`: the first user access delivered; if none was
   * delivered, the stream's exception propagates, or the result is empty.
   */
  function GetCustomerUserAccess(dir: Directory, customerId: int, emailAddress: string): (r: Attempt<Option<CustomerUserAccess>>)
    ensures var s := dir.userAccessRows(customerId, BuildUserAccessQuery(emailAddress));
      && (r.Failure? <==> s.failure.Some? && FirstUserAccess(s.Rows()).None?)
      && (r.Success? ==> r.value == FirstUserAccess(s.Rows()))
  {
    var stream := dir.userAccessRows(customerId, BuildUserAccessQuery(emailAddress));
    var found := ExtractUserAccessFromResponse(stream.batches);
    if found.Some? then Success(found)
    else if stream.failure.Some? then Failure(stream.failure.value)
    else Success(None)
  }

  /** `getAccessRoleDisplayName`: a display for a role, "Unknown" for null. */
  function AccessRoleDisplayName(accessRole: Option<AccessRole>): (display: string)
    ensures accessRole.None? ==> display == "Unknown"
    ensures accessRole == Some(Admin) ==> display == "Admin"
    ensures accessRole == Some(Standard) ==> display == "Standard"
    ensures accessRole == Some(ReadOnly) ==> display == "Read Only"
    ensures accessRole == Some(EmailOnly) ==> display == "Email Only"
    ensures accessRole.Some? && accessRole.value !in {Admin, Standard, ReadOnly, EmailOnly}
      ==> display == accessRole.value.Name()
  {
    match accessRole
    case None => "Unknown"
    case Some(Admin) => "Admin"
    case Some(Standard) => "Standard"
    case Some(ReadOnly) => "Read Only"
    case Some(EmailOnly) => "Email Only"
    case Some(role) => role.Name()
  }

  /** The role a display stands for; the inverse of `AccessRoleDisplayName`. */
  function RoleOfDisplayName(display: string): Option<Option<AccessRole>> {
    if display == "Unknown" then Some(None)
    else if display == "Admin" then Some(Some(Admin))
    else if display == "Standard" then Some(Some(Standard))
    else if display == "Read Only" then Some(Some(ReadOnly))
    else if display == "Email Only" then Some(Some(EmailOnly))
    else if display == "UNSPECIFIED" then Some(Some(Unspecified))
    else if display == "UNKNOWN" then Some(Some(Unknown))
    else if display == "UNRECOGNIZED" then Some(Some(Unrecognized))
    else None
  }

  /** Every role, and null, gets its own display. */
  lemma {:induction false} DisplayNameRoundTrip(accessRole: Option<AccessRole>)
    ensures RoleOfDisplayName(AccessRoleDisplayName(accessRole)) == Some(accessRole)
  {
  }

  /** Labels are never "Error", so a role never passes for the lookup-failure marker. */
  lemma {:induction false} DisplayNameIsNotError(accessRole: Option<AccessRole>)
    ensures AccessRoleDisplayName(accessRole) != "Error"
  {
  }
}

/** The domain entities the workflow reads (contractor, seller, employee,
    client), the status-name table and the event names. */
module Others {
  import opened Wrappers
  import opened PhpRuntime

  /** Contractor::TYPE_CUSTOMER, the only client type the workflow accepts. */
  const TYPE_CUSTOMER: int := 0

  /** A contractor as the store hands it over. Sellers, employees and clients
      are all contractors; `sellerId` is the id of the seller a client
      belongs to (`$client->seller->id`), None when the client has no seller. */
  datatype Contractor = Contractor(
    id: int,
    contractorType: int,
    name: string,
    email: string,
    mobile: string,
    sellerId: Option<int>)

  /** getFullName(): the name, one space, then the id in decimal. The id can
      be read back from what follows the space, and the full name is never a
      falsy string. */
  function FullName(c: Contractor): (r: string)
    ensures |r| > |c.name| + 1 && r[..|c.name|] == c.name && r[|c.name|] == ' '
    ensures PHP_INT_MIN <= c.id <= PHP_INT_MAX ==> IntCast(r[|c.name| + 1..]) == c.id
    ensures !IsFalsyString(r)
  {
    var r := c.name + " " + IntToString(c.id);
    assert r[|c.name| + 1..] == IntToString(c.id);
    if PHP_INT_MIN <= c.id <= PHP_INT_MAX then
      IntCastRoundTrip(c.id);
      r
    else
      r
  }

  /** needNotificationByEmail(): the email holds a character trim() keeps. */
  function NeedNotificationByEmail(c: Contractor): (r: bool)
    ensures r <==> exists i :: 0 <= i < |c.email| && !IsTrimChar(c.email[i])
  {
    !IsBlank(c.email)
  }

  /** needNotificationBySms(): the mobile number holds a character trim() keeps. */
  function NeedNotificationBySms(c: Contractor): (r: bool)
    ensures r <==> exists i :: 0 <= i < |c.mobile| && !IsTrimChar(c.mobile[i])
  {
    !IsBlank(c.mobile)
  }

  /** Status::getName: the codes 0, 1 and 2 name "Completed", "Pending" and
      "Rejected"; every other code has the empty name. */
  function StatusName(id: int): (r: string)
    ensures r != "" <==> 0 <= id <= 2
    ensures id == 0 ==> r == "Completed"
    ensures id == 1 ==> r == "Pending"
    ensures id == 2 ==> r == "Rejected"
  {
    if id == 0 then "Completed"
    else if id == 1 then "Pending"
    else if id == 2 then "Rejected"
    else ""
  }

  /** Distinct known codes have distinct names, so a name identifies its code. */
  lemma StatusNameInjective(a: int, b: int)
    requires StatusName(a) != "" && StatusName(a) == StatusName(b)
    ensures a == b
  {
  }

  /** NotificationEvents::CHANGE_RETURN_STATUS, the event every send names. */
  const CHANGE_RETURN_STATUS: string := "changeReturnStatus"
}

/** The accumulator the workflow fills in step by step, and the fixed-shape
    record it is serialised to. */
module NotificationResults {

  /** The `notificationClientBySms` entry of the output record. */
  datatype SmsStatus = SmsStatus(isSent: bool, message: string)

  /** The array toArray() returns; the field names are the wire contract. */
  datatype Output = Output(
    notificationEmployeeByEmail: bool,
    notificationClientByEmail: bool,
    notificationClientBySms: SmsStatus)

  /** The accumulator's four fields, as a value. */
  datatype Fields = Fields(
    employeeNotifiedViaEmail: bool,
    clientNotifiedViaEmail: bool,
    clientNotifiedViaSms: bool,
    errorMessage: string)

  /** What a freshly constructed accumulator holds. */
  const Initial: Fields := Fields(false, false, false, "")

  /** One call of one of the four setters. */
  datatype Update =
    | SetEmployeeNotifiedViaEmail(notified: bool)
    | SetClientNotifiedViaEmail(notified: bool)
    | SetClientNotifiedViaSms(notified: bool)
    | SetErrorMessage(message: string)

  /** The effect of one setter on the fields. */
  function Apply(f: Fields, u: Update): Fields {
    match u
    case SetEmployeeNotifiedViaEmail(b) => f.(employeeNotifiedViaEmail := b)
    case SetClientNotifiedViaEmail(b) => f.(clientNotifiedViaEmail := b)
    case SetClientNotifiedViaSms(b) => f.(clientNotifiedViaSms := b)
    case SetErrorMessage(m) => f.(errorMessage := m)
  }

  /** The effect of a sequence of setter calls, first call first. */
  function ApplyAll(f: Fields, us: seq<Update>): Fields
    decreases |us|
  {
    if us == [] then f else ApplyAll(Apply(f, us[0]), us[1..])
  }

  /** The value the last setter of the employee flag in us stored, if any. */
  function LastEmployeeFlag(us: seq<Update>, default: bool): bool {
    if us == [] then default
    else if us[|us| - 1].SetEmployeeNotifiedViaEmail? then us[|us| - 1].notified
    else LastEmployeeFlag(us[..|us| - 1], default)
  }

  function LastClientEmailFlag(us: seq<Update>, default: bool): bool {
    if us == [] then default
    else if us[|us| - 1].SetClientNotifiedViaEmail? then us[|us| - 1].notified
    else LastClientEmailFlag(us[..|us| - 1], default)
  }

  function LastClientSmsFlag(us: seq<Update>, default: bool): bool {
    if us == [] then default
    else if us[|us| - 1].SetClientNotifiedViaSms? then us[|us| - 1].notified
    else LastClientSmsFlag(us[..|us| - 1], default)
  }

  function LastErrorMessage(us: seq<Update>, default: string): string {
    if us == [] then default
    else if us[|us| - 1].SetErrorMessage? then us[|us| - 1].message
    else LastErrorMessage(us[..|us| - 1], default)
  }

  /** Applying one more setter after a sequence of them. */
  lemma {:induction false} ApplyAllSnoc(f: Fields, us: seq<Update>, u: Update)
    ensures ApplyAll(f, us + [u]) == Apply(ApplyAll(f, us), u)
    decreases |us|
  {
    if us == [] {
      assert [u][1..] == [];
    } else {
      assert (us + [u])[1..] == us[1..] + [u];
      ApplyAllSnoc(Apply(f, us[0]), us[1..], u);
    }
  }

  /** Setters overwrite: after any sequence of setter calls each field holds
      the value its last setter stored, or its earlier value when no setter of
      that field was called. */
  lemma {:induction false} LastSetWins(f: Fields, us: seq<Update>)
    ensures ApplyAll(f, us).employeeNotifiedViaEmail == LastEmployeeFlag(us, f.employeeNotifiedViaEmail)
    ensures ApplyAll(f, us).clientNotifiedViaEmail == LastClientEmailFlag(us, f.clientNotifiedViaEmail)
    ensures ApplyAll(f, us).clientNotifiedViaSms == LastClientSmsFlag(us, f.clientNotifiedViaSms)
    ensures ApplyAll(f, us).errorMessage == LastErrorMessage(us, f.errorMessage)
    decreases |us|
  {
    if us != [] {
      var init, last := us[..|us| - 1], us[|us| - 1];
      assert us == init + [last];
      ApplyAllSnoc(f, init, last);
      LastSetWins(f, init);
    }
  }

  /** toArray(): each field lands in its own place of the output record. */
  function Serialize(f: Fields): (o: Output)
    ensures o.notificationEmployeeByEmail == f.employeeNotifiedViaEmail
    ensures o.notificationClientByEmail == f.clientNotifiedViaEmail
    ensures o.notificationClientBySms == SmsStatus(f.clientNotifiedViaSms, f.errorMessage)
  {
    Output(f.employeeNotifiedViaEmail, f.clientNotifiedViaEmail,
           SmsStatus(f.clientNotifiedViaSms, f.errorMessage))
  }

  /** toArray() loses nothing: two accumulators with the same output record
      hold the same fields. */
  lemma SerializeInjective(f: Fields, g: Fields)
    requires Serialize(f) == Serialize(g)
    ensures f == g
  {
  }

  /** The mutable accumulator. Every setter overwrites its own field, leaves
      the other three as they were and returns the object itself, so that
      calls can be chained. */
  class NotificationResult {
    var employeeNotifiedViaEmail: bool
    var clientNotifiedViaEmail: bool
    var clientNotifiedViaSms: bool
    var errorMessage: string

    /** The four fields as a value. */
    function State(): Fields
      reads this
    {
      Fields(employeeNotifiedViaEmail, clientNotifiedViaEmail, clientNotifiedViaSms, errorMessage)
    }

    constructor ()
      ensures !employeeNotifiedViaEmail && !clientNotifiedViaEmail && !clientNotifiedViaSms
      ensures errorMessage == ""
      ensures State() == Initial
    {
      employeeNotifiedViaEmail := false;
      clientNotifiedViaEmail := false;
      clientNotifiedViaSms := false;
      errorMessage := "";
    }

    method SetEmployeeNotifiedViaEmail(notified: bool) returns (self: NotificationResult)
      modifies this
      ensures self == this
      ensures employeeNotifiedViaEmail == notified
      ensures clientNotifiedViaEmail == old(clientNotifiedViaEmail)
      ensures clientNotifiedViaSms == old(clientNotifiedViaSms)
      ensures errorMessage == old(errorMessage)
      ensures State() == Apply(old(State()), Update.SetEmployeeNotifiedViaEmail(notified))
    {
      employeeNotifiedViaEmail := notified;
      self := this;
    }

    method SetClientNotifiedViaEmail(notified: bool) returns (self: NotificationResult)
      modifies this
      ensures self == this
      ensures clientNotifiedViaEmail == notified
      ensures employeeNotifiedViaEmail == old(employeeNotifiedViaEmail)
      ensures clientNotifiedViaSms == old(clientNotifiedViaSms)
      ensures errorMessage == old(errorMessage)
      ensures State() == Apply(old(State()), Update.SetClientNotifiedViaEmail(notified))
    {
      clientNotifiedViaEmail := notified;
      self := this;
    }

    method SetClientNotifiedViaSms(notified: bool) returns (self: NotificationResult)
      modifies this
      ensures self == this
      ensures clientNotifiedViaSms == notified
      ensures employeeNotifiedViaEmail == old(employeeNotifiedViaEmail)
      ensures clientNotifiedViaEmail == old(clientNotifiedViaEmail)
      ensures errorMessage == old(errorMessage)
      ensures State() == Apply(old(State()), Update.SetClientNotifiedViaSms(notified))
    {
      clientNotifiedViaSms := notified;
      self := this;
    }

    method SetErrorMessage(message: string) returns (self: NotificationResult)
      modifies this
      ensures self == this
      ensures errorMessage == message
      ensures employeeNotifiedViaEmail == old(employeeNotifiedViaEmail)
      ensures clientNotifiedViaEmail == old(clientNotifiedViaEmail)
      ensures clientNotifiedViaSms == old(clientNotifiedViaSms)
      ensures State() == Apply(old(State()), Update.SetErrorMessage(message))
    {
      errorMessage := message;
      self := this;
    }

    /** toArray(): a read-only view of the fields as the output record. */
    function ToArray(): (o: Output)
      reads this
      ensures o.notificationEmployeeByEmail == employeeNotifiedViaEmail
      ensures o.notificationClientByEmail == clientNotifiedViaEmail
      ensures o.notificationClientBySms == SmsStatus(clientNotifiedViaSms, errorMessage)
    {
      Serialize(State())
    }
  }
}

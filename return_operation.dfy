/** The "return status changed" notification workflow: validate the request
    fields, resolve the reseller, the client and the two employees, assemble
    the template data, notify the staff by email and, on a status change, the
    client by email and SMS, and report in a NotificationResult which
    notifications went out.

    The entity store, the sender-address and recipient lookups, the message
    renderer and the notification gateway are collaborators the workflow
    cannot see into; they are the fields of an Env. Every call the workflow
    makes to one of them is recorded, in order, in the run's trace. */
module ReturnOperation {
  import opened Wrappers
  import opened PhpRuntime
  import opened Others
  import opened NotificationResults

  /** ReturnOperationTypes::NEW and ::CHANGE. Any other int is a third kind
      of notification, for which neither a status description nor a client
      notification is produced. */
  const NEW: int := 1
  const CHANGE: int := 2

  // ------------------------------------------------------------ the request

  /** A value of the request payload: a string, null, or a nested array. */
  datatype Value = Null | Str(s: string) | Arr(entries: map<string, Value>)

  type Request = map<string, Value>

  // ------------------------------------------------------------ exceptions

  /** The exception classes the workflow throws or catches. */
  datatype ExceptionKind = InvalidArgument | Runtime | Domain | TypeError

  datatype Exception = Exception(kind: ExceptionKind, message: string, code: int)

  /** What PHP throws when trim() is handed an array. */
  const TRIM_TYPE_ERROR: Exception :=
    Exception(TypeError, "trim(): Argument #1 ($string) must be of type string, array given", 0)

  /** What PHP throws when a string is passed for an `array` parameter. */
  const ARRAY_TYPE_ERROR: Exception :=
    Exception(TypeError, "Argument #3 ($differences) must be of type array, string given", 0)

  const SELLER_NOT_FOUND: Exception := Exception(Runtime, "Seller not found!", 400)
  const CLIENT_NOT_FOUND: Exception := Exception(Runtime, "Client not found!", 400)

  /** The one exception any failure of template assembly surfaces as. */
  const TEMPLATE_DATA_WRONG: Exception := Exception(Domain, "Template Data is wrong!", 500)

  // ------------------------------------------------------ template data

  /** The template variable names, spelled as the source spells them; FROM
      and TO name the two variables of the status-change description. */
  datatype TemplateKey =
    | CREATOR_ID | CREATOR_NAME | EXPERT_ID | EXPERT_NAME | CLIENT_ID | CLIENT_NAME
    | COMPLAINT_ID | COMPLAINT_NUMBER | CONSUMPTION_ID | CONSUMPTION_NUMBER | AGREEMENT_NUMBER | DATE
    | DIFFERENCES | FROM | TO

  datatype TemplateValue = IntValue(i: int) | StrValue(s: string)

  type TemplateData = map<TemplateKey, TemplateValue>

  /** The variables handed to the renderer: assembled template data, or the
      raw request (which is what the staff email is rendered with). */
  datatype Vars = TemplateVars(template: TemplateData) | RequestVars(request: Request)

  datatype EmailMessage = EmailMessage(emailFrom: string, emailTo: string, subject: string, message: string)

  // ------------------------------------------------------ collaborators

  /** One call to a collaborator. */
  datatype Call =
    | FindSeller(sellerId: int)
    | FindClient(clientId: int)
    | FindEmployee(employeeId: int)
    | GetResellerEmailFrom
    | GetEmailsByPermit(resellerId: int, permit: string)
    | SendMessageToEmployee(messages: seq<EmailMessage>, sellerId: int, event: string)
    | SendEmailMessageToClient(messages: seq<EmailMessage>, sellerId: int, clientId: int, event: string, newStatus: int)
    | SendSmsMessageToClient(sellerId: int, clientId: int, event: string, newStatus: int, templateData: TemplateData)

  /** The gateway's answer to a send call: it went out, or it threw. */
  datatype Delivery = Delivered | Refused(error: Exception)

  /** The collaborators. `emailsByPermit` answers None when the lookup does
      not return an array; `translate` is the `__` renderer. */
  datatype Env = Env(
    sellerById: int -> Option<Contractor>,
    contractorById: int -> Option<Contractor>,
    employeeById: int -> Option<Contractor>,
    resellerEmailFrom: string,
    emailsByPermit: (int, string) -> Option<seq<string>>,
    translate: (string, Vars, int) -> string,
    gateway: Call -> Delivery)

  /** The outcome of one of the send helpers and the calls it made. */
  datatype Attempt = Attempt(result: Result<bool, Exception>, calls: seq<Call>)

  /** What doOperation ends with: an exception it lets escape, or the array it
      returns. */
  datatype Response = Threw(error: Exception) | Returned(output: Output)

  datatype Run = Run(response: Response, calls: seq<Call>)

  // ------------------------------------------------------ field validation

  /** The field holds a string with at least one character trim() keeps. */
  predicate HasValue(fieldName: string, data: Request) {
    fieldName in data && data[fieldName].Str? && !AllTrimChars(data[fieldName].s)
  }

  /** The field is absent, null, or a string of trim characters only. */
  predicate IsMissing(fieldName: string, data: Request) {
    fieldName !in data || data[fieldName].Null? || (data[fieldName].Str? && AllTrimChars(data[fieldName].s))
  }

  /** getValueOrFailByFieldName: a missing field fails with "Empty <name>" and
      code 400, an array fails the way trim() does, and any other value is
      returned as it is. */
  function ValueOrFail(fieldName: string, data: Request): (r: Result<string, Exception>)
    ensures r.Success? <==> HasValue(fieldName, data)
    ensures r.Success? ==> data[fieldName] == Str(r.value)
    ensures IsMissing(fieldName, data) <==> r.Failure? && r.error.kind == InvalidArgument
    ensures IsMissing(fieldName, data) ==> r.error == Exception(InvalidArgument, "Empty " + fieldName, 400)
    ensures fieldName in data && data[fieldName].Arr? ==> r == Failure(TRIM_TYPE_ERROR)
  {
    if fieldName !in data || data[fieldName].Null? then
      Failure(Exception(InvalidArgument, "Empty " + fieldName, 400))
    else
      match data[fieldName]
      case Arr(_) => Failure(TRIM_TYPE_ERROR)
      case Str(s) =>
        if Trim(s) == "" then Failure(Exception(InvalidArgument, "Empty " + fieldName, 400))
        else Success(s)
  }

  /** getIntegerValueOrFailByFieldName: the same checks, then the (int) cast. */
  function IntegerValueOrFail(fieldName: string, data: Request): (r: Result<int, Exception>)
    ensures r.Success? <==> HasValue(fieldName, data)
    ensures r.Failure? ==> r.error == ValueOrFail(fieldName, data).error
    ensures r.Success? ==> PHP_INT_MIN <= r.value <= PHP_INT_MAX
    ensures r.Success? ==> r.value == IntCast(data[fieldName].s)
  {
    var value :- ValueOrFail(fieldName, data);
    Success(IntCast(value))
  }

  /** A field holding the decimal rendering of an int reads back as that int. */
  lemma IntegerFieldRoundTrip(fieldName: string, data: Request, n: int)
    requires PHP_INT_MIN <= n <= PHP_INT_MAX
    requires fieldName in data && data[fieldName] == Str(IntToString(n))
    ensures IntegerValueOrFail(fieldName, data) == Success(n)
  {
    IntCastRoundTrip(n);
    assert !AllTrimChars(IntToString(n)) by {
      assert !IsTrimChar(IntToString(n)[0]);
    }
  }

  // ------------------------------------------------------ entity resolution

  /** getResellerOrFailById. */
  function ResellerOrFail(env: Env, resellerId: int): (r: Result<Contractor, Exception>)
    ensures r.Success? <==> env.sellerById(resellerId).Some?
    ensures r.Success? ==> r.value == env.sellerById(resellerId).value
    ensures r.Failure? ==> r.error == SELLER_NOT_FOUND
  {
    match env.sellerById(resellerId)
    case None => Failure(SELLER_NOT_FOUND)
    case Some(reseller) => Success(reseller)
  }

  /** The client the store returned passes the resolver's checks: it is a
      customer, and its seller's id equals the CLIENT's id (the comparison the
      source makes). */
  predicate IsAcceptedClient(client: Contractor, clientId: int) {
    client.contractorType == TYPE_CUSTOMER && client.sellerId == Some(clientId)
  }

  /** getClientOrFailById: fails with "Client not found!" when the store has no
      such contractor, when it is not a customer, or when its seller's id is
      not the client id. */
  function ClientOrFail(env: Env, clientId: int): (r: Result<Contractor, Exception>)
    ensures r.Success? <==> env.contractorById(clientId).Some? && IsAcceptedClient(env.contractorById(clientId).value, clientId)
    ensures r.Success? ==> r.value == env.contractorById(clientId).value && r.value.contractorType == TYPE_CUSTOMER
    ensures r.Failure? ==> r.error == CLIENT_NOT_FOUND
  {
    match env.contractorById(clientId)
    case None => Failure(CLIENT_NOT_FOUND)
    case Some(client) =>
      if client.contractorType != TYPE_CUSTOMER || client.sellerId != Some(clientId) then Failure(CLIENT_NOT_FOUND)
      else Success(client)
  }

  /** getEmployeeOrFailById: the error names the role ("Creator", "Expert"). */
  function EmployeeOrFail(env: Env, employeeId: int, employeeType: string): (r: Result<Contractor, Exception>)
    ensures r.Success? <==> env.employeeById(employeeId).Some?
    ensures r.Success? ==> r.value == env.employeeById(employeeId).value
    ensures r.Failure? ==> r.error == Exception(Runtime, employeeType + " not found!", 400)
  {
    match env.employeeById(employeeId)
    case None => Failure(Exception(Runtime, employeeType + " not found!", 400))
    case Some(employee) => Success(employee)
  }

  // ------------------------------------------------------ template data

  const OTHER_KEYS: set<TemplateKey> :=
    {COMPLAINT_ID, COMPLAINT_NUMBER, CONSUMPTION_ID, CONSUMPTION_NUMBER, AGREEMENT_NUMBER, DATE}

  /** All six request fields the "other" template variables come from hold
      a value. */
  predicate HasOtherFields(data: Request) {
    && HasValue("complaintId", data)
    && HasValue("complaintNumber", data)
    && HasValue("consumptionId", data)
    && HasValue("consumptionNumber", data)
    && HasValue("agreementNumber", data)
    && HasValue("date", data)
  }

  /** The keys every successfully assembled template data holds. */
  const BASE_KEYS: set<TemplateKey> :=
    {CREATOR_ID, CREATOR_NAME, EXPERT_ID, EXPERT_NAME, CLIENT_ID, CLIENT_NAME} + OTHER_KEYS

  function CreatorTemplateData(creator: Contractor): (m: TemplateData)
    ensures m.Keys == {CREATOR_ID, CREATOR_NAME}
    ensures m[CREATOR_ID] == IntValue(creator.id)
    ensures m[CREATOR_NAME] == StrValue(FullName(creator))
  {
    map[CREATOR_ID := IntValue(creator.id), CREATOR_NAME := StrValue(FullName(creator))]
  }

  function ExpertTemplateData(expert: Contractor): (m: TemplateData)
    ensures m.Keys == {EXPERT_ID, EXPERT_NAME}
    ensures m[EXPERT_ID] == IntValue(expert.id)
    ensures m[EXPERT_NAME] == StrValue(FullName(expert))
  {
    map[EXPERT_ID := IntValue(expert.id), EXPERT_NAME := StrValue(FullName(expert))]
  }

  /** getClientTemplateData: CLIENT_NAME falls back to the bare name when the
      full name is falsy, which it never is, so CLIENT_NAME is always the full
      name. */
  function ClientTemplateData(client: Contractor): (m: TemplateData)
    ensures m.Keys == {CLIENT_ID, CLIENT_NAME}
    ensures m[CLIENT_ID] == IntValue(client.id)
    ensures m[CLIENT_NAME] == StrValue(FullName(client))
  {
    var fullName := FullName(client);
    map[CLIENT_ID := IntValue(client.id),
        CLIENT_NAME := StrValue(if IsFalsyString(fullName) then client.name else fullName)]
  }

  /** getOtherTemplateData: succeeds exactly when all six request fields hold a
      value, and then maps the six keys to them (the two ids cast to int). */
  function OtherTemplateData(data: Request): (r: Result<TemplateData, Exception>)
    ensures r.Success? <==> HasOtherFields(data)
    ensures r.Success? ==> r.value.Keys == OTHER_KEYS
    ensures r.Success? ==>
      && r.value[COMPLAINT_ID] == IntValue(IntCast(data["complaintId"].s))
      && r.value[COMPLAINT_NUMBER] == StrValue(data["complaintNumber"].s)
      && r.value[CONSUMPTION_ID] == IntValue(IntCast(data["consumptionId"].s))
      && r.value[CONSUMPTION_NUMBER] == StrValue(data["consumptionNumber"].s)
      && r.value[AGREEMENT_NUMBER] == StrValue(data["agreementNumber"].s)
      && r.value[DATE] == StrValue(data["date"].s)
  {
    var complaintId :- IntegerValueOrFail("complaintId", data);
    var complaintNumber :- ValueOrFail("complaintNumber", data);
    var consumptionId :- IntegerValueOrFail("consumptionId", data);
    var consumptionNumber :- ValueOrFail("consumptionNumber", data);
    var agreementNumber :- ValueOrFail("agreementNumber", data);
    var date :- ValueOrFail("date", data);
    Success(OtherMap(complaintId, complaintNumber, consumptionId, consumptionNumber, agreementNumber, date))
  }

  /** The array getOtherTemplateData builds from the six field values. */
  function OtherMap(complaintId: int, complaintNumber: string, consumptionId: int, consumptionNumber: string,
                    agreementNumber: string, date: string): (m: TemplateData)
    ensures m.Keys == OTHER_KEYS
    ensures m[COMPLAINT_ID] == IntValue(complaintId) && m[COMPLAINT_NUMBER] == StrValue(complaintNumber)
    ensures m[CONSUMPTION_ID] == IntValue(consumptionId) && m[CONSUMPTION_NUMBER] == StrValue(consumptionNumber)
    ensures m[AGREEMENT_NUMBER] == StrValue(agreementNumber) && m[DATE] == StrValue(date)
  {
    map[
      COMPLAINT_ID := IntValue(complaintId),
      COMPLAINT_NUMBER := StrValue(complaintNumber),
      CONSUMPTION_ID := IntValue(consumptionId),
      CONSUMPTION_NUMBER := StrValue(consumptionNumber),
      AGREEMENT_NUMBER := StrValue(agreementNumber),
      DATE := StrValue(date)]
  }

  /** `$data['differences'] ?? []`. */
  function DifferencesOf(data: Request): (v: Value)
    ensures !v.Null?
    ensures "differences" !in data || data["differences"].Null? ==> v == Arr(map[])
    ensures "differences" in data && !data["differences"].Null? ==> v == data["differences"]
  {
    if "differences" !in data || data["differences"].Null? then Arr(map[]) else data["differences"]
  }

  /** A DIFFERENCES entry is due: the notification is NEW, or it is CHANGE
      with a non-empty differences array. */
  predicate WantsDifferences(notificationType: int, differences: Value) {
    notificationType == NEW || (notificationType == CHANGE && differences.Arr? && |differences.entries| > 0)
  }

  /** The field holds a value whose (int) cast is a code of the status table. */
  predicate IsKnownStatus(fieldName: string, differences: map<string, Value>) {
    var code := IntegerValueOrFail(fieldName, differences);
    code.Success? && 0 <= code.value <= 2
  }

  /** getDifferencesTemplateData. */
  function DifferencesTemplateData(env: Env, notificationType: int, reseller: Contractor, differences: Value)
    : (r: Result<TemplateData, Exception>)
    ensures !differences.Arr? ==> r == Failure(ARRAY_TYPE_ERROR)
    ensures r.Success? ==> r.value.Keys <= {DIFFERENCES}
    ensures r.Success? ==> (DIFFERENCES in r.value <==> WantsDifferences(notificationType, differences))
    ensures differences.Arr? && notificationType == NEW ==>
      r == Success(map[DIFFERENCES := StrValue(env.translate("NewPositionAdded", TemplateVars(map[]), reseller.id))])
    ensures differences.Arr? && !WantsDifferences(notificationType, differences) ==> r == Success(map[])
  {
    match differences
    case Null => Failure(ARRAY_TYPE_ERROR)
    case Str(_) => Failure(ARRAY_TYPE_ERROR)
    case Arr(entries) =>
      if notificationType == NEW then
        Success(map[DIFFERENCES := StrValue(env.translate("NewPositionAdded", TemplateVars(map[]), reseller.id))])
      else if notificationType == CHANGE && |entries| > 0 then
        var fromCode :- IntegerValueOrFail("from", entries);
        var from := StatusName(fromCode);
        if from == "" then
          Failure(Exception(InvalidArgument, "Invalid value differences.from", 400))
        else
          var toCode :- IntegerValueOrFail("to", entries);
          var to := StatusName(toCode);
          if to == "" then
            Failure(Exception(InvalidArgument, "Invalid value differences.to", 400))
          else
            var vars := TemplateVars(map[FROM := StrValue(from), TO := StrValue(to)]);
            Success(map[DIFFERENCES := StrValue(env.translate("PositionStatusHasChanged", vars, reseller.id))])
      else
        Success(map[])
  }

  /** On a CHANGE with a non-empty differences array the description needs
      both differences.from and differences.to to name a known status; a value
      that casts to an unknown code is reported as an invalid from or to. */
  lemma DifferencesNeedKnownStatuses(env: Env, reseller: Contractor, differences: map<string, Value>)
    requires |differences| > 0
    ensures DifferencesTemplateData(env, CHANGE, reseller, Arr(differences)).Success? <==>
      IsKnownStatus("from", differences) && IsKnownStatus("to", differences)
    ensures HasValue("from", differences) && !IsKnownStatus("from", differences) ==>
      DifferencesTemplateData(env, CHANGE, reseller, Arr(differences)) ==
        Failure(Exception(InvalidArgument, "Invalid value differences.from", 400))
    ensures IsKnownStatus("from", differences) && HasValue("to", differences) && !IsKnownStatus("to", differences) ==>
      DifferencesTemplateData(env, CHANGE, reseller, Arr(differences)) ==
        Failure(Exception(InvalidArgument, "Invalid value differences.to", 400))
  {
    KnownStatusesSucceed(env, reseller, differences);
    UnknownFromRejected(env, reseller, differences);
    UnknownToRejected(env, reseller, differences);
  }

  /** The description succeeds exactly when both codes are known. */
  lemma KnownStatusesSucceed(env: Env, reseller: Contractor, differences: map<string, Value>)
    requires |differences| > 0
    ensures DifferencesTemplateData(env, CHANGE, reseller, Arr(differences)).Success? <==>
      IsKnownStatus("from", differences) && IsKnownStatus("to", differences)
  {
    KnownStatusNamed("from", differences);
    KnownStatusNamed("to", differences);
  }

  /** A field names a known status exactly when it validates to a code with a
      non-empty status name. */
  lemma KnownStatusNamed(fieldName: string, differences: map<string, Value>)
    ensures IsKnownStatus(fieldName, differences) <==>
      IntegerValueOrFail(fieldName, differences).Success? && StatusName(IntegerValueOrFail(fieldName, differences).value) != ""
  {
  }

  /** An unknown from code is reported as an invalid from. */
  lemma UnknownFromRejected(env: Env, reseller: Contractor, differences: map<string, Value>)
    requires |differences| > 0
    ensures HasValue("from", differences) && !IsKnownStatus("from", differences) ==>
      DifferencesTemplateData(env, CHANGE, reseller, Arr(differences)) ==
        Failure(Exception(InvalidArgument, "Invalid value differences.from", 400))
  {
    KnownStatusNamed("from", differences);
    KnownStatusNamed("to", differences);
  }

  /** A known from code followed by an unknown to code is reported as an
      invalid to. */
  lemma UnknownToRejected(env: Env, reseller: Contractor, differences: map<string, Value>)
    requires |differences| > 0
    ensures IsKnownStatus("from", differences) && HasValue("to", differences) && !IsKnownStatus("to", differences) ==>
      DifferencesTemplateData(env, CHANGE, reseller, Arr(differences)) ==
        Failure(Exception(InvalidArgument, "Invalid value differences.to", 400))
  {
    KnownStatusNamed("from", differences);
    KnownStatusNamed("to", differences);
  }

  /** The keys of the creator, expert and client parts. */
  const PEOPLE_KEYS: set<TemplateKey> :=
    {CREATOR_ID, CREATOR_NAME, EXPERT_ID, EXPERT_NAME, CLIENT_ID, CLIENT_NAME}

  /** The creator, expert and client parts merged: none shares a key with
      another, so each part's keys keep that part's values. */
  function PeopleTemplateData(creator: Contractor, expert: Contractor, client: Contractor): (m: TemplateData)
    ensures m.Keys == PEOPLE_KEYS
    ensures forall k :: k in CreatorTemplateData(creator) ==> m[k] == CreatorTemplateData(creator)[k]
    ensures forall k :: k in ExpertTemplateData(expert) ==> m[k] == ExpertTemplateData(expert)[k]
    ensures forall k :: k in ClientTemplateData(client) ==> m[k] == ClientTemplateData(client)[k]
  {
    var creatorPart := CreatorTemplateData(creator);
    var expertPart := ExpertTemplateData(expert);
    var clientPart := ClientTemplateData(client);
    PeopleKeysDisjoint(creatorPart, expertPart, clientPart);
    DisjointUnion(creatorPart, expertPart, clientPart);
    creatorPart + expertPart + clientPart
  }

  /** The creator, expert and client parts have pairwise distinct keys. */
  lemma PeopleKeysDisjoint(creatorPart: TemplateData, expertPart: TemplateData, clientPart: TemplateData)
    requires creatorPart.Keys == {CREATOR_ID, CREATOR_NAME}
    requires expertPart.Keys == {EXPERT_ID, EXPERT_NAME}
    requires clientPart.Keys == {CLIENT_ID, CLIENT_NAME}
    ensures creatorPart.Keys !! expertPart.Keys && creatorPart.Keys !! clientPart.Keys
    ensures expertPart.Keys !! clientPart.Keys
    ensures creatorPart.Keys + expertPart.Keys + clientPart.Keys == PEOPLE_KEYS
  {
  }

  /** The union of three maps no two of which share a key keeps every value
      of each. */
  lemma DisjointUnion(a: TemplateData, b: TemplateData, c: TemplateData)
    requires a.Keys !! b.Keys && a.Keys !! c.Keys && b.Keys !! c.Keys
    ensures (a + b + c).Keys == a.Keys + b.Keys + c.Keys
    ensures forall k :: k in a ==> (a + b + c)[k] == a[k]
    ensures forall k :: k in b ==> (a + b + c)[k] == b[k]
    ensures forall k :: k in c ==> (a + b + c)[k] == c[k]
  {
  }

  /** array_merge of the five template-data parts: every key of every part is
      kept, and on a key two parts share the later part wins, so a people key
      that neither later part has keeps the people part's value. */
  function MergeTemplateData(creator: Contractor, expert: Contractor, client: Contractor,
                             other: TemplateData, differences: TemplateData)
    : (m: TemplateData)
    ensures m.Keys == PEOPLE_KEYS + other.Keys + differences.Keys
    ensures forall k :: k in differences ==> m[k] == differences[k]
    ensures forall k :: k in other && k !in differences ==> m[k] == other[k]
    ensures forall k :: k in PEOPLE_KEYS && k !in other && k !in differences ==>
      m[k] == PeopleTemplateData(creator, expert, client)[k]
  {
    PeopleTemplateData(creator, expert, client) + other + differences
  }

  /** Neither the "other" part nor the differences part carries a key of the
      people parts. */
  lemma PeopleKeysNotOverridden(other: TemplateData, differences: TemplateData)
    requires other.Keys == OTHER_KEYS && differences.Keys <= {DIFFERENCES}
    ensures forall k :: k in PEOPLE_KEYS ==> k !in other && k !in differences
  {
  }

  /** The template data and the calls assembling it made. */
  datatype Assembly = Assembly(result: Result<TemplateData, Exception>, calls: seq<Call>)

  /** The try block around template assembly: the creator and the expert are
      looked up in turn and the parts merged; whatever fails, the failure
      surfaces only as "Template Data is wrong!". */
  function AssembleTemplateData(env: Env, data: Request, notificationType: int, reseller: Contractor,
                                client: Contractor, creatorId: int, expertId: int, differences: Value)
    : (a: Assembly)
    ensures a.result.Failure? ==> a.result.error == TEMPLATE_DATA_WRONG
    ensures a.calls ==
      if env.employeeById(creatorId).Some? then [FindEmployee(creatorId), FindEmployee(expertId)] else [FindEmployee(creatorId)]
    ensures a.result.Success? <==>
      env.employeeById(creatorId).Some? && env.employeeById(expertId).Some? &&
      OtherTemplateData(data).Success? && DifferencesTemplateData(env, notificationType, reseller, differences).Success?
  {
    match EmployeeOrFail(env, creatorId, "Creator")
    case Failure(_) => Assembly(Failure(TEMPLATE_DATA_WRONG), [FindEmployee(creatorId)])
    case Success(creator) =>
      var calls := [FindEmployee(creatorId), FindEmployee(expertId)];
      match EmployeeOrFail(env, expertId, "Expert")
      case Failure(_) => Assembly(Failure(TEMPLATE_DATA_WRONG), calls)
      case Success(expert) =>
        match OtherTemplateData(data)
        case Failure(_) => Assembly(Failure(TEMPLATE_DATA_WRONG), calls)
        case Success(other) =>
          match DifferencesTemplateData(env, notificationType, reseller, differences)
          case Failure(_) => Assembly(Failure(TEMPLATE_DATA_WRONG), calls)
          case Success(diff) =>
            Assembly(Success(MergeTemplateData(creator, expert, client, other, diff)), calls)
  }

  /** Assembled template data holds exactly the six base keys, the six
      "other" keys, and DIFFERENCES when one is due; it is only ever
      assembled from a differences array. */
  lemma AssembledTemplateKeys(env: Env, data: Request, notificationType: int, reseller: Contractor,
                              client: Contractor, creatorId: int, expertId: int, differences: Value)
    requires AssembleTemplateData(env, data, notificationType, reseller, client, creatorId, expertId, differences).result.Success?
    ensures differences.Arr?
    ensures AssembleTemplateData(env, data, notificationType, reseller, client, creatorId, expertId, differences).result.value.Keys
      == BASE_KEYS + (if WantsDifferences(notificationType, differences) then {DIFFERENCES} else {})
  {
    var other := OtherTemplateData(data).value;
    var diff := DifferencesTemplateData(env, notificationType, reseller, differences).value;
    MergedKeys(other, diff, WantsDifferences(notificationType, differences));
  }

  lemma MergedKeys(other: TemplateData, differences: TemplateData, wantsDifferences: bool)
    requires other.Keys == OTHER_KEYS
    requires differences.Keys <= {DIFFERENCES} && (DIFFERENCES in differences <==> wantsDifferences)
    ensures PEOPLE_KEYS + other.Keys + differences.Keys == BASE_KEYS + (if wantsDifferences then {DIFFERENCES} else {})
  {
    assert differences.Keys == if wantsDifferences then {DIFFERENCES} else {};
  }

  /** In assembled template data the people keys hold the ids and full
      names of the creator and the expert the store returned and of the
      client: no later part of the merge overrides them. */
  lemma AssembledPeopleValues(env: Env, data: Request, notificationType: int, reseller: Contractor,
                              client: Contractor, creatorId: int, expertId: int, differences: Value)
    requires AssembleTemplateData(env, data, notificationType, reseller, client, creatorId, expertId, differences).result.Success?
    ensures env.employeeById(creatorId).Some? && env.employeeById(expertId).Some?
    ensures
      var m := AssembleTemplateData(env, data, notificationType, reseller, client, creatorId, expertId, differences).result.value;
      forall k :: k in PEOPLE_KEYS ==>
        k in m && m[k] == PeopleTemplateData(env.employeeById(creatorId).value, env.employeeById(expertId).value, client)[k]
  {
    var other := OtherTemplateData(data).value;
    var diff := DifferencesTemplateData(env, notificationType, reseller, differences).value;
    PeopleKeysNotOverridden(other, diff);
  }

  /** In assembled template data each "other" key holds getOtherTemplateData's
      value and DIFFERENCES, when present, the differences part's entry. */
  lemma AssembledLaterValues(env: Env, data: Request, notificationType: int, reseller: Contractor,
                             client: Contractor, creatorId: int, expertId: int, differences: Value)
    requires AssembleTemplateData(env, data, notificationType, reseller, client, creatorId, expertId, differences).result.Success?
    ensures OtherTemplateData(data).Success? && DifferencesTemplateData(env, notificationType, reseller, differences).Success?
    ensures
      var m := AssembleTemplateData(env, data, notificationType, reseller, client, creatorId, expertId, differences).result.value;
      var other := OtherTemplateData(data).value;
      var diff := DifferencesTemplateData(env, notificationType, reseller, differences).value;
      && (forall k :: k in other ==> k in m && m[k] == other[k])
      && (forall k :: k in diff ==> k in m && m[k] == diff[k])
  {
    var creator := env.employeeById(creatorId).value;
    var expert := env.employeeById(expertId).value;
    var other := OtherTemplateData(data).value;
    var diff := DifferencesTemplateData(env, notificationType, reseller, differences).value;
    MergeKeepsLaterParts(creator, expert, client, other, diff);
  }

  /** In the merge, every "other" key keeps the "other" part's value and
      every differences key the differences part's: the two share no key. */
  lemma MergeKeepsLaterParts(creator: Contractor, expert: Contractor, client: Contractor,
                             other: TemplateData, differences: TemplateData)
    requires other.Keys == OTHER_KEYS && differences.Keys <= {DIFFERENCES}
    ensures
      var m := MergeTemplateData(creator, expert, client, other, differences);
      && (forall k :: k in other ==> k in m && m[k] == other[k])
      && (forall k :: k in differences ==> k in m && m[k] == differences[k])
  {
    assert DIFFERENCES !in OTHER_KEYS;
  }

  /** What assembled template data holds: the ids and full names of the
      creator, the expert and the client, each "other" value as
      getOtherTemplateData built it, and the differences entry when there is
      one. */
  lemma AssembledTemplateValues(env: Env, data: Request, notificationType: int, reseller: Contractor,
                                client: Contractor, creatorId: int, expertId: int, differences: Value)
    requires AssembleTemplateData(env, data, notificationType, reseller, client, creatorId, expertId, differences).result.Success?
    ensures env.employeeById(creatorId).Some? && env.employeeById(expertId).Some?
    ensures OtherTemplateData(data).Success? && DifferencesTemplateData(env, notificationType, reseller, differences).Success?
    ensures
      var m := AssembleTemplateData(env, data, notificationType, reseller, client, creatorId, expertId, differences).result.value;
      var creator := env.employeeById(creatorId).value;
      var expert := env.employeeById(expertId).value;
      && CREATOR_ID in m && m[CREATOR_ID] == IntValue(creator.id)
      && CREATOR_NAME in m && m[CREATOR_NAME] == StrValue(FullName(creator))
      && EXPERT_ID in m && m[EXPERT_ID] == IntValue(expert.id)
      && EXPERT_NAME in m && m[EXPERT_NAME] == StrValue(FullName(expert))
      && CLIENT_ID in m && m[CLIENT_ID] == IntValue(client.id)
      && CLIENT_NAME in m && m[CLIENT_NAME] == StrValue(FullName(client))
    ensures
      var m := AssembleTemplateData(env, data, notificationType, reseller, client, creatorId, expertId, differences).result.value;
      var other := OtherTemplateData(data).value;
      var diff := DifferencesTemplateData(env, notificationType, reseller, differences).value;
      && (forall k :: k in other ==> k in m && m[k] == other[k])
      && (forall k :: k in diff ==> k in m && m[k] == diff[k])
  {
    AssembledPeopleValues(env, data, notificationType, reseller, client, creatorId, expertId, differences);
    AssembledLaterValues(env, data, notificationType, reseller, client, creatorId, expertId, differences);
    var m := AssembleTemplateData(env, data, notificationType, reseller, client, creatorId, expertId, differences).result.value;
    var people := PeopleTemplateData(env.employeeById(creatorId).value, env.employeeById(expertId).value, client);
    assert CREATOR_ID in PEOPLE_KEYS && CREATOR_NAME in PEOPLE_KEYS && EXPERT_ID in PEOPLE_KEYS;
    assert EXPERT_NAME in PEOPLE_KEYS && CLIENT_ID in PEOPLE_KEYS && CLIENT_NAME in PEOPLE_KEYS;
  }

  // ------------------------------------------------------ sending

  /** The permission whose holders receive the staff email. */
  const EMPLOYEE_PERMIT: string := "tsGoodsReturn"

  /** The staff recipients: the permission lookup's array, nothing when it
      returned something other than an array. */
  function Recipients(env: Env, reseller: Contractor): (r: seq<string>)
    ensures env.emailsByPermit(reseller.id, EMPLOYEE_PERMIT).None? ==> r == []
    ensures env.emailsByPermit(reseller.id, EMPLOYEE_PERMIT).Some? ==>
      r == env.emailsByPermit(reseller.id, EMPLOYEE_PERMIT).value
  {
    match env.emailsByPermit(reseller.id, EMPLOYEE_PERMIT)
    case None => []
    case Some(emails) => emails
  }

  /** The array_map over the recipients: one message per recipient, in order,
      all with the same sender, subject and body. */
  function EmployeeMessages(emails: seq<string>, emailFrom: string, subject: string, message: string)
    : (r: seq<EmailMessage>)
    ensures |r| == |emails|
    ensures forall i :: 0 <= i < |r| ==> r[i] == EmailMessage(emailFrom, emails[i], subject, message)
  {
    if emails == [] then []
    else [EmailMessage(emailFrom, emails[0], subject, message)] + EmployeeMessages(emails[1..], emailFrom, subject, message)
  }

  /** A send helper's answer once its gateway call has been made: true when
      the call went out, the gateway's exception when it threw. */
  function SendOutcome(d: Delivery): (r: Result<bool, Exception>)
    ensures r.Success? <==> d.Delivered?
    ensures r.Success? ==> r.value
    ensures r.Failure? ==> r.error == d.error
  {
    match d
    case Delivered => Success(true)
    case Refused(e) => Failure(e)
  }

  /** The staff email's gateway call: one message per recipient, in order,
      each from the sender address with the same subject and body, both
      rendered from the raw request. */
  function StaffEmailCall(env: Env, reseller: Contractor, emailFrom: string, data: Request): (c: Call)
    ensures c.SendMessageToEmployee? && c.sellerId == reseller.id && c.event == CHANGE_RETURN_STATUS
    ensures |c.messages| == |Recipients(env, reseller)|
    ensures forall i :: 0 <= i < |c.messages| ==>
      c.messages[i] == EmailMessage(emailFrom, Recipients(env, reseller)[i],
        env.translate("complaintEmployeeEmailSubject", RequestVars(data), reseller.id),
        env.translate("complaintEmployeeEmailBody", RequestVars(data), reseller.id))
  {
    var subject := env.translate("complaintEmployeeEmailSubject", RequestVars(data), reseller.id);
    var message := env.translate("complaintEmployeeEmailBody", RequestVars(data), reseller.id);
    SendMessageToEmployee(EmployeeMessages(Recipients(env, reseller), emailFrom, subject, message),
                          reseller.id, CHANGE_RETURN_STATUS)
  }

  /** sendComplaintEmployeeEmail: with no recipients it answers false after
      the lookup alone; otherwise it makes the staff email's gateway call and
      answers true, unless the gateway throws. */
  function SendComplaintEmployeeEmail(env: Env, reseller: Contractor, emailFrom: string, data: Request)
    : (a: Attempt)
    ensures Recipients(env, reseller) == [] ==>
      a == Attempt(Success(false), [GetEmailsByPermit(reseller.id, EMPLOYEE_PERMIT)])
    ensures Recipients(env, reseller) != [] ==>
      a.calls == [GetEmailsByPermit(reseller.id, EMPLOYEE_PERMIT), StaffEmailCall(env, reseller, emailFrom, data)] &&
      a.result == SendOutcome(env.gateway(StaffEmailCall(env, reseller, emailFrom, data)))
  {
    var lookup := GetEmailsByPermit(reseller.id, EMPLOYEE_PERMIT);
    if Recipients(env, reseller) == [] then
      Attempt(Success(false), [lookup])
    else
      var send := StaffEmailCall(env, reseller, emailFrom, data);
      Attempt(SendOutcome(env.gateway(send)), [lookup, send])
  }

  /** The client email's gateway call: a single message to the client's
      address, rendered from the template data, with the new status. */
  function ClientEmailCall(env: Env, client: Contractor, reseller: Contractor, emailFrom: string,
                           templateData: TemplateData, newStatus: int): (c: Call)
    ensures c.SendEmailMessageToClient? && c.event == CHANGE_RETURN_STATUS
    ensures c.sellerId == reseller.id && c.clientId == client.id && c.newStatus == newStatus
    ensures c.messages == [EmailMessage(emailFrom, client.email,
      env.translate("complaintClientEmailSubject", TemplateVars(templateData), reseller.id),
      env.translate("complaintClientEmailBody", TemplateVars(templateData), reseller.id))]
  {
    var subject := env.translate("complaintClientEmailSubject", TemplateVars(templateData), reseller.id);
    var message := env.translate("complaintClientEmailBody", TemplateVars(templateData), reseller.id);
    SendEmailMessageToClient([EmailMessage(emailFrom, client.email, subject, message)],
                             reseller.id, client.id, CHANGE_RETURN_STATUS, newStatus)
  }

  /** sendComplaintClientEmail: the new status is read from differences.to,
      and a missing one throws before anything is sent; otherwise the client
      email's gateway call is made. It never answers false. */
  function SendComplaintClientEmail(env: Env, client: Contractor, reseller: Contractor, emailFrom: string,
                                    templateData: TemplateData, differences: map<string, Value>)
    : (a: Attempt)
    ensures a.result != Success(false)
    ensures !HasValue("to", differences) ==> a == Attempt(Failure(ValueOrFail("to", differences).error), [])
    ensures HasValue("to", differences) ==>
      var send := ClientEmailCall(env, client, reseller, emailFrom, templateData, IntegerValueOrFail("to", differences).value);
      a == Attempt(SendOutcome(env.gateway(send)), [send])
  {
    match IntegerValueOrFail("to", differences)
    case Failure(e) => Attempt(Failure(e), [])
    case Success(newStatus) =>
      var send := ClientEmailCall(env, client, reseller, emailFrom, templateData, newStatus);
      Attempt(SendOutcome(env.gateway(send)), [send])
  }

  /** The SMS gateway call: the assembled template data and the new status. */
  function ClientSmsCall(client: Contractor, reseller: Contractor, templateData: TemplateData, newStatus: int)
    : (c: Call)
    ensures c.SendSmsMessageToClient? && c.event == CHANGE_RETURN_STATUS
    ensures c.sellerId == reseller.id && c.clientId == client.id && c.newStatus == newStatus
    ensures c.templateData == templateData
  {
    SendSmsMessageToClient(reseller.id, client.id, CHANGE_RETURN_STATUS, newStatus, templateData)
  }

  /** sendComplaintClientSms: like the client email, the new status comes
      from differences.to, a missing one throws before anything is sent, and
      it never answers false. */
  function SendComplaintClientSms(env: Env, client: Contractor, reseller: Contractor,
                                  templateData: TemplateData, differences: map<string, Value>)
    : (a: Attempt)
    ensures a.result != Success(false)
    ensures !HasValue("to", differences) ==> a == Attempt(Failure(ValueOrFail("to", differences).error), [])
    ensures HasValue("to", differences) ==>
      var send := ClientSmsCall(client, reseller, templateData, IntegerValueOrFail("to", differences).value);
      a == Attempt(SendOutcome(env.gateway(send)), [send])
  {
    match IntegerValueOrFail("to", differences)
    case Failure(e) => Attempt(Failure(e), [])
    case Success(newStatus) =>
      var send := ClientSmsCall(client, reseller, templateData, newStatus);
      Attempt(SendOutcome(env.gateway(send)), [send])
  }

  // ------------------------------------------------------ the workflow

  /** An attempt that was never made, because the guard in front of it was false. */
  const SKIPPED: Attempt := Attempt(Success(false), [])

  /** `$needSendClientNotification && $client->needNotificationByEmail() &&
      $this->sendComplaintClientEmail(...)`: the send is attempted only on a
      CHANGE to a client with an email address. */
  function ClientEmailAttempt(env: Env, notificationType: int, client: Contractor, reseller: Contractor,
                              emailFrom: string, templateData: TemplateData, differences: map<string, Value>)
    : (a: Attempt)
    ensures notificationType != CHANGE || !NeedNotificationByEmail(client) ==> a == SKIPPED
    ensures notificationType == CHANGE && NeedNotificationByEmail(client) ==>
      a == SendComplaintClientEmail(env, client, reseller, emailFrom, templateData, differences)
  {
    if notificationType == CHANGE && NeedNotificationByEmail(client)
    then SendComplaintClientEmail(env, client, reseller, emailFrom, templateData, differences)
    else SKIPPED
  }

  /** The same short-circuit for the SMS channel and the mobile number. */
  function ClientSmsAttempt(env: Env, notificationType: int, client: Contractor, reseller: Contractor,
                            templateData: TemplateData, differences: map<string, Value>)
    : (a: Attempt)
    ensures notificationType != CHANGE || !NeedNotificationBySms(client) ==> a == SKIPPED
    ensures notificationType == CHANGE && NeedNotificationBySms(client) ==>
      a == SendComplaintClientSms(env, client, reseller, templateData, differences)
  {
    if notificationType == CHANGE && NeedNotificationBySms(client)
    then SendComplaintClientSms(env, client, reseller, templateData, differences)
    else SKIPPED
  }

  /** The steps after template assembly, as a reference definition: the
      sender address is looked up, and when it is not empty the three
      channels are tried in turn. A channel's flag is set exactly when its
      attempt answered true; only the SMS channel's failure leaves a message. */
  function Notify(env: Env, data: Request, notificationType: int, reseller: Contractor, client: Contractor,
                  templateData: TemplateData, differences: map<string, Value>)
    : (run: Run)
    ensures run.response.Returned?
    ensures |run.calls| > 0 && run.calls[0] == GetResellerEmailFrom
  {
    var emailFrom := env.resellerEmailFrom;
    if IsFalsyString(emailFrom) then
      Run(Returned(Serialize(Initial)), [GetResellerEmailFrom])
    else
      var staff := SendComplaintEmployeeEmail(env, reseller, emailFrom, data);
      var email := ClientEmailAttempt(env, notificationType, client, reseller, emailFrom, templateData, differences);
      var sms := ClientSmsAttempt(env, notificationType, client, reseller, templateData, differences);
      var output := Output(
        staff.result == Success(true),
        email.result == Success(true),
        SmsStatus(sms.result == Success(true), if sms.result.Failure? then sms.result.error.message else ""));
      Run(Returned(output), [GetResellerEmailFrom] + staff.calls + email.calls + sms.calls)
  }

  /** The output record when resellerId is missing. */
  const EMPTY_RESELLER_OUTPUT: Output := Serialize(Initial.(errorMessage := "Empty resellerId"))

  /** Entity resolution onwards, once the five ids are validated. */
  function Resolve(env: Env, data: Request, notificationType: int,
                   resellerId: int, clientId: int, creatorId: int, expertId: int)
    : (run: Run)
    ensures |run.calls| > 0 && run.calls[0] == FindSeller(resellerId)
  {
    var differences := DifferencesOf(data);
    match ResellerOrFail(env, resellerId)
    case Failure(e) => Run(Threw(e), [FindSeller(resellerId)])
    case Success(reseller) =>
      match ClientOrFail(env, clientId)
      case Failure(e) => Run(Threw(e), [FindSeller(resellerId), FindClient(clientId)])
      case Success(client) =>
        var assembly := AssembleTemplateData(env, data, notificationType, reseller, client, creatorId, expertId, differences);
        var resolved := [FindSeller(resellerId), FindClient(clientId)] + assembly.calls;
        match assembly.result
        case Failure(e) => Run(Threw(e), resolved)
        case Success(templateData) =>
          var rest := Notify(env, data, notificationType, reseller, client, templateData, differences.entries);
          Run(rest.response, resolved + rest.calls)
  }

  /** The whole workflow, as a reference definition: notificationType is
      validated first and its failure escapes; a missing resellerId ends the
      run with "Empty resellerId" and no call made; clientId, creatorId and
      expertId are validated before any lookup. */
  function Expected(env: Env, data: Request): (run: Run)
    ensures !HasValue("notificationType", data) ==> run.response.Threw? && run.calls == []
    ensures run.response.Returned? ==>
      HasValue("notificationType", data) &&
      (!HasValue("resellerId", data) ||
       (HasValue("clientId", data) && HasValue("creatorId", data) && HasValue("expertId", data)))
    ensures run.calls != [] ==>
      IntegerValueOrFail("resellerId", data).Success? &&
      run.calls[0] == FindSeller(IntegerValueOrFail("resellerId", data).value)
  {
    match IntegerValueOrFail("notificationType", data)
    case Failure(e) => Run(Threw(e), [])
    case Success(notificationType) =>
      match IntegerValueOrFail("resellerId", data)
      case Failure(e) =>
        if e.kind == InvalidArgument then Run(Returned(EMPTY_RESELLER_OUTPUT), []) else Run(Threw(e), [])
      case Success(resellerId) =>
        match IntegerValueOrFail("clientId", data)
        case Failure(e) => Run(Threw(e), [])
        case Success(clientId) =>
          match IntegerValueOrFail("creatorId", data)
          case Failure(e) => Run(Threw(e), [])
          case Success(creatorId) =>
            match IntegerValueOrFail("expertId", data)
            case Failure(e) => Run(Threw(e), [])
            case Success(expertId) => Resolve(env, data, notificationType, resellerId, clientId, creatorId, expertId)
  }

  /** doOperation: one NotificationResult is created before resellerId is
      read; a missing resellerId ends the run through its error setter, and
      every other failure before entity resolution escapes. The run is the one
      the reference definition describes. */
  method DoOperation(env: Env, data: Request) returns (run: Run)
    ensures run == Expected(env, data)
  {
    var notificationTypeOrError := IntegerValueOrFail("notificationType", data);
    if notificationTypeOrError.Failure? {
      return Run(Threw(notificationTypeOrError.error), []);
    }
    var notificationType := notificationTypeOrError.value;

    var result := new NotificationResult();

    var resellerIdOrError := IntegerValueOrFail("resellerId", data);
    if resellerIdOrError.Failure? {
      if resellerIdOrError.error.kind == InvalidArgument {
        var _ := result.SetErrorMessage("Empty resellerId");
        return Run(Returned(result.ToArray()), []);
      }
      return Run(Threw(resellerIdOrError.error), []);
    }
    var resellerId := resellerIdOrError.value;

    var clientIdOrError := IntegerValueOrFail("clientId", data);
    if clientIdOrError.Failure? {
      return Run(Threw(clientIdOrError.error), []);
    }
    var creatorIdOrError := IntegerValueOrFail("creatorId", data);
    if creatorIdOrError.Failure? {
      return Run(Threw(creatorIdOrError.error), []);
    }
    var expertIdOrError := IntegerValueOrFail("expertId", data);
    if expertIdOrError.Failure? {
      return Run(Threw(expertIdOrError.error), []);
    }
    run := ResolveAndNotify(env, data, notificationType, resellerIdOrError.value, clientIdOrError.value,
                            creatorIdOrError.value, expertIdOrError.value, result);
  }

  /** The part of doOperation after validation: the reseller and the client
      are looked up, the template data assembled, and the notification steps
      run on the still untouched result object. */
  method ResolveAndNotify(env: Env, data: Request, notificationType: int,
                          resellerId: int, clientId: int, creatorId: int, expertId: int,
                          result: NotificationResult)
    returns (run: Run)
    requires result.State() == Initial
    modifies result
    ensures run == Resolve(env, data, notificationType, resellerId, clientId, creatorId, expertId)
    ensures run.response.Returned? ==> run.response.output == Serialize(result.State())
  {
    var differences := DifferencesOf(data);
    var calls := [FindSeller(resellerId)];
    var resellerOrError := ResellerOrFail(env, resellerId);
    if resellerOrError.Failure? {
      return Run(Threw(resellerOrError.error), calls);
    }
    var reseller := resellerOrError.value;
    calls := [FindSeller(resellerId), FindClient(clientId)];
    var clientOrError := ClientOrFail(env, clientId);
    if clientOrError.Failure? {
      return Run(Threw(clientOrError.error), calls);
    }
    var client := clientOrError.value;

    var assembly := AssembleTemplateData(env, data, notificationType, reseller, client, creatorId, expertId, differences);
    calls := calls + assembly.calls;
    if assembly.result.Failure? {
      return Run(Threw(assembly.result.error), calls);
    }

    var rest := SendNotifications(env, data, notificationType, reseller, client, assembly.result.value,
                                  differences.entries, result);
    return Run(rest.response, calls + rest.calls);
  }

  /** The notification steps of doOperation: the sender address is looked
      up, and unless it is empty the three channels are tried in turn, each
      in its own try block. */
  method SendNotifications(env: Env, data: Request, notificationType: int, reseller: Contractor,
                           client: Contractor, templateData: TemplateData, differences: map<string, Value>,
                           result: NotificationResult)
    returns (run: Run)
    requires result.State() == Initial
    modifies result
    ensures run == Notify(env, data, notificationType, reseller, client, templateData, differences)
    ensures run.response.Returned? ==> run.response.output == Serialize(result.State())
  {
    var emailFrom := env.resellerEmailFrom;
    if IsFalsyString(emailFrom) {
      return Run(Returned(result.ToArray()), [GetResellerEmailFrom]);
    }
    var staff := TryStaffEmail(env, reseller, emailFrom, data, result);
    var email := TryClientEmail(env, notificationType, client, reseller, emailFrom, templateData, differences, result);
    var sms := TryClientSms(env, notificationType, client, reseller, templateData, differences, result);
    var output := result.ToArray();
    assert output == Serialize(result.State());
    return Run(Returned(output), [GetResellerEmailFrom] + staff.calls + email.calls + sms.calls);
  }

  /** The staff email's try block: the answer is stored unless the send threw,
      in which case the flag keeps its value. */
  method TryStaffEmail(env: Env, reseller: Contractor, emailFrom: string, data: Request, result: NotificationResult)
    returns (staff: Attempt)
    modifies result
    ensures staff == SendComplaintEmployeeEmail(env, reseller, emailFrom, data)
    ensures result.State() == old(result.State()).(employeeNotifiedViaEmail :=
      if staff.result.Success? then staff.result.value else old(result.employeeNotifiedViaEmail))
  {
    staff := SendComplaintEmployeeEmail(env, reseller, emailFrom, data);
    if staff.result.Success? {
      var _ := result.SetEmployeeNotifiedViaEmail(staff.result.value);
    }
  }

  /** The client email's try block: the short-circuit's value is stored
      unless the send threw. */
  method TryClientEmail(env: Env, notificationType: int, client: Contractor, reseller: Contractor, emailFrom: string,
                        templateData: TemplateData, differences: map<string, Value>, result: NotificationResult)
    returns (email: Attempt)
    modifies result
    ensures email == ClientEmailAttempt(env, notificationType, client, reseller, emailFrom, templateData, differences)
    ensures result.State() == old(result.State()).(clientNotifiedViaEmail :=
      if email.result.Success? then email.result.value else old(result.clientNotifiedViaEmail))
  {
    email := ClientEmailAttempt(env, notificationType, client, reseller, emailFrom, templateData, differences);
    if email.result.Success? {
      var _ := result.SetClientNotifiedViaEmail(email.result.value);
    }
  }

  /** The SMS try block: the short-circuit's value is stored, or, when the
      send threw, the exception's message. */
  method TryClientSms(env: Env, notificationType: int, client: Contractor, reseller: Contractor,
                      templateData: TemplateData, differences: map<string, Value>, result: NotificationResult)
    returns (sms: Attempt)
    modifies result
    ensures sms == ClientSmsAttempt(env, notificationType, client, reseller, templateData, differences)
    ensures sms.result.Success? ==> result.State() == old(result.State()).(clientNotifiedViaSms := sms.result.value)
    ensures sms.result.Failure? ==> result.State() == old(result.State()).(errorMessage := sms.result.error.message)
  {
    sms := ClientSmsAttempt(env, notificationType, client, reseller, templateData, differences);
    if sms.result.Success? {
      var _ := result.SetClientNotifiedViaSms(sms.result.value);
    } else {
      var _ := result.SetErrorMessage(sms.result.error.message);
    }
  }
}

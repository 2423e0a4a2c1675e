/** What the notification workflow promises, stated over its reference
    definitions. DoOperation is proved to produce exactly the run Expected
    describes, so every lemma here is a statement about doOperation. */
module ReturnOperationProperties {
  import opened Wrappers
  import opened PhpRuntime
  import opened Others
  import opened NotificationResults
  import opened ReturnOperation

  // ------------------------------------------------------ validation

  /** The five id fields validated, to the given values. */
  predicate ValidIds(data: Request, notificationType: int, resellerId: int, clientId: int,
                     creatorId: int, expertId: int) {
    && IntegerValueOrFail("notificationType", data) == Success(notificationType)
    && IntegerValueOrFail("resellerId", data) == Success(resellerId)
    && IntegerValueOrFail("clientId", data) == Success(clientId)
    && IntegerValueOrFail("creatorId", data) == Success(creatorId)
    && IntegerValueOrFail("expertId", data) == Success(expertId)
  }

  /** notificationType is read first, before the result object is used: its
      failure escapes and no collaborator is called. */
  lemma NotificationTypeCheckedFirst(env: Env, data: Request)
    requires !HasValue("notificationType", data)
    ensures Expected(env, data) == Run(Threw(ValueOrFail("notificationType", data).error), [])
  {
  }

  /** A missing or blank resellerId is caught: the record comes back with all
      three flags false and the message "Empty resellerId", and no lookup is
      made. */
  lemma MissingResellerId(env: Env, data: Request)
    requires HasValue("notificationType", data) && IsMissing("resellerId", data)
    ensures Expected(env, data) == Run(Returned(Output(false, false, SmsStatus(false, "Empty resellerId"))), [])
  {
  }

  /** Only the InvalidArgumentException of a missing resellerId is caught: an
      array in its place fails inside trim() and that error escapes. */
  lemma ResellerIdArrayEscapes(env: Env, data: Request)
    requires HasValue("notificationType", data) && "resellerId" in data && data["resellerId"].Arr?
    ensures Expected(env, data) == Run(Threw(TRIM_TYPE_ERROR), [])
  {
  }

  /** The first of clientId, creatorId and expertId that does not hold a
      value, in the order the source reads them. */
  function FirstBadId(data: Request): string {
    if !HasValue("clientId", data) then "clientId"
    else if !HasValue("creatorId", data) then "creatorId"
    else "expertId"
  }

  /** Only resellerId has the soft return: once notificationType and
      resellerId are valid, a missing, blank or array clientId, creatorId or
      expertId escapes as that field's exception, with no call made. */
  lemma LaterIdFailureEscapes(env: Env, data: Request)
    requires HasValue("notificationType", data) && HasValue("resellerId", data)
    requires !(HasValue("clientId", data) && HasValue("creatorId", data) && HasValue("expertId", data))
    ensures Expected(env, data) == Run(Threw(ValueOrFail(FirstBadId(data), data).error), [])
  {
  }

  /** No collaborator is called until all five ids have validated, and the
      first call is then the reseller lookup. */
  lemma NoLookupBeforeValidation(env: Env, data: Request)
    ensures Expected(env, data).calls != [] ==>
      && HasValue("notificationType", data) && HasValue("resellerId", data) && HasValue("clientId", data)
      && HasValue("creatorId", data) && HasValue("expertId", data)
      && Expected(env, data).calls[0] == FindSeller(IntegerValueOrFail("resellerId", data).value)
  {
  }

  /** Once the ids are valid, the run is entity resolution onwards. */
  lemma ExpectedAfterValidation(env: Env, data: Request, notificationType: int, resellerId: int, clientId: int,
                                creatorId: int, expertId: int)
    requires ValidIds(data, notificationType, resellerId, clientId, creatorId, expertId)
    ensures Expected(env, data) == Resolve(env, data, notificationType, resellerId, clientId, creatorId, expertId)
  {
  }

  // ------------------------------------------------------ entity resolution

  /** An unknown reseller ends the run with "Seller not found!" after the one
      lookup. */
  lemma UnknownSeller(env: Env, data: Request, notificationType: int, resellerId: int, clientId: int,
                      creatorId: int, expertId: int)
    requires ValidIds(data, notificationType, resellerId, clientId, creatorId, expertId)
    requires env.sellerById(resellerId).None?
    ensures Expected(env, data) == Run(Threw(SELLER_NOT_FOUND), [FindSeller(resellerId)])
  {
    ExpectedAfterValidation(env, data, notificationType, resellerId, clientId, creatorId, expertId);
  }

  /** The client is rejected with "Client not found!" exactly when the store
      has no such contractor, it is not a customer, or its seller's id is not
      the client id; the run then stops after the two lookups. */
  lemma ClientRejected(env: Env, data: Request, notificationType: int, resellerId: int, clientId: int,
                       creatorId: int, expertId: int)
    requires ValidIds(data, notificationType, resellerId, clientId, creatorId, expertId)
    requires env.sellerById(resellerId).Some?
    requires
      || env.contractorById(clientId).None?
      || env.contractorById(clientId).value.contractorType != TYPE_CUSTOMER
      || env.contractorById(clientId).value.sellerId != Some(clientId)
    ensures Expected(env, data) == Run(Threw(CLIENT_NOT_FOUND), [FindSeller(resellerId), FindClient(clientId)])
  {
    ExpectedAfterValidation(env, data, notificationType, resellerId, clientId, creatorId, expertId);
  }

  // ------------------------------------------------------ template data

  /** Whatever goes wrong while the template data is assembled (an unknown
      creator or expert, a missing request field, a bad differences entry),
      the run ends with "Template Data is wrong!" and code 500 once the
      employee lookups are made, before the sender address is looked up. */
  lemma TemplateFailureWrapped(env: Env, data: Request, notificationType: int, resellerId: int, clientId: int,
                               creatorId: int, expertId: int)
    requires ValidIds(data, notificationType, resellerId, clientId, creatorId, expertId)
    requires env.sellerById(resellerId).Some?
    requires env.contractorById(clientId).Some? && IsAcceptedClient(env.contractorById(clientId).value, clientId)
    requires
      || env.employeeById(creatorId).None?
      || env.employeeById(expertId).None?
      || !HasOtherFields(data)
      || DifferencesTemplateData(env, notificationType, env.sellerById(resellerId).value, DifferencesOf(data)).Failure?
    ensures Expected(env, data).response == Threw(TEMPLATE_DATA_WRONG)
    ensures Expected(env, data).calls == [FindSeller(resellerId), FindClient(clientId)] +
      if env.employeeById(creatorId).Some? then [FindEmployee(creatorId), FindEmployee(expertId)] else [FindEmployee(creatorId)]
  {
    ExpectedAfterValidation(env, data, notificationType, resellerId, clientId, creatorId, expertId);
  }

  /** On a CHANGE whose differences name two known status codes, the
      DIFFERENCES entry is the status-change text rendered with the two
      status names. */
  lemma StatusChangeText(env: Env, reseller: Contractor, differences: map<string, Value>, from: int, to: int)
    requires |differences| > 0
    requires IntegerValueOrFail("from", differences) == Success(from) && 0 <= from <= 2
    requires IntegerValueOrFail("to", differences) == Success(to) && 0 <= to <= 2
    ensures DifferencesTemplateData(env, CHANGE, reseller, Arr(differences))
      == Success(map[DIFFERENCES := StrValue(env.translate("PositionStatusHasChanged",
           TemplateVars(map[FROM := StrValue(StatusName(from)), TO := StrValue(StatusName(to))]), reseller.id))])
  {
  }

  /** A status change from "1" to "2" is described as Pending to Rejected. */
  lemma StatusChangeDescribed(env: Env, reseller: Contractor)
    ensures DifferencesTemplateData(env, CHANGE, reseller, Arr(map["from" := Str("1"), "to" := Str("2")]))
      == Success(map[DIFFERENCES := StrValue(env.translate("PositionStatusHasChanged",
           TemplateVars(map[FROM := StrValue("Pending"), TO := StrValue("Rejected")]), reseller.id))])
  {
    var differences := map["from" := Str("1"), "to" := Str("2")];
    assert IntToString(1) == "1" && IntToString(2) == "2";
    IntegerFieldRoundTrip("from", differences, 1);
    IntegerFieldRoundTrip("to", differences, 2);
    assert "from" in differences;
    StatusChangeText(env, reseller, differences, 1, 2);
  }

  // ------------------------------------------------------ the whole run

  /** Past validation, what escapes is one of the three resolution errors,
      and only before the sender address is looked up. */
  lemma ResolveThrows(env: Env, data: Request, notificationType: int, resellerId: int, clientId: int,
                      creatorId: int, expertId: int)
    ensures
      var run := Resolve(env, data, notificationType, resellerId, clientId, creatorId, expertId);
      run.response.Threw? ==>
        run.response.error == SELLER_NOT_FOUND || run.response.error == CLIENT_NOT_FOUND ||
        run.response.error == TEMPLATE_DATA_WRONG
  {
  }

  /** What escapes doOperation is a field-validation error (an empty field or
      an array where a string belongs), "Seller not found!", "Client not
      found!" or "Template Data is wrong!". */
  lemma ThrownErrors(env: Env, data: Request)
    ensures Expected(env, data).response.Threw? ==>
      var e := Expected(env, data).response.error;
      e.kind == InvalidArgument || e.kind == TypeError || e == SELLER_NOT_FOUND || e == CLIENT_NOT_FOUND || e == TEMPLATE_DATA_WRONG
  {
    if && HasValue("notificationType", data) && HasValue("resellerId", data) && HasValue("clientId", data)
       && HasValue("creatorId", data) && HasValue("expertId", data)
    {
      var notificationType := IntegerValueOrFail("notificationType", data).value;
      var resellerId := IntegerValueOrFail("resellerId", data).value;
      var clientId := IntegerValueOrFail("clientId", data).value;
      var creatorId := IntegerValueOrFail("creatorId", data).value;
      var expertId := IntegerValueOrFail("expertId", data).value;
      ExpectedAfterValidation(env, data, notificationType, resellerId, clientId, creatorId, expertId);
      ResolveThrows(env, data, notificationType, resellerId, clientId, creatorId, expertId);
    }
  }

  /** When every lookup and the assembly succeed, the run is the four lookups
      followed by the notification steps. */
  lemma ResolvedRun(env: Env, data: Request, notificationType: int, resellerId: int, clientId: int,
                    creatorId: int, expertId: int)
    requires ValidIds(data, notificationType, resellerId, clientId, creatorId, expertId)
    requires env.sellerById(resellerId).Some?
    requires env.contractorById(clientId).Some? && IsAcceptedClient(env.contractorById(clientId).value, clientId)
    requires
      AssembleTemplateData(env, data, notificationType, env.sellerById(resellerId).value,
                           env.contractorById(clientId).value, creatorId, expertId, DifferencesOf(data)).result.Success?
    ensures
      var reseller, client := env.sellerById(resellerId).value, env.contractorById(clientId).value;
      var templateData := AssembleTemplateData(env, data, notificationType, reseller, client, creatorId, expertId,
                                               DifferencesOf(data)).result.value;
      var rest := Notify(env, data, notificationType, reseller, client, templateData, DifferencesOf(data).entries);
      Expected(env, data) == Run(rest.response,
        [FindSeller(resellerId), FindClient(clientId)] + [FindEmployee(creatorId), FindEmployee(expertId)] + rest.calls)
  {
    ExpectedAfterValidation(env, data, notificationType, resellerId, clientId, creatorId, expertId);
    var reseller := env.sellerById(resellerId).value;
    AssembledTemplateKeys(env, data, notificationType, reseller, env.contractorById(clientId).value,
                          creatorId, expertId, DifferencesOf(data));
  }

  // ------------------------------------------------------ notification steps

  /** An empty (falsy) sender address returns the untouched record and
      nothing is dispatched. */
  lemma EmptySenderSkipsDispatch(env: Env, data: Request, notificationType: int, reseller: Contractor,
                                 client: Contractor, templateData: TemplateData, differences: map<string, Value>)
    requires IsFalsyString(env.resellerEmailFrom)
    ensures Notify(env, data, notificationType, reseller, client, templateData, differences)
      == Run(Returned(Output(false, false, SmsStatus(false, ""))), [GetResellerEmailFrom])
  {
  }

  /** The staff flag is set exactly when there is a sender, there are
      recipients, and the gateway accepted the staff email. */
  lemma StaffEmailFlag(env: Env, data: Request, notificationType: int, reseller: Contractor,
                       client: Contractor, templateData: TemplateData, differences: map<string, Value>)
    ensures
      var output := Notify(env, data, notificationType, reseller, client, templateData, differences).response.output;
      output.notificationEmployeeByEmail <==>
        && !IsFalsyString(env.resellerEmailFrom)
        && Recipients(env, reseller) != []
        && env.gateway(StaffEmailCall(env, reseller, env.resellerEmailFrom, data)).Delivered?
  {
  }

  /** The client email flag is set exactly when there is a sender, the
      notification is a CHANGE, the client has an email address,
      differences.to holds a value, and the gateway accepted the email. */
  lemma ClientEmailFlag(env: Env, data: Request, notificationType: int, reseller: Contractor,
                        client: Contractor, templateData: TemplateData, differences: map<string, Value>)
    ensures
      var output := Notify(env, data, notificationType, reseller, client, templateData, differences).response.output;
      output.notificationClientByEmail <==>
        && !IsFalsyString(env.resellerEmailFrom)
        && notificationType == CHANGE
        && NeedNotificationByEmail(client)
        && HasValue("to", differences)
        && env.gateway(ClientEmailCall(env, client, reseller, env.resellerEmailFrom, templateData,
                                       IntegerValueOrFail("to", differences).value)).Delivered?
  {
  }

  /** The same for the SMS flag and the client's mobile number. */
  lemma ClientSmsFlag(env: Env, data: Request, notificationType: int, reseller: Contractor,
                      client: Contractor, templateData: TemplateData, differences: map<string, Value>)
    ensures
      var output := Notify(env, data, notificationType, reseller, client, templateData, differences).response.output;
      output.notificationClientBySms.isSent <==>
        && !IsFalsyString(env.resellerEmailFrom)
        && notificationType == CHANGE
        && NeedNotificationBySms(client)
        && HasValue("to", differences)
        && env.gateway(ClientSmsCall(client, reseller, templateData, IntegerValueOrFail("to", differences).value)).Delivered?
  {
  }

  /** Only a failed SMS leaves a message, and the message is that failure's:
      the missing differences.to, or the gateway's exception. Failures of the
      two emails are swallowed without a trace. */
  lemma SmsFailureMessage(env: Env, data: Request, notificationType: int, reseller: Contractor,
                          client: Contractor, templateData: TemplateData, differences: map<string, Value>)
    ensures
      var output := Notify(env, data, notificationType, reseller, client, templateData, differences).response.output;
      output.notificationClientBySms.message ==
      if IsFalsyString(env.resellerEmailFrom) || notificationType != CHANGE || !NeedNotificationBySms(client) then ""
      else if !HasValue("to", differences) then ValueOrFail("to", differences).error.message
      else
        match env.gateway(ClientSmsCall(client, reseller, templateData, IntegerValueOrFail("to", differences).value))
        case Delivered => ""
        case Refused(e) => e.message
  {
  }

  /** Anything but a CHANGE never reaches the client: both client flags stay
      false, no message is left, and no client send is made. */
  lemma ClientNotifiedOnlyOnChange(env: Env, data: Request, notificationType: int, reseller: Contractor,
                                   client: Contractor, templateData: TemplateData, differences: map<string, Value>)
    requires notificationType != CHANGE
    ensures
      var run := Notify(env, data, notificationType, reseller, client, templateData, differences);
      && !run.response.output.notificationClientByEmail
      && run.response.output.notificationClientBySms == SmsStatus(false, "")
      && forall c :: c in run.calls ==> !c.SendEmailMessageToClient? && !c.SendSmsMessageToClient?
  {
  }

  /** The channels are independent: a staff email the gateway refuses does
      not keep the client's email and SMS from going out, and all three sends
      are made, in order. */
  lemma ChannelsIsolated(env: Env, data: Request, reseller: Contractor, client: Contractor,
                         templateData: TemplateData, differences: map<string, Value>)
    requires !IsFalsyString(env.resellerEmailFrom)
    requires Recipients(env, reseller) != []
    requires NeedNotificationByEmail(client) && NeedNotificationBySms(client) && HasValue("to", differences)
    requires env.gateway(StaffEmailCall(env, reseller, env.resellerEmailFrom, data)).Refused?
    requires
      var newStatus := IntegerValueOrFail("to", differences).value;
      && env.gateway(ClientEmailCall(env, client, reseller, env.resellerEmailFrom, templateData, newStatus)).Delivered?
      && env.gateway(ClientSmsCall(client, reseller, templateData, newStatus)).Delivered?
    ensures
      Notify(env, data, CHANGE, reseller, client, templateData, differences).response ==
        Returned(Output(false, true, SmsStatus(true, "")))
    ensures
      var newStatus := IntegerValueOrFail("to", differences).value;
      Notify(env, data, CHANGE, reseller, client, templateData, differences).calls ==
        [GetResellerEmailFrom]
        + [GetEmailsByPermit(reseller.id, EMPLOYEE_PERMIT), StaffEmailCall(env, reseller, env.resellerEmailFrom, data)]
        + [ClientEmailCall(env, client, reseller, env.resellerEmailFrom, templateData, newStatus)]
        + [ClientSmsCall(client, reseller, templateData, newStatus)]
  {
  }
}

# Return-status notification workflow, modelled in Dafny

This project models `ReturnOperation::doOperation`, the workflow that runs when
the status of a goods return changes. It works in six steps:

1. **Validate.** It checks the request fields.
2. **Resolve entities.** It loads the reseller, the client and the two employees (creator and expert).
3. **Assemble template data.** It builds the template variables.
4. **Notify staff.** It sends the staff email to everyone holding the `tsGoodsReturn` permission.
5. **Notify the client.** On a status CHANGE only, it emails and texts the client.
6. **Report.** It returns a record of which notifications went out.

The model also covers two supporting parts:
- the `NotificationResult` accumulator the workflow fills in;
- from `others.php`, the status-name table, the contractor's full name and the two "needs notification" checks.

## Modules

| module | what it holds |
|---|---|
| `Wrappers` | `Option` and `Result`. |
| `PhpRuntime` | The PHP behaviour the source relies on: `trim()`, the `(int)` cast of a string (leading white space, sign, digits, saturation to 64 bits), the decimal rendering of an int, and the falsy strings `''` and `'0'`. |
| `Others` | The `Contractor` record, `getFullName`, `needNotificationByEmail`/`BySms`, `Status::getName`, `TYPE_CUSTOMER` and the `CHANGE_RETURN_STATUS` event name. |
| `NotificationResults` | The `NotificationResult` class: four fields, four setters that modify them in place and return the object, and `toArray`. Also a value-level description (`Fields`, `Update`, `Apply`, `ApplyAll`) used to state what sequences of setter calls do. |
| `ReturnOperation` | The helpers of `ReturnOperation.php` (details below). |
| `ReturnOperationProperties` | The properties of the whole run, as lemmas over `Expected`, `Resolve` and `Notify`. |

`ReturnOperation` contains:
- the validators, resolvers, template-data builders and send helpers, as functions;
- the reference definitions `Expected`, `Resolve` and `Notify`;
- the imperative `DoOperation`.

`DoOperation` creates one `NotificationResult` and updates it through its setters, with the source's two early returns. Its postcondition is `run == Expected(env, data)`, so every lemma about `Expected` holds for it.

## Collaborators and the trace

The workflow calls code it cannot see. Each collaborator is a field of an `Env`:
- the three entity stores;
- `getResellerEmailFrom`;
- `getEmailsByPermit`;
- the `__` renderer;
- the notification gateway.

The gateway answers each send call with `Delivered` or `Refused(exception)`.

Every call the workflow makes to a collaborator, except the renderer, is recorded in order in the run's `calls`. That lets the contracts say "no lookup happens" and "nothing is dispatched".

## Model

| member | source | states |
|---|---|---|
| PhpRuntime.Trim | php/v2/ReturnOperation.php:104 | trim's result has no trim character at either end, and is empty exactly when every character of the input is one |
| PhpRuntime.TrimIdempotent | php/v2/ReturnOperation.php:104 | trimming twice gives the same string as trimming once |
| PhpRuntime.TrimOfTrimmed | php/v2/ReturnOperation.php:104 | a string with no trim character at either end is left as it is by trim() |
| PhpRuntime.Saturate | php/v2/ReturnOperation.php:113 | an integer string beyond the 64-bit range casts to the nearest bound; in-range values are unchanged |
| PhpRuntime.IntCast | php/v2/ReturnOperation.php:113 | the (int) cast always yields a 64-bit PHP int |
| PhpRuntime.IntToString | php/v2/others.php:24 | an int rendered in a string starts with a digit or a minus sign, never with white space; the first character is a digit exactly when the int is not negative |
| PhpRuntime.IntCastRoundTrip | php/v2/ReturnOperation.php:113 | the (int) cast reads back every 64-bit int from its decimal rendering |
| PhpRuntime.DigitPrefixOfConcat | php/v2/ReturnOperation.php:113 | the cast reads digits up to the first non-digit: that run is the whole digit prefix |
| PhpRuntime.NonNumericCastsToZero | php/v2/ReturnOperation.php:113 | a string with no digit where the number would start (after white space and an optional sign) casts to 0, e.g. "" or "abc" |
| PhpRuntime.LeadingDigitsCast | php/v2/ReturnOperation.php:113 | digits followed by text that does not start with a digit cast to the digits' value, e.g. "12abc" casts to 12 |
| PhpRuntime.CastSkipsSpace | php/v2/ReturnOperation.php:113 | leading white space does not change the cast, e.g. " 12" casts as "12" |
| Others.FullName | php/v2/others.php:22-25 | the full name is the name, one space, then text that casts back to the id; it is never '' or '0', so the `?:` fallback in getClientTemplateData is dead |
| Others.NeedNotificationByEmail | php/v2/others.php:27-30 | true exactly when the email holds a character trim() keeps |
| Others.NeedNotificationBySms | php/v2/others.php:32-35 | true exactly when the mobile number holds a character trim() keeps |
| Others.StatusName | php/v2/others.php:46-58 | codes 0, 1 and 2 name Completed, Pending and Rejected; every other code gives '' |
| Others.StatusNameInjective | php/v2/others.php:46-58 | a non-empty status name identifies its code |
| NotificationResults.ApplyAllSnoc | php/v2/NotificationResult.php:12-38 | applying one more setter call after a sequence equals applying it to the sequence's result |
| NotificationResults.LastSetWins | php/v2/NotificationResult.php:12-38 | after any sequence of setter calls, each field holds the value of its last setter, or its earlier value if none was called |
| NotificationResults.Serialize | php/v2/NotificationResult.php:40-51 | toArray puts each field in its own place: employee flag, client email flag, and {isSent, message} from the SMS flag and the error message |
| NotificationResults.SerializeInjective | php/v2/NotificationResult.php:40-51 | toArray loses nothing: equal records come from equal fields |
| NotificationResults.NotificationResult.constructor | php/v2/NotificationResult.php:7-10 | a new accumulator has all three flags false and an empty message |
| NotificationResults.NotificationResult.SetEmployeeNotifiedViaEmail | php/v2/NotificationResult.php:12-17 | sets the employee flag, leaves the other three fields unchanged, returns the object itself |
| NotificationResults.NotificationResult.SetClientNotifiedViaEmail | php/v2/NotificationResult.php:19-24 | sets the client email flag, leaves the other three fields unchanged, returns the object itself |
| NotificationResults.NotificationResult.SetClientNotifiedViaSms | php/v2/NotificationResult.php:26-31 | sets the SMS flag, leaves the other three fields unchanged, returns the object itself |
| NotificationResults.NotificationResult.SetErrorMessage | php/v2/NotificationResult.php:33-38 | sets the message, leaves the three flags unchanged, returns the object itself |
| NotificationResults.NotificationResult.ToArray | php/v2/NotificationResult.php:40-51 | a read-only view that changes nothing; the employee flag, the client email flag and {isSent, message} land under their own wire names |
| ReturnOperation.ValueOrFail | php/v2/ReturnOperation.php:101-109 | fails with "Empty {field}" and code 400 exactly when the field is absent, null or blank; an array fails in trim(); any other value comes back unchanged |
| ReturnOperation.IntegerValueOrFail | php/v2/ReturnOperation.php:111-114 | succeeds exactly when the string check does, with the same error otherwise; the result is the (int) cast of the field's string, so a 64-bit int |
| ReturnOperation.IntegerFieldRoundTrip | php/v2/ReturnOperation.php:111-114 | a field holding an int's decimal rendering reads back as that int |
| ReturnOperation.ResellerOrFail | php/v2/ReturnOperation.php:116-124 | succeeds with the stored seller exactly when there is one, otherwise "Seller not found!" |
| ReturnOperation.ClientOrFail | php/v2/ReturnOperation.php:126-138 | accepts exactly a stored customer whose seller's id equals the client id; otherwise "Client not found!" |
| ReturnOperation.EmployeeOrFail | php/v2/ReturnOperation.php:140-148 | succeeds with the stored employee exactly when there is one, otherwise "{type} not found!" |
| ReturnOperation.CreatorTemplateData | php/v2/ReturnOperation.php:150-156 | exactly the keys CREATOR_ID and CREATOR_NAME, holding the creator's id and full name |
| ReturnOperation.ExpertTemplateData | php/v2/ReturnOperation.php:158-164 | exactly the keys EXPERT_ID and EXPERT_NAME, holding the expert's id and full name |
| ReturnOperation.ClientTemplateData | php/v2/ReturnOperation.php:166-172 | exactly CLIENT_ID and CLIENT_NAME, and CLIENT_NAME is always the full name |
| ReturnOperation.OtherTemplateData | php/v2/ReturnOperation.php:174-184 | succeeds exactly when all six request fields hold a value, with exactly the six "other" keys; each holds its request field, and the two ids their (int) cast |
| ReturnOperation.DifferencesOf | php/v2/ReturnOperation.php:46 | `$data['differences'] ?? []`: an absent or null entry becomes the empty array, anything else is kept as it is; the result is never null |
| ReturnOperation.DifferencesTemplateData | php/v2/ReturnOperation.php:186-214 | a non-array fails; NEW gives the "NewPositionAdded" text without reading from/to; DIFFERENCES is present exactly for NEW or a CHANGE with non-empty differences; every other case gives no key |
| ReturnOperation.DifferencesNeedKnownStatuses | php/v2/ReturnOperation.php:194-203 | on a CHANGE with non-empty differences, success needs both from and to to name known statuses; an unknown from or to gives "Invalid value differences.from/to" |
| ReturnOperation.PeopleTemplateData | php/v2/ReturnOperation.php:53-55 | the creator, expert and client parts share no key: the six people keys hold the creator's, the expert's and the client's ids and full names |
| ReturnOperation.MergeTemplateData | php/v2/ReturnOperation.php:53-59 | array_merge keeps every key of every part; on a shared key the later part wins; a people key that no later part has keeps the people part's value |
| ReturnOperation.MergeKeepsLaterParts | php/v2/ReturnOperation.php:53-59 | the "other" and differences parts share no key, so each keeps all its values in the merge |
| ReturnOperation.AssembleTemplateData | php/v2/ReturnOperation.php:52-63 | every failure surfaces as "Template Data is wrong!"; the employee lookups made are traced; success exactly when both employees exist and the other and differences parts succeed |
| ReturnOperation.AssembledTemplateKeys | php/v2/ReturnOperation.php:52-63 | assembled data has the six people keys, the six other keys, and DIFFERENCES exactly when one is due; differences was an array |
| ReturnOperation.AssembledPeopleValues | php/v2/ReturnOperation.php:52-59 | in assembled data each people key holds the value of the parts built from the stored creator, the stored expert and the client |
| ReturnOperation.AssembledLaterValues | php/v2/ReturnOperation.php:52-59 | in assembled data each "other" key holds getOtherTemplateData's value and DIFFERENCES the differences part's entry |
| ReturnOperation.AssembledTemplateValues | php/v2/ReturnOperation.php:52-59 | assembled data holds the ids and full names of the stored creator and expert and of the client, every "other" value, and the differences entry when there is one |
| ReturnOperation.Recipients | php/v2/ReturnOperation.php:222-225 | a lookup answer that is not an array means no recipients; an array answer is the recipient list |
| ReturnOperation.EmployeeMessages | php/v2/ReturnOperation.php:230-236 | one message per recipient, in order, each with the same sender, subject and body |
| ReturnOperation.SendOutcome | php/v2/ReturnOperation.php:238-240 | a send helper answers true exactly when the gateway call went out, and otherwise carries the gateway's exception |
| ReturnOperation.StaffEmailCall | php/v2/ReturnOperation.php:227-238 | the staff send carries one message per recipient with the same sender, and subject and body rendered from the raw request |
| ReturnOperation.SendComplaintEmployeeEmail | php/v2/ReturnOperation.php:219-241 | with no recipients it answers false after the lookup alone; otherwise it makes the staff send and answers according to the gateway |
| ReturnOperation.SendComplaintClientEmail | php/v2/ReturnOperation.php:246-270 | never answers false; a missing differences.to throws before any send; otherwise one client email carries the new status |
| ReturnOperation.ClientEmailCall | php/v2/ReturnOperation.php:253-267 | the client send carries one message, from the sender to the client's email, with subject and body rendered from the template data, and the reseller, client, CHANGE_RETURN_STATUS event and new status |
| ReturnOperation.ClientSmsCall | php/v2/ReturnOperation.php:278-286 | the SMS send carries the reseller, the client, the CHANGE_RETURN_STATUS event, the new status and the template data |
| ReturnOperation.SendComplaintClientSms | php/v2/ReturnOperation.php:272-289 | never answers false; a missing differences.to throws before any send; otherwise one SMS carries the template data and new status |
| ReturnOperation.ClientEmailAttempt | php/v2/ReturnOperation.php:79-82 | the client email is skipped unless the type is CHANGE and the client has an email address; when both hold, the attempt is sendComplaintClientEmail's outcome |
| ReturnOperation.ClientSmsAttempt | php/v2/ReturnOperation.php:88-91 | the SMS is skipped unless the type is CHANGE and the client has a mobile number; when both hold, the attempt is sendComplaintClientSms's outcome |
| ReturnOperation.Notify | php/v2/ReturnOperation.php:65-98 | the notification steps always return a record, never throw, and start by looking up the sender address |
| ReturnOperation.Resolve | php/v2/ReturnOperation.php:49-98 | the reference run from entity resolution onwards; its first call is always the reseller lookup (its errors and trace are stated by ResolveThrows, UnknownSeller, ClientRejected, TemplateFailureWrapped and ResolvedRun) |
| ReturnOperation.Expected | php/v2/ReturnOperation.php:29-99 | the reference run of doOperation: a bad notificationType throws with no call made; any call implies a valid resellerId whose lookup comes first; a returned record implies a valid notificationType and either a missing resellerId or all five ids valid, so every other validation failure escapes |
| ReturnOperation.DoOperation | php/v2/ReturnOperation.php:29-99 | the imperative workflow produces exactly the run the reference definition describes |
| ReturnOperation.ResolveAndNotify | php/v2/ReturnOperation.php:49-98 | past validation, the imperative steps produce exactly the resolution-onwards run; a returned record is the serialised state of the result object |
| ReturnOperation.SendNotifications | php/v2/ReturnOperation.php:65-98 | the imperative notification steps, writing through the setters, produce exactly the reference run, and the returned record is the serialised state of the result object |
| ReturnOperation.TryStaffEmail | php/v2/ReturnOperation.php:70-74 | the staff flag takes the helper's answer unless it threw, when it keeps its value; no other field changes |
| ReturnOperation.TryClientEmail | php/v2/ReturnOperation.php:79-86 | the client email flag takes the short-circuit's value unless it threw; no other field changes |
| ReturnOperation.TryClientSms | php/v2/ReturnOperation.php:88-96 | the SMS flag takes the short-circuit's value, or, if the send threw, the message takes the exception's message |
| ReturnOperationProperties.NotificationTypeCheckedFirst | php/v2/ReturnOperation.php:31-34 | a bad notificationType escapes before anything else, with no call made |
| ReturnOperationProperties.MissingResellerId | php/v2/ReturnOperation.php:36-41 | a missing or blank resellerId returns all flags false with "Empty resellerId", with no call made |
| ReturnOperationProperties.ResellerIdArrayEscapes | php/v2/ReturnOperation.php:36-41 | only the InvalidArgumentException is caught: an array resellerId's TypeError escapes |
| ReturnOperationProperties.LaterIdFailureEscapes | php/v2/ReturnOperation.php:43-45 | with notificationType and resellerId valid, the first missing, blank or array one of clientId, creatorId and expertId escapes as that field's exception ("Empty {field}" or the TypeError), with no call made |
| ReturnOperationProperties.NoLookupBeforeValidation | php/v2/ReturnOperation.php:43-50 | no collaborator is called before all five ids validate, and the first call is then the reseller lookup |
| ReturnOperationProperties.ExpectedAfterValidation | php/v2/ReturnOperation.php:43-50 | once the ids validate, the run is entity resolution onwards |
| ReturnOperationProperties.UnknownSeller | php/v2/ReturnOperation.php:116-124 | an unknown reseller ends the run with "Seller not found!" after one lookup |
| ReturnOperationProperties.ClientRejected | php/v2/ReturnOperation.php:126-138 | a missing, non-customer, or other-seller client ends the run with "Client not found!" after the two lookups |
| ReturnOperationProperties.TemplateFailureWrapped | php/v2/ReturnOperation.php:52-63 | any assembly failure (creator, expert, request field, differences) ends the run with "Template Data is wrong!", after the employee lookups and before the sender lookup |
| ReturnOperationProperties.StatusChangeText | php/v2/ReturnOperation.php:194-210 | a CHANGE naming two known codes gives the status-change text rendered with both names |
| ReturnOperationProperties.StatusChangeDescribed | php/v2/ReturnOperation.php:194-210 | a change from "1" to "2" is described as Pending to Rejected |
| ReturnOperationProperties.ResolveThrows | php/v2/ReturnOperation.php:49-63 | past validation, only "Seller not found!", "Client not found!" or "Template Data is wrong!" can escape |
| ReturnOperationProperties.ThrownErrors | php/v2/ReturnOperation.php:29-99 | what escapes doOperation is a field-validation error or one of the three resolution errors |
| ReturnOperationProperties.ResolvedRun | php/v2/ReturnOperation.php:49-67 | when resolution and assembly succeed, the run is the four lookups followed by the notification steps |
| ReturnOperationProperties.EmptySenderSkipsDispatch | php/v2/ReturnOperation.php:65-68 | an empty sender address returns all flags false with an empty message, and nothing is dispatched |
| ReturnOperationProperties.StaffEmailFlag | php/v2/ReturnOperation.php:70-74 | the staff flag is set exactly when there is a sender, there are recipients, and the gateway accepted the staff email |
| ReturnOperationProperties.ClientEmailFlag | php/v2/ReturnOperation.php:76-86 | the client email flag is set exactly when there is a sender, the type is CHANGE, the email is not blank, differences.to holds a value, and the gateway accepted |
| ReturnOperationProperties.ClientSmsFlag | php/v2/ReturnOperation.php:76-96 | the SMS flag is set exactly when there is a sender, the type is CHANGE, the mobile is not blank, differences.to holds a value, and the gateway accepted |
| ReturnOperationProperties.SmsFailureMessage | php/v2/ReturnOperation.php:70-96 | only a failed SMS leaves a message (the missing differences.to or the gateway's exception); failed emails leave none |
| ReturnOperationProperties.ClientNotifiedOnlyOnChange | php/v2/ReturnOperation.php:76-96 | a type other than CHANGE never reaches the client: both client flags false, no message, no client send in the trace |
| ReturnOperationProperties.ChannelsIsolated | php/v2/ReturnOperation.php:70-96 | a refused staff email does not stop the client email and SMS; all three sends are made, in order |

## Left out

- NotificationManager.php: its three send methods are empty stubs. They are modelled as the `Env.gateway`, which answers each call with delivered or an exception.
- `Contractor::getById`, `getResellerEmailFrom`, `getEmailsByPermit` and `__` in others.php are fakes. They are modelled as `Env` fields that can return anything, not as their fixed return values.
- `ReferencesOperation::getRequest` reads the `$_REQUEST` superglobal. The model takes the payload as the input `data`.
- The text the `__` renderer produces is an uninterpreted function. The trace does not record renderer calls or their order.
- `ReturnOperationTypes` is not part of this model. `NEW` and `CHANGE` are assumed to be 1 and 2; any other int is a third kind.
- PhpRuntime.IntCast: covers leading white space, a sign, decimal digits and 64-bit saturation. PHP 8 also reads an exponent or fraction (`"1e3"` casts to 1000); that is not modelled.
- The TypeError messages (trim() on an array, a string passed for `array $differences`) approximate PHP's wording. Only their kind matters to the workflow.
- The `previous` exception chained into "Template Data is wrong!" is not modelled.
- A client without a seller (`$client->seller` null) is modelled as `sellerId == None`. Such a client is rejected. PHP's warning on reading a property of null is not modelled.
- The client-ownership check compares the client's seller id with the client id, not the reseller id, as the source does. It is kept literally.
- The staff email is rendered with the raw request, not with the template data, as the source does. It is kept literally.
- Strings are sequences of characters. Multibyte encodings and the request's byte-level form are not modelled.

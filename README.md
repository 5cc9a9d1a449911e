# ZendAuthAdapterAlfresco, modelled in Dafny

`ZendAuthAdapterAlfresco` is a Zend Framework authentication adapter. It checks a
username and password by calling `startSession` on an Alfresco repository's SOAP web
service, then turns what the call produced into a `Zend_Auth_Result`: a code, an
identity and a list of messages.

The model (`alfresco_auth_adapter.dfy`, module `AlfrescoAuthAdapter`; `wrappers.dfy`
holds the `Option` type that stands for PHP's null) has three parts:

- **Fault classification**, pure functions. `Classify` is the decision of
  `throwAuthorizationError`. It is built from `IsConnectionFailure`, `IsAlfrescoError`,
  `AlfrescoErrorCode` and `DefaultErrorCode`, and the rules are tried in the source's
  order. A fault with a `faultcode` gives FAILURE. Otherwise a fault with a `detail` is
  looked up by its AuthenticationFault errorCode: 100 gives FAILURE_CREDENTIAL_INVALID and
  anything else gives FAILURE_UNCATEGORIZED. Otherwise the default code applies.
  `faultcode` and `detail` are the sub-elements of the SOAP Fault element, as section 4.4
  of SOAP 1.1 defines them.
- **One attempt on the `_result` array**, as the specification function `Attempt`. On
  success it sets SUCCESS and an identity copied from `startSessionReturn`. On a fault it
  writes the classified code and nothing else.
- **The adapter object**, the class `Adapter`. Its fields are `username`, `password`,
  `wsdlAddress`, `response` and `result` (the `_result` array). Its constructor and
  setters update those fields in place. `Authenticate` makes the remote call, runs the
  success or the fault path, and returns the `AuthResult` read back from `result`. Each
  method's `ensures` ties the new state to `Attempt` or to the old state.

The remote service is a parameter of type `Request -> RemoteOutcome`. The adapter sends
it `StartSession(wsdlAddress, username, password)` built from its stored fields. What
comes back is either `Response(startSessionReturn)` or `Thrown(fault)`.

Two behaviours of the code are easy to miss; the model follows the code:

- The default error code is null, not FAILURE_UNCATEGORIZED. `getDefaultErrorCode`
  (line 198-201) evaluates the constant but does not return it. So a fault with neither a
  `faultcode` nor a `detail` leaves the code null (`DefaultCodeIsNull`).
- `authenticate` does not reset `_result`. Only the constructor does. A second call on
  the same adapter starts from the first call's record. So after a success followed by a
  fault, the old identity is still there next to a failure code
  (`StaleIdentityAfterReuse`). On the first call of a fresh adapter, the identity is set
  exactly when the code is SUCCESS (`FirstAttemptConsistent`, `AuthenticateOnce`).

## Model

| member | source | states |
|---|---|---|
| `AlfrescoAuthAdapter.DefaultResult` | ZendAuthAdapterAlfresco.php:35-38 | The default record has no code and no messages. Its identity is set exactly when its code is SUCCESS, so it is unset. |
| `AlfrescoAuthAdapter.IsConnectionFailure` | ZendAuthAdapterAlfresco.php:203-206 | A null argument is never a connection failure. A fault is one exactly when it decodes as a transport fault. |
| `AlfrescoAuthAdapter.IsAlfrescoError` | ZendAuthAdapterAlfresco.php:213-216 | A null argument is never an Alfresco error. Tested after the connection check, it holds exactly for faults that decode as service faults. |
| `AlfrescoAuthAdapter.ConnectionFailureErrorCode` | ZendAuthAdapterAlfresco.php:208-211 | The code is the one a transport fault is given, FAILURE. |
| `AlfrescoAuthAdapter.DefaultErrorCode` | ZendAuthAdapterAlfresco.php:198-201 | The call yields null, the code of an unknown fault shape. It is not the FAILURE_UNCATEGORIZED its body evaluates. |
| `AlfrescoAuthAdapter.Decide` | ZendAuthAdapterAlfresco.php:187-196 | With a null value reaching the two tests, the starting code stands. With the fault reaching them, a transport or service fault gets its shape's code, and only an unknown shape keeps the starting code. |
| `AlfrescoAuthAdapter.AlfrescoErrorCode` | ZendAuthAdapterAlfresco.php:218-230 | errorCode 100 gives FAILURE_CREDENTIAL_INVALID. Any other errorCode, or a missing one, gives FAILURE_UNCATEGORIZED. Both directions are stated. |
| `AlfrescoAuthAdapter.Classify` | ZendAuthAdapterAlfresco.php:187-216 | A caught fault is never given SUCCESS. Its code is null exactly when the fault carries neither a faultcode nor a detail. |
| `AlfrescoAuthAdapter.ClassifyAsWritten` | ZendAuthAdapterAlfresco.php:187-201 | With the argument left out of both tests, as written, every fault ends with a null code. |
| `AlfrescoAuthAdapter.AsWrittenMisclassifiesTransportFault` | ZendAuthAdapterAlfresco.php:189-211 | A fault with faultcode "Server" gets null as written but FAILURE when the fault is passed to the tests. |
| `AlfrescoAuthAdapter.TransportFaultWins` | ZendAuthAdapterAlfresco.php:190-211 | A fault with a faultcode gives FAILURE whatever detail it also carries, because the transport test comes first. |
| `AlfrescoAuthAdapter.CredentialInvalidFault` | ZendAuthAdapterAlfresco.php:192-224 | No faultcode and a detail with errorCode 100 gives FAILURE_CREDENTIAL_INVALID. |
| `AlfrescoAuthAdapter.OtherServiceFault` | ZendAuthAdapterAlfresco.php:218-229 | No faultcode and a detail whose errorCode is not 100, or is missing, gives FAILURE_UNCATEGORIZED. |
| `AlfrescoAuthAdapter.DefaultCodeIsNull` | ZendAuthAdapterAlfresco.php:187-201 | A fault with neither faultcode nor detail keeps the default code, which is null. |
| `AlfrescoAuthAdapter.ClassifyWithReturnedDefault` | ZendAuthAdapterAlfresco.php:187-201 | With the default code returned, every fault gets a failure code and never SUCCESS. A fault with a faultcode or a detail gets the same code as under Classify. |
| `AlfrescoAuthAdapter.ReturnedDefaultIsUncategorized` | ZendAuthAdapterAlfresco.php:198-201 | With the default code returned, a fault with neither faultcode nor detail gets FAILURE_UNCATEGORIZED instead of null. |
| `AlfrescoAuthAdapter.ClassifyImage` | ZendAuthAdapterAlfresco.php:187-230 | A fault can be given exactly FAILURE, FAILURE_CREDENTIAL_INVALID, FAILURE_UNCATEGORIZED or null. Each of these has a fault that produces it, and SUCCESS has none. |
| `AlfrescoAuthAdapter.DecodeFault` | ZendAuthAdapterAlfresco.php:203-216 | A fault decodes as transport exactly when it has a faultcode. It decodes as a service fault exactly when it has a detail and no faultcode, and then it carries that detail's errorCode. |
| `AlfrescoAuthAdapter.ClassifyByKind` | ZendAuthAdapterAlfresco.php:187-230 | Classify agrees with decoding the fault into a tagged variant and then matching on it. |
| `AlfrescoAuthAdapter.IdentityFromResponse` | ZendAuthAdapterAlfresco.php:162-185 | The identity's username, ticket and sessionid are those of `startSessionReturn`, unchanged. |
| `AlfrescoAuthAdapter.Attempt` | ZendAuthAdapterAlfresco.php:116-123 | One attempt never touches the messages. A fault leaves the identity as it was and never gives SUCCESS. From a record without an identity, the identity is set exactly when the code becomes SUCCESS. |
| `AlfrescoAuthAdapter.ResultOf` | ZendAuthAdapterAlfresco.php:124-127 | The returned result carries the record's code, identity and messages as they stand. |
| `AlfrescoAuthAdapter.SuccessCopiesSession` | ZendAuthAdapterAlfresco.php:147-185 | On success the code is SUCCESS. The identity is `startSessionReturn`'s username, ticket and sessionid, unchanged. Messages are untouched. |
| `AlfrescoAuthAdapter.FaultWritesOnlyCode` | ZendAuthAdapterAlfresco.php:187-196 | On a fault only the code is written, and it is not SUCCESS. Identity and messages keep their values. |
| `AlfrescoAuthAdapter.FirstAttemptConsistent` | ZendAuthAdapterAlfresco.php:147-196 | Starting from the default record, the identity is set exactly when the code is SUCCESS, and there are no messages. |
| `AlfrescoAuthAdapter.EveryCodeReachable` | ZendAuthAdapterAlfresco.php:116-230 | Each of the four codes, and null, is the code of some first attempt. |
| `AlfrescoAuthAdapter.StaleIdentityAfterReuse` | ZendAuthAdapterAlfresco.php:116-128 | A success followed by a transport fault on the same record gives FAILURE but keeps the first call's identity. |
| `AlfrescoAuthAdapter.Scenarios` | ZendAuthAdapterAlfresco.php:116-230 | Four examples from a fresh record. alice's session gives SUCCESS with identity alice/TCK-1/S-1. A "Server" fault gives FAILURE. errorCode 100 gives FAILURE_CREDENTIAL_INVALID. errorCode 999 gives FAILURE_UNCATEGORIZED. |
| `AlfrescoAuthAdapter.Adapter.constructor` | ZendAuthAdapterAlfresco.php:27-38 | Username, password and WSDL address hold the arguments. The result is {code: null, messages: [], identity: null}. No response is stored. |
| `AlfrescoAuthAdapter.Adapter.SetDefaultResult` | ZendAuthAdapterAlfresco.php:35-38 | The result becomes {null, [], null}. No other field changes. |
| `AlfrescoAuthAdapter.Adapter.SetUsername` | ZendAuthAdapterAlfresco.php:45-48 | Only the username changes, to the argument. |
| `AlfrescoAuthAdapter.Adapter.SetPassword` | ZendAuthAdapterAlfresco.php:55-58 | Only the password changes, to the argument. |
| `AlfrescoAuthAdapter.Adapter.SetWsdlAddress` | ZendAuthAdapterAlfresco.php:65-68 | Only the WSDL address changes, to the argument. |
| `AlfrescoAuthAdapter.Adapter.SetResponse` | ZendAuthAdapterAlfresco.php:75-78 | Only the stored response changes, to the argument. |
| `AlfrescoAuthAdapter.Adapter.SetResultCode` | ZendAuthAdapterAlfresco.php:85-88 | Only the result's code changes. |
| `AlfrescoAuthAdapter.Adapter.AddResultMessage` | ZendAuthAdapterAlfresco.php:95-98 | The message is appended to the messages. Nothing is removed, and code and identity keep their values. |
| `AlfrescoAuthAdapter.Adapter.SetResultIdentity` | ZendAuthAdapterAlfresco.php:105-108 | Only the result's identity changes. |
| `AlfrescoAuthAdapter.Adapter.AuthenticateOnAlfresco` | ZendAuthAdapterAlfresco.php:130-145 | The stored credentials go to the stored WSDL address. A returned response is stored. A thrown fault is handed back, and the stored response is unchanged. |
| `AlfrescoAuthAdapter.Adapter.SetApplicationUser` | ZendAuthAdapterAlfresco.php:147-170 | The code becomes SUCCESS and the identity comes from the stored response. Messages are unchanged. |
| `AlfrescoAuthAdapter.Adapter.ThrowAuthorizationError` | ZendAuthAdapterAlfresco.php:187-196 | Only the code is written: the fault's classification. |
| `AlfrescoAuthAdapter.Adapter.Authenticate` | ZendAuthAdapterAlfresco.php:116-128 | The result becomes `Attempt` of the old result and the call's outcome. The response is stored only on success. Credentials do not change. The returned result is (code, identity, messages) of the new record, and no fault escapes. |
| `AlfrescoAuthAdapter.AuthenticateOnce` | ZendAuthAdapterAlfresco.php:27-128 | For a fresh adapter, the result is the first attempt from the default record. The identity is set exactly when the code is SUCCESS, and the messages are empty. |
| `AlfrescoAuthAdapter.IndependentAdaptersAgree` | ZendAuthAdapterAlfresco.php:27-128 | Two independent adapters built from the same arguments and facing the same deterministic service return equal results. |

## Left out

- Building `Zend_Soap_Client` and the `startSession` call (lines 130-145) are network I/O through a foreign library. The service is a parameter, and its outcome is an input value.
- The PHP 7.1+ behaviour of the argument-less calls at lines 190 and 192 is not modelled. There they raise `ArgumentCountError`, and because it is raised inside the catch handler (line 122) it escapes `authenticate`. `ClassifyAsWritten` models PHP 5 and 7.0, where the missing parameter only draws a warning and is null.
- `Zend_Auth_Result` and `Zend_Auth_Adapter_Interface` are not part of this model. The result is the plain triple `AuthResult`, and the framework's handling of a null code is not modelled.
- `AlfrescoErrorCode`: PHP's `switch` compares loosely, so a string errorCode such as "100" would also match case 100. The model types errorCode as an integer or missing.
- PHP dynamic-property mechanics are not modelled. This covers `isset` on undefined properties, and the notices and nulls from a response that lacks `startSessionReturn` or one of its fields. Fault and response shapes are datatypes with `Option` fields instead.
- The `@throws Zend_Auth_Adapter_Exception` doc comment (line 113) has no behaviour: no code path throws it.
- The private getters (`getUsername`, `getResultCode` and so on) are plain field reads in the model. The three response getters (lines 172-185) are the field projections in `IdentityFromResponse`. The unused local `$messages` at line 149 has no effect.
- IndependentAdaptersAgree: the service is a pure function, so the property holds for a service that answers the same request the same way. A live `startSession` hands out a new ticket on every call.
- No content validation of credentials or identity strings, because the code does none.

## Findings

| source | as written | input that shows it | evidently intended | confidence | as-written member | corrected member |
|---|---|---|---|---|---|---|
| ZendAuthAdapterAlfresco.php:190-192 | `isConnectionFailure()` and `isAlfrescoError()` are called without the `$exception` their signatures (lines 203, 213) take, so under PHP 5 and 7.0 both see null and every fault ends with the null default code | a fault with faultcode "Server" | pass the caught fault to both tests, so a transport fault gives FAILURE | high, not executed | `AlfrescoAuthAdapter.AsWrittenMisclassifiesTransportFault` | `AlfrescoAuthAdapter.TransportFaultWins` |
| ZendAuthAdapterAlfresco.php:200 | `getDefaultErrorCode` evaluates `FAILURE_UNCATEGORIZED` but has no `return`, so the default code is null | a fault with neither faultcode nor detail | return the constant, so such a fault gets FAILURE_UNCATEGORIZED | high, not executed | `AlfrescoAuthAdapter.DefaultCodeIsNull` | `AlfrescoAuthAdapter.ReturnedDefaultIsUncategorized` |

/**
 * A Zend_Auth adapter that checks a username and password by opening a session
 * on an Alfresco repository through its SOAP web service (`startSession`).
 *
 * The remote call is not modelled: the service is a parameter that maps the
 * request the adapter sends to what the call produces, either a response or
 * the fault it throws.
 */
module AlfrescoAuthAdapter {
  import opened Wrappers

  // ---------------------------------------------------------------------------
  // Data
  // ---------------------------------------------------------------------------

  /** The Zend_Auth_Result codes the adapter writes. */
  datatype ResultCode = Success | Failure | FailureCredentialInvalid | FailureUncategorized

  /** The `startSessionReturn` element of a successful `startSession` response. */
  datatype SessionReturn = SessionReturn(username: string, ticket: string, sessionid: string)

  /** The `detail->AuthenticationFault` part of a fault; `errorCode` is None when it is missing. */
  datatype FaultDetail = FaultDetail(errorCode: Option<int>)

  /**
   * The exception the SOAP call throws. `faultcode` and `detail` are the
   * sub-elements of a SOAP Fault (section 4.4 of SOAP 1.1); None means that
   * `isset` is false for that property.
   */
  datatype Fault = Fault(faultcode: Option<string>, detail: Option<FaultDetail>)

  /** How the remote call completes: it returns a response or throws a fault. */
  datatype RemoteOutcome = Response(startSessionReturn: SessionReturn) | Thrown(fault: Fault)

  /** What the adapter sends: the `startSession` call to the WSDL address, with the credentials. */
  datatype Request = StartSession(wsdlAddress: string, username: string, password: string)

  /** The identity array built on success. */
  datatype Identity = Identity(username: string, ticket: string, sessionid: string)

  /** The adapter's `_result` array. */
  datatype ResultRecord = ResultRecord(code: Option<ResultCode>, messages: seq<string>, identity: Option<Identity>)

  /** The Zend_Auth_Result that `authenticate` returns, built from (code, identity, messages). */
  datatype AuthResult = AuthResult(code: Option<ResultCode>, identity: Option<Identity>, messages: seq<string>)

  /** The Alfresco AuthenticationFault errorCode that means "bad username or password". */
  const CredentialInvalidErrorCode: int := 100

  /**
   * The `_result` array as `setDefaultResult` leaves it: no code, no
   * messages, and so no identity without SUCCESS.
   */
  function DefaultResult(): (r: ResultRecord)
    ensures r.code.None? && r.messages == []
    ensures r.identity.Some? <==> r.code == Some(Success)
  {
    ResultRecord(None, [], None)
  }

  // ---------------------------------------------------------------------------
  // Fault classification
  // ---------------------------------------------------------------------------

  /**
   * isConnectionFailure: `value` is a fault whose `faultcode` is set. A null
   * argument never is one; a fault that is one decodes as a transport fault.
   */
  predicate IsConnectionFailure(value: Option<Fault>)
    ensures value.None? ==> !IsConnectionFailure(value)
    ensures value.Some? ==> (IsConnectionFailure(value) <==> DecodeFault(value.value).TransportFault?)
  {
    value.Some? && value.value.faultcode.Some?
  }

  /**
   * isAlfrescoError: `value` is a fault whose `detail` is set. A null argument
   * never is one; tested after isConnectionFailure, it picks out exactly the
   * service faults.
   */
  predicate IsAlfrescoError(value: Option<Fault>)
    ensures value.None? ==> !IsAlfrescoError(value)
    ensures value.Some? && !IsConnectionFailure(value) ==>
              (IsAlfrescoError(value) <==> DecodeFault(value.value).ServiceFault?)
  {
    value.Some? && value.value.detail.Some?
  }

  /** `detail->AuthenticationFault->errorCode`, null when any step of the path is missing. */
  function ErrorCodeOf(f: Fault): Option<int>
  {
    if f.detail.Some? then f.detail.value.errorCode else None
  }

  /** getAlfrescoErrorCode: the switch on the AuthenticationFault errorCode. */
  function AlfrescoErrorCode(f: Fault): (c: ResultCode)
    ensures c == FailureCredentialInvalid <==> ErrorCodeOf(f) == Some(CredentialInvalidErrorCode)
    ensures c == FailureUncategorized <==> ErrorCodeOf(f) != Some(CredentialInvalidErrorCode)
  {
    match ErrorCodeOf(f)
    case Some(n) => if n == CredentialInvalidErrorCode then FailureCredentialInvalid else FailureUncategorized
    case None => FailureUncategorized
  }

  /** getConnectionFailureErrorCode: the code of a transport fault. */
  function ConnectionFailureErrorCode(): (c: ResultCode)
    ensures Some(c) == KindCode(TransportFault)
  {
    Failure
  }

  /**
   * getDefaultErrorCode. Its body evaluates FAILURE_UNCATEGORIZED but has no
   * `return`, so the call yields null: the code of an unknown fault, and not
   * the constant the body names.
   */
  function DefaultErrorCode(): (c: Option<ResultCode>)
    ensures c == KindCode(UnknownFault)
    ensures c != Some(FailureUncategorized)
  {
    None
  }

  /**
   * The decision of throwAuthorizationError. `probe` is the value that reaches
   * isConnectionFailure and isAlfrescoError; `exception` is the one passed to
   * getAlfrescoErrorCode; `fallback` is the code it starts from. With a null
   * probe the fallback stands; with the exception as probe, a known fault
   * shape gets its shape's code.
   */
  function Decide(probe: Option<Fault>, exception: Fault, fallback: Option<ResultCode>): (r: Option<ResultCode>)
    ensures probe.None? ==> r == fallback
    ensures probe == Some(exception) ==>
              r == if DecodeFault(exception).UnknownFault? then fallback else KindCode(DecodeFault(exception))
  {
    if IsConnectionFailure(probe) then Some(ConnectionFailureErrorCode())
    else if IsAlfrescoError(probe) then Some(AlfrescoErrorCode(exception))
    else fallback
  }

  /**
   * The code a caught fault is given, with the fault passed to both tests, as
   * their parameter lists require: never SUCCESS, and null exactly when the
   * fault carries neither a faultcode nor a detail.
   */
  function Classify(f: Fault): (r: Option<ResultCode>)
    ensures r != Some(Success)
    ensures r.None? <==> f.faultcode.None? && f.detail.None?
  {
    Decide(Some(f), f, DefaultErrorCode())
  }

  /**
   * throwAuthorizationError as written: the two tests are called with no
   * argument, so under PHP 5 and 7.0 their parameter is null (with a warning)
   * and neither test holds.
   */
  function ClassifyAsWritten(f: Fault): (r: Option<ResultCode>)
    ensures r.None?
  {
    Decide(None, f, DefaultErrorCode())
  }

  /**
   * throwAuthorizationError with getDefaultErrorCode returning the constant
   * its body names: every fault gets a failure code, and a fault of a known
   * shape gets the same code as under Classify.
   */
  function ClassifyWithReturnedDefault(f: Fault): (r: Option<ResultCode>)
    ensures r.Some? && r != Some(Success)
    ensures f.faultcode.Some? || f.detail.Some? ==> r == Classify(f)
  {
    Decide(Some(f), f, Some(FailureUncategorized))
  }

  /** A transport fault gives FAILURE, whatever detail it also carries. */
  lemma TransportFaultWins(f: Fault)
    requires f.faultcode.Some?
    ensures Classify(f) == Some(Failure)
  {
  }

  /** No faultcode and AuthenticationFault errorCode 100 gives FAILURE_CREDENTIAL_INVALID. */
  lemma CredentialInvalidFault(f: Fault)
    requires f.faultcode.None? && f.detail.Some?
    requires f.detail.value.errorCode == Some(CredentialInvalidErrorCode)
    ensures Classify(f) == Some(FailureCredentialInvalid)
  {
  }

  /** No faultcode and a detail whose errorCode is anything but 100 (or missing) gives FAILURE_UNCATEGORIZED. */
  lemma OtherServiceFault(f: Fault)
    requires f.faultcode.None? && f.detail.Some?
    requires f.detail.value.errorCode != Some(CredentialInvalidErrorCode)
    ensures Classify(f) == Some(FailureUncategorized)
  {
  }

  /** A fault with neither faultcode nor detail keeps the default code, which is null. */
  lemma DefaultCodeIsNull(f: Fault)
    requires f.faultcode.None? && f.detail.None?
    ensures Classify(f) == None
  {
  }

  /**
   * Had getDefaultErrorCode returned its constant, a fault with neither
   * faultcode nor detail would get FAILURE_UNCATEGORIZED.
   */
  lemma ReturnedDefaultIsUncategorized(f: Fault)
    requires f.faultcode.None? && f.detail.None?
    ensures ClassifyWithReturnedDefault(f) == Some(FailureUncategorized)
    ensures Classify(f) != ClassifyWithReturnedDefault(f)
  {
  }

  /** The codes a fault can be given are exactly the three failure codes and null. */
  lemma ClassifyImage(c: Option<ResultCode>)
    ensures (exists f :: Classify(f) == c) <==> c != Some(Success)
  {
    if c != Some(Success) {
      var f := match c
        case Some(Failure) => Fault(Some("Server"), None)
        case Some(FailureCredentialInvalid) => Fault(None, Some(FaultDetail(Some(CredentialInvalidErrorCode))))
        case Some(_) => Fault(None, Some(FaultDetail(None)))
        case None => Fault(None, None);
      assert Classify(f) == c;
    }
  }

  /** As written, a transport fault is left with a null code instead of FAILURE. */
  lemma AsWrittenMisclassifiesTransportFault()
    ensures ClassifyAsWritten(Fault(Some("Server"), None)) == None
    ensures Classify(Fault(Some("Server"), None)) == Some(Failure)
  {
  }

  // ---------------------------------------------------------------------------
  // A reference definition: the fault decoded once into a tagged variant
  // ---------------------------------------------------------------------------

  /** The three shapes a caught fault is told apart by. */
  datatype FaultKind = TransportFault | ServiceFault(errorCode: Option<int>) | UnknownFault

  /** Decodes a fault, transport first, then service detail. */
  function DecodeFault(f: Fault): (k: FaultKind)
    ensures k.TransportFault? <==> f.faultcode.Some?
    ensures k.ServiceFault? <==> f.faultcode.None? && f.detail.Some?
    ensures k.ServiceFault? ==> k.errorCode == f.detail.value.errorCode
  {
    if f.faultcode.Some? then TransportFault
    else if f.detail.Some? then ServiceFault(f.detail.value.errorCode)
    else UnknownFault
  }

  /** The code each fault shape is given. */
  function KindCode(k: FaultKind): Option<ResultCode>
  {
    match k
    case TransportFault => Some(Failure)
    case ServiceFault(n) =>
      Some(if n == Some(CredentialInvalidErrorCode) then FailureCredentialInvalid else FailureUncategorized)
    case UnknownFault => None
  }

  /** Classify agrees with decoding the fault and matching on its shape. */
  lemma ClassifyByKind(f: Fault)
    ensures Classify(f) == KindCode(DecodeFault(f))
  {
  }

  // ---------------------------------------------------------------------------
  // One authentication attempt on the `_result` array
  // ---------------------------------------------------------------------------

  /** getIdentityFromResponse: the three fields of `startSessionReturn`, copied as they are. */
  function IdentityFromResponse(s: SessionReturn): (id: Identity)
    ensures id.username == s.username && id.ticket == s.ticket && id.sessionid == s.sessionid
  {
    Identity(s.username, s.ticket, s.sessionid)
  }

  /**
   * What one `authenticate` call does to `_result`, given how the remote call
   * completed. Messages are never touched; a fault leaves the identity as it
   * was; and from a record without an identity, the identity is set exactly
   * when the code becomes SUCCESS.
   */
  function Attempt(r: ResultRecord, outcome: RemoteOutcome): (r': ResultRecord)
    ensures r'.messages == r.messages
    ensures outcome.Thrown? ==> r'.identity == r.identity && r'.code != Some(Success)
    ensures r.identity.None? ==> (r'.identity.Some? <==> r'.code == Some(Success))
  {
    match outcome
    case Response(s) => r.(code := Some(Success), identity := Some(IdentityFromResponse(s)))
    case Thrown(f) => r.(code := Classify(f))
  }

  /** The Zend_Auth_Result built from the `_result` array: its code, identity and messages as they stand. */
  function ResultOf(r: ResultRecord): (a: AuthResult)
    ensures a.code == r.code && a.identity == r.identity && a.messages == r.messages
  {
    AuthResult(r.code, r.identity, r.messages)
  }

  /** On success the code is SUCCESS and the identity is the session, unchanged; messages are untouched. */
  lemma SuccessCopiesSession(r: ResultRecord, s: SessionReturn)
    ensures Attempt(r, Response(s)).code == Some(Success)
    ensures Attempt(r, Response(s)).identity == Some(Identity(s.username, s.ticket, s.sessionid))
    ensures Attempt(r, Response(s)).messages == r.messages
  {
  }

  /** On a fault only the code is written. */
  lemma FaultWritesOnlyCode(r: ResultRecord, f: Fault)
    ensures Attempt(r, Thrown(f)) == ResultRecord(Classify(f), r.messages, r.identity)
    ensures Attempt(r, Thrown(f)).code != Some(Success)
  {
  }

  /**
   * After the first attempt from the default record, the identity is set
   * exactly when the code is SUCCESS, and there are no messages.
   */
  lemma FirstAttemptConsistent(outcome: RemoteOutcome)
    ensures Attempt(DefaultResult(), outcome).identity.Some? <==> Attempt(DefaultResult(), outcome).code == Some(Success)
    ensures Attempt(DefaultResult(), outcome).messages == []
  {
  }

  /** Every code, null included, is the code of some first attempt. */
  lemma EveryCodeReachable(c: Option<ResultCode>)
    ensures exists outcome :: Attempt(DefaultResult(), outcome).code == c
  {
    if c == Some(Success) {
      var outcome := Response(SessionReturn("alice", "TCK-1", "S-1"));
      assert Attempt(DefaultResult(), outcome).code == c;
    } else {
      ClassifyImage(c);
      var f :| Classify(f) == c;
      assert Attempt(DefaultResult(), Thrown(f)).code == c;
    }
  }

  /**
   * `authenticate` does not reset `_result`: an adapter that succeeded and is
   * used again keeps the old identity when the second call faults.
   */
  lemma StaleIdentityAfterReuse(s: SessionReturn, f: Fault)
    requires f.faultcode.Some?
    ensures Attempt(Attempt(DefaultResult(), Response(s)), Thrown(f)).code == Some(Failure)
    ensures Attempt(Attempt(DefaultResult(), Response(s)), Thrown(f)).identity == Some(IdentityFromResponse(s))
  {
  }

  /** The four scenarios: a session, a server fault, errorCode 100, errorCode 999. */
  lemma Scenarios()
    ensures ResultOf(Attempt(DefaultResult(), Response(SessionReturn("alice", "TCK-1", "S-1"))))
         == AuthResult(Some(Success), Some(Identity("alice", "TCK-1", "S-1")), [])
    ensures ResultOf(Attempt(DefaultResult(), Thrown(Fault(Some("Server"), None))))
         == AuthResult(Some(Failure), None, [])
    ensures ResultOf(Attempt(DefaultResult(), Thrown(Fault(None, Some(FaultDetail(Some(100)))))))
         == AuthResult(Some(FailureCredentialInvalid), None, [])
    ensures ResultOf(Attempt(DefaultResult(), Thrown(Fault(None, Some(FaultDetail(Some(999)))))))
         == AuthResult(Some(FailureUncategorized), None, [])
  {
  }

  // ---------------------------------------------------------------------------
  // The adapter object
  // ---------------------------------------------------------------------------

  /** The remote service: the outcome of each request it is sent. */
  type Service = Request -> RemoteOutcome

  class Adapter {
    var username: string
    var password: string
    var wsdlAddress: string
    /** The last `startSession` response; None until a call returns. */
    var response: Option<SessionReturn>
    var result: ResultRecord

    constructor (username: string, password: string, wsdlAddress: string)
      ensures this.username == username && this.password == password && this.wsdlAddress == wsdlAddress
      ensures response.None?
      ensures result == DefaultResult()
    {
      response := None;
      new;
      SetUsername(username);
      SetPassword(password);
      SetWsdlAddress(wsdlAddress);
      SetDefaultResult();
    }

    method SetDefaultResult()
      modifies this`result
      ensures result == DefaultResult()
    {
      result := DefaultResult();
    }

    method SetUsername(username: string)
      modifies this`username
      ensures this.username == username
    {
      this.username := username;
    }

    method SetPassword(password: string)
      modifies this`password
      ensures this.password == password
    {
      this.password := password;
    }

    method SetWsdlAddress(wsdlAddress: string)
      modifies this`wsdlAddress
      ensures this.wsdlAddress == wsdlAddress
    {
      this.wsdlAddress := wsdlAddress;
    }

    method SetResponse(s: SessionReturn)
      modifies this`response
      ensures response == Some(s)
    {
      response := Some(s);
    }

    method SetResultCode(code: Option<ResultCode>)
      modifies this`result
      ensures result == old(result).(code := code)
    {
      result := result.(code := code);
    }

    /** Appends a message; none is ever removed. */
    method AddResultMessage(message: string)
      modifies this`result
      ensures result.messages == old(result.messages) + [message]
      ensures result.code == old(result.code) && result.identity == old(result.identity)
    {
      result := result.(messages := result.messages + [message]);
    }

    method SetResultIdentity(identity: Option<Identity>)
      modifies this`result
      ensures result == old(result).(identity := identity)
    {
      result := result.(identity := identity);
    }

    /**
     * authenticateOnAlfresco: sends the stored credentials to the stored WSDL
     * address. A returned response is stored; a thrown fault is handed back
     * (the `catch` of `authenticate` receives it) and nothing is stored.
     */
    method AuthenticateOnAlfresco(service: Service) returns (thrown: Option<Fault>)
      modifies this`response
      ensures var outcome := service(StartSession(wsdlAddress, username, password));
        match outcome
        case Response(s) => thrown.None? && response == Some(s)
        case Thrown(f) => thrown == Some(f) && response == old(response)
    {
      var outcome := service(StartSession(wsdlAddress, username, password));
      match outcome {
        case Response(s) =>
          SetResponse(s);
          thrown := None;
        case Thrown(f) =>
          thrown := Some(f);
      }
    }

    /** setApplicationUser: SUCCESS and the identity taken from the stored response. */
    method SetApplicationUser()
      requires response.Some?
      modifies this`result
      ensures result == old(result).(code := Some(Success), identity := Some(IdentityFromResponse(response.value)))
    {
      var code := Success;
      var identity := IdentityFromResponse(response.value);
      SetResultCode(Some(code));
      SetResultIdentity(Some(identity));
    }

    /**
     * throwAuthorizationError, with the fault passed to isConnectionFailure
     * and isAlfrescoError; the source calls both without it (see
     * ClassifyAsWritten).
     */
    method ThrowAuthorizationError(exception: Fault)
      modifies this`result
      ensures result == old(result).(code := Classify(exception))
    {
      var code := DefaultErrorCode();
      if IsConnectionFailure(Some(exception)) {
        code := Some(ConnectionFailureErrorCode());
      } else if IsAlfrescoError(Some(exception)) {
        code := Some(AlfrescoErrorCode(exception));
      }
      SetResultCode(code);
    }

    /**
     * authenticate: one remote call, then the success or fault path; the
     * fault is never re-raised and the result is read back from `_result`.
     */
    method Authenticate(service: Service) returns (r: AuthResult)
      modifies this`response, this`result
      ensures result == Attempt(old(result), service(StartSession(wsdlAddress, username, password)))
      ensures service(StartSession(wsdlAddress, username, password)).Response? ==>
                response == Some(service(StartSession(wsdlAddress, username, password)).startSessionReturn)
      ensures service(StartSession(wsdlAddress, username, password)).Thrown? ==> response == old(response)
      ensures r == ResultOf(result)
    {
      var thrown := AuthenticateOnAlfresco(service);
      if thrown.None? {
        SetApplicationUser();
      } else {
        ThrowAuthorizationError(thrown.value);
      }
      r := AuthResult(result.code, result.identity, result.messages);
    }
  }

  /**
   * A fresh adapter's result: the first attempt on the default record, with
   * the identity set exactly on SUCCESS and no messages.
   */
  method AuthenticateOnce(username: string, password: string, wsdlAddress: string, service: Service)
    returns (r: AuthResult)
    ensures r == ResultOf(Attempt(DefaultResult(), service(StartSession(wsdlAddress, username, password))))
    ensures r.identity.Some? <==> r.code == Some(Success)
    ensures r.messages == []
  {
    var adapter := new Adapter(username, password, wsdlAddress);
    r := adapter.Authenticate(service);
    FirstAttemptConsistent(service(StartSession(wsdlAddress, username, password)));
  }

  /**
   * Two independent adapters given the same arguments and the same service
   * return the same result: no state is shared between instances. This holds
   * for a service that answers the same request the same way; a live
   * `startSession` hands out a new ticket on every call.
   */
  method IndependentAdaptersAgree(username: string, password: string, wsdlAddress: string, service: Service)
    returns (first: AuthResult, second: AuthResult)
    ensures first == second
  {
    first := AuthenticateOnce(username, password, wsdlAddress, service);
    second := AuthenticateOnce(username, password, wsdlAddress, service);
  }
}

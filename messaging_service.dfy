/** `MessagingServiceImpl`: the commands the test bed sends to the service, as far
    as they validate input and touch the session registry. */
module Messaging {
  import opened GitbTypes
  import opened Registry
  import opened Sessions

  /** `INPUT__MESSAGE`: the name of the one input `send` expects. */
  const InputMessage: string := "messageToSend"
  /** `OUTPUT__MESSAGE`: the name of the message returned to the test bed. */
  const OutputMessage: string := "messageReceived"

  /** The message of the exception `send` raises for a wrong number of inputs. */
  const SingleInputExpected: string := "Only a single input is expected named [" + InputMessage + "]"

  /** A `SendRequest`: the session and the named inputs of the step. */
  datatype SendRequest = SendRequest(sessionId: string, input: seq<AnyContent>)
  /** A `SendResponse`: the report of the step. */
  datatype SendResponse = SendResponse(report: Report)
  /** The requests that carry only the session they are about (`ReceiveRequest`,
      `BeginTransactionRequest`, `BasicRequest`, `FinalizeRequest`), reduced to that. */
  datatype SessionRequest = SessionRequest(sessionId: string)

  /** GITB `UsageEnumeration`: required or optional. */
  datatype UsageEnumeration = R | O
  /** GITB `ConfigurationType`. */
  datatype ConfigurationType = SIMPLE | BINARY
  /** A parameter the module declares (`Utils.createParameter`). */
  datatype TypedParameter = TypedParameter(name: string, paramType: string, use: UsageEnumeration,
                                           kind: ConfigurationType, description: string)
  datatype Metadata = Metadata(name: string, version: string)
  datatype MessagingModule = MessagingModule(id: string, metadata: Metadata, inputs: seq<TypedParameter>)
  datatype ModuleDefinitionResponse = ModuleDefinitionResponse(messagingModule: MessagingModule)

  /** The `Void` object some commands return: an empty message, new for every call. */
  class Void {
    constructor ()
    {
    }
  }

  /** How many of `inputs` are named `name`. */
  function CountNamed(inputs: seq<AnyContent>, name: string): nat
    decreases |inputs|
  {
    if inputs == [] then 0
    else (if inputs[0].name == name then 1 else 0) + CountNamed(inputs[1..], name)
  }

  /** Counting over two lists of inputs put together adds up. */
  lemma {:induction false} CountNamedAppend(inputs: seq<AnyContent>, more: seq<AnyContent>, name: string)
    ensures CountNamed(inputs + more, name) == CountNamed(inputs, name) + CountNamed(more, name)
    decreases |inputs|
  {
    if inputs != [] {
      assert (inputs + more)[0] == inputs[0] && (inputs + more)[1..] == inputs[1..] + more;
      CountNamedAppend(inputs[1..], more, name);
    } else {
      assert inputs + more == more;
    }
  }

  /** The elements of a non-empty list: its first one and those of the rest. */
  lemma SplitFirst(inputs: seq<AnyContent>)
    requires inputs != []
    ensures multiset(inputs) == multiset{inputs[0]} + multiset(inputs[1..])
  {
    assert inputs == [inputs[0]] + inputs[1..];
  }

  /** `Utils.getInputsForName`: the inputs named `name`, in their order; each of
      them as often as the request holds it, and nothing else. */
  function InputsForName(inputs: seq<AnyContent>, name: string): (r: seq<AnyContent>)
    ensures |r| == CountNamed(inputs, name)
    ensures forall i :: 0 <= i < |r| ==> r[i].name == name
    ensures multiset(r) <= multiset(inputs)
    ensures forall c: AnyContent :: c.name == name ==> multiset(r)[c] == multiset(inputs)[c]
    decreases |inputs|
  {
    if inputs == [] then []
    else
      var rest := InputsForName(inputs[1..], name);
      SplitFirst(inputs);
      if inputs[0].name == name then [inputs[0]] + rest else rest
  }

  /** The inputs a (possibly null) send request carries. */
  function RequestInputs(parameters: Option<SendRequest>): seq<AnyContent>
  {
    if parameters.Some? then parameters.value.input else []
  }

  /** The list `getInput` builds: the inputs named `inputName`, empty for a null request. */
  function InputsOf(parameters: Option<SendRequest>, inputName: string): (r: seq<AnyContent>)
    ensures parameters.None? ==> r == []
    ensures |r| == CountNamed(RequestInputs(parameters), inputName)
  {
    if parameters.Some? then InputsForName(parameters.value.input, inputName) else []
  }

  /** `send`: refused unless exactly one input is named `messageToSend`, otherwise
      answered with a SUCCESS report. It depends on its request alone: no session
      is read or changed and no notification is made. */
  function Send(parameters: Option<SendRequest>): (r: Result<SendResponse>)
    ensures r.Err? <==> CountNamed(RequestInputs(parameters), InputMessage) != 1
    ensures r.Err? ==> r.error == IllegalArgument(SingleInputExpected)
    ensures r.Ok? ==> r.value.report.result == SUCCESS
  {
    var messageInput := InputsOf(parameters, InputMessage);
    if |messageInput| != 1 then Err(IllegalArgument(SingleInputExpected))
    else Ok(SendResponse(CreateReport(SUCCESS)))
  }

  /** Inputs under other names do not matter to `send`. */
  lemma SendIgnoresOtherInputs(sessionId: string, inputs: seq<AnyContent>, other: AnyContent)
    requires other.name != InputMessage
    ensures Send(Some(SendRequest(sessionId, inputs + [other]))) == Send(Some(SendRequest(sessionId, inputs)))
  {
    CountNamedAppend(inputs, [other], InputMessage);
    assert [other][1..] == [];
  }

  /** A request holding two messages to send, at any positions, is refused,
      whatever else it holds. */
  lemma {:induction false} SendRefusesTwoMessages(sessionId: string, inputs: seq<AnyContent>, i: nat, j: nat)
    requires i < j < |inputs|
    requires inputs[i].name == InputMessage && inputs[j].name == InputMessage
    ensures Send(Some(SendRequest(sessionId, inputs))) == Err(IllegalArgument(SingleInputExpected))
  {
    assert inputs == inputs[..j] + inputs[j..];
    CountNamedAppend(inputs[..j], inputs[j..], InputMessage);
    assert inputs[..j] == inputs[..i] + inputs[i..j];
    CountNamedAppend(inputs[..i], inputs[i..j], InputMessage);
  }

  /** A request whose only input is the message to send is accepted. */
  lemma SendAcceptsSingleMessage(sessionId: string, message: AnyContent)
    requires message.name == InputMessage
    ensures Send(Some(SendRequest(sessionId, [message]))).Ok?
  {
  }

  /** The service: its configured identity and the session registry it shares. */
  class MessagingService {
    const serviceId: string
    const serviceVersion: string
    const sessionManager: SessionManager

    constructor (serviceId: string, serviceVersion: string, sessionManager: SessionManager)
      ensures this.serviceId == serviceId && this.serviceVersion == serviceVersion
      ensures this.sessionManager == sessionManager
    {
      this.serviceId := serviceId;
      this.serviceVersion := serviceVersion;
      this.sessionManager := sessionManager;
    }

    /** `getModuleDefinition`: the module carries the service's id, as id and as
        name, and its version, and declares two optional simple string inputs,
        the message to send and then the message received. */
    method GetModuleDefinition() returns (response: ModuleDefinitionResponse)
      ensures response.messagingModule.id == serviceId
      ensures response.messagingModule.metadata == Metadata(serviceId, serviceVersion)
      ensures |response.messagingModule.inputs| == 2
      ensures response.messagingModule.inputs[0].name == InputMessage
      ensures response.messagingModule.inputs[1].name == OutputMessage
      ensures forall p :: p in response.messagingModule.inputs ==>
        p.paramType == "string" && p.use == O && p.kind == SIMPLE
      ensures response.messagingModule.inputs[0].description == "The message to send."
      ensures response.messagingModule.inputs[1].description == "The received message."
    {
      var id := serviceId;
      var metadata := Metadata(id, serviceVersion);
      var inputs: seq<TypedParameter> := [];
      inputs := inputs + [TypedParameter(InputMessage, "string", O, SIMPLE, "The message to send.")];
      inputs := inputs + [TypedParameter(OutputMessage, "string", O, SIMPLE, "The received message.")];
      response := ModuleDefinitionResponse(MessagingModule(id, metadata, inputs));
    }

    /** `getInput`: a list that is never null, empty for a null request, holding the
        request's inputs named `inputName`. */
    method GetInput(parameters: Option<SendRequest>, inputName: string) returns (inputs: seq<AnyContent>)
      ensures inputs == InputsOf(parameters, inputName)
      ensures parameters.None? ==> inputs == []
      ensures |inputs| == CountNamed(RequestInputs(parameters), inputName)
    {
      inputs := [];
      if parameters.Some? {
        inputs := inputs + InputsForName(parameters.value.input, inputName);
      }
    }

    /** `receive`: a new `Void`; the registry is left as it is. */
    method Receive(parameters: SessionRequest) returns (r: Void)
      ensures fresh(r)
      ensures unchanged(sessionManager)
    {
      r := new Void();
    }

    /** `beginTransaction`: a new `Void`; the registry is left as it is. */
    method BeginTransaction(parameters: SessionRequest) returns (r: Void)
      ensures fresh(r)
      ensures unchanged(sessionManager)
    {
      r := new Void();
    }

    /** `endTransaction`: a new `Void`; the registry is left as it is. */
    method EndTransaction(parameters: SessionRequest) returns (r: Void)
      ensures fresh(r)
      ensures unchanged(sessionManager)
    {
      r := new Void();
    }

    /** `finalize`: the session is destroyed, so every later lookup for it answers
        null; the other sessions are kept. */
    method Finalize(parameters: SessionRequest) returns (r: Void)
      modifies sessionManager`sessions
      ensures sessionManager.sessions == Destroyed(old(sessionManager.sessions), parameters.sessionId)
      ensures forall key :: Lookup(sessionManager.sessions, parameters.sessionId, key) == Null
      ensures fresh(r)
    {
      sessionManager.DestroySession(parameters.sessionId);
      r := new Void();
    }
  }

  /** A session's life as the test bed drives it, from what the contracts alone say:
      the callback is recorded, a value set on the session is read back, `send` and
      the transaction markers leave the session alone, and after `finalize` (done
      twice) the session answers null. */
  method SessionLifecycle(service: MessagingService, callbackUrl: string, message: AnyContent, value: Value)
    requires message.name == InputMessage
    modifies service.sessionManager`sessions
  {
    var manager := service.sessionManager;
    var created := manager.CreateSession(Some(callbackUrl));
    var id := created.value;
    var cb := manager.GetSessionInfo(id, CallbackUrl);
    assert cb == Str(callbackUrl);

    var stored := manager.SetSessionInfo(id, "state", value);
    assert stored == Returned;
    var read := manager.GetSessionInfo(id, "state");
    assert read == value;

    SendAcceptsSingleMessage(id, message);
    var sent := Send(Some(SendRequest(id, [message])));
    assert sent.Ok? && sent.value.report.result == SUCCESS;
    var began := service.BeginTransaction(SessionRequest(id));
    var ended := service.EndTransaction(SessionRequest(id));
    read := manager.GetSessionInfo(id, "state");
    assert read == value;

    var done := service.Finalize(SessionRequest(id));
    done := service.Finalize(SessionRequest(id));
    cb := manager.GetSessionInfo(id, CallbackUrl);
    assert cb == Null;
    var lost := manager.SetSessionInfo(id, "state", value);
    assert lost == Threw(NullPointer) && id !in manager.sessions;
  }
}

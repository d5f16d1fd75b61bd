/** The adaptor between the host runtime's Secrets Manager client object and the
    AWS SDK client: choosing the credentials provider, creating and storing the SDK
    client, the three remote operations and closing. Every SDK call is an abstract
    outcome (a function parameter returning `Attempt`), and every fault it raises
    comes back to the caller as an `Error` value whose message names the failing
    operation. */
module NativeClientAdaptor {
  import opened Wrappers
  import opened ConnectionConfig

  // ---------------------------------------------------------------- credentials

  /** Credentials handed to a static provider. */
  datatype Credentials =
    | BasicCredentials(accessKeyId: string, secretAccessKey: string)
    | SessionCredentials(accessKeyId: string, secretAccessKey: string, sessionToken: string)

  /** The four credential-acquisition strategies. */
  datatype CredentialsProvider =
    | StaticProvider(credentials: Credentials)
    | ContainerProvider
    | InstanceProfileProvider

  /** Static auth with a session token gives session credentials, without one basic
      credentials, both carrying the configured values unchanged and wrapped in a
      fixed provider; the ECS container role gives the container provider and
      every other auth the instance-profile provider. */
  function GetCredentialsProvider(auth: AuthConfig): (p: CredentialsProvider)
    ensures p.StaticProvider? <==> auth.Static?
    ensures auth.Static? ==>
              && p.credentials.accessKeyId == auth.credentials.accessKeyId
              && p.credentials.secretAccessKey == auth.credentials.secretAccessKey
    ensures auth.Static? ==> (p.credentials.SessionCredentials? <==> auth.credentials.sessionToken.Some?)
    ensures auth.Static? && auth.credentials.sessionToken.Some? ==>
              p.credentials.sessionToken == auth.credentials.sessionToken.value
    ensures p == ContainerProvider <==> auth == EcsContainerRole
    ensures p == InstanceProfileProvider <==> auth == Ec2IamRole
  {
    if auth.Static? then
      var staticAuth := auth.credentials;
      var credentials :=
        if staticAuth.sessionToken.Some? then
          SessionCredentials(staticAuth.accessKeyId, staticAuth.secretAccessKey, staticAuth.sessionToken.value)
        else
          BasicCredentials(staticAuth.accessKeyId, staticAuth.secretAccessKey);
      StaticProvider(credentials)
    else if auth == EcsContainerRole then
      ContainerProvider
    else
      InstanceProfileProvider
  }

  /** The auth configuration a provider was chosen for: the inverse of
      GetCredentialsProvider. */
  function AuthFor(p: CredentialsProvider): AuthConfig {
    match p
    case StaticProvider(BasicCredentials(accessKeyId, secretAccessKey)) =>
      Static(StaticAuth(accessKeyId, secretAccessKey, None))
    case StaticProvider(SessionCredentials(accessKeyId, secretAccessKey, sessionToken)) =>
      Static(StaticAuth(accessKeyId, secretAccessKey, Some(sessionToken)))
    case ContainerProvider => EcsContainerRole
    case InstanceProfileProvider => Ec2IamRole
  }

  /** The choice of provider loses nothing and every provider is chosen for
      exactly one auth configuration: the two functions are inverse bijections. */
  lemma ProviderRoundTrip(auth: AuthConfig, p: CredentialsProvider)
    ensures AuthFor(GetCredentialsProvider(auth)) == auth
    ensures GetCredentialsProvider(AuthFor(p)) == p
  {
  }

  /** From the raw `auth` value to the provider: the exact ECS tag selects the
      container provider, and every other non-map value (other strings, `null`,
      values of other types) the instance-profile provider, never an error. */
  lemma ProviderForAuthInput(authConfig: AuthInput)
    requires !authConfig.MapValue?
    ensures GetAuth(authConfig).Returned?
    ensures GetCredentialsProvider(GetAuth(authConfig).value) ==
              if authConfig == StringValue(EcsContainerRoleTag) then ContainerProvider else InstanceProfileProvider
  {
  }

  // ---------------------------------------------------------------- errors

  /** The operations whose faults are reported; each has its own message prefix. */
  datatype Operation = Initializing | DescribingSecret | GettingSecretValue | BatchGettingSecretValue | Closing

  /** The start every error message shares. */
  const ErrorHead := "Error occurred while "

  /** The operation's own prefix, which the fault's message follows. Each is the
      source's literal, split into a shared head and phrases only so that the
      prover can index the pieces (see PrefixMarks). */
  function Prefix(op: Operation): string {
    ErrorHead +
    match op
    case Initializing => "initializing the AWS secret manager client: "
    case DescribingSecret => "executing " + "describe-secret request: "
    case GettingSecretValue => "executing " + "get-secret-value request: "
    case BatchGettingSecretValue => "executing " + "batch-get-secret-value request: "
    case Closing => "closing the AWS secret manager client: "
  }

  /** The uniform error value returned to the caller: a message and the message of
      the fault that caused it. */
  datatype Error = Error(message: string, cause: string)

  /** The error reported when `op` fails with a fault whose message is `cause`. */
  function OperationError(op: Operation, cause: string): (e: Error)
    ensures e.cause == cause
    ensures Prefix(op) <= e.message && e.message[|Prefix(op)|..] == cause
  {
    Error(Prefix(op) + cause, cause)
  }

  /** What a boundary-facing function returns: a value or an error, never a raised
      exception. */
  datatype Result<+T> = Success(value: T) | Failure(error: Error)

  /** The catch clause shared by every operation: a returned value is passed on,
      a thrown fault becomes the operation's error. */
  function Respond<T>(op: Operation, outcome: Attempt<T>): (r: Result<T>)
    ensures r.Success? <==> outcome.Returned?
    ensures r.Success? ==> r.value == outcome.value
    ensures r.Failure? ==> r.error == OperationError(op, outcome.message)
  {
    match outcome
    case Returned(value) => Success(value)
    case Threw(message) => Failure(OperationError(op, message))
  }

  /** Recovers the operation and the cause from an error message, trying the
      prefixes in turn. */
  function ParseErrorMessage(message: string): Option<(Operation, string)> {
    if Prefix(Initializing) <= message then Some((Initializing, message[|Prefix(Initializing)|..]))
    else if Prefix(DescribingSecret) <= message then Some((DescribingSecret, message[|Prefix(DescribingSecret)|..]))
    else if Prefix(GettingSecretValue) <= message then Some((GettingSecretValue, message[|Prefix(GettingSecretValue)|..]))
    else if Prefix(BatchGettingSecretValue) <= message then Some((BatchGettingSecretValue, message[|Prefix(BatchGettingSecretValue)|..]))
    else if Prefix(Closing) <= message then Some((Closing, message[|Prefix(Closing)|..]))
    else None
  }

  /** The two characters at which the prefixes part ways: the verb (position 21)
      and, among the three remote operations, the operation name (position 31). */
  function Marks(op: Operation): (char, char) {
    match op
    case Initializing => ('i', 'n')
    case DescribingSecret => ('e', 'd')
    case GettingSecretValue => ('e', 'g')
    case BatchGettingSecretValue => ('e', 'b')
    case Closing => ('c', 'e')
  }

  lemma PrefixMarks(op: Operation)
    ensures |Prefix(op)| > 31
    ensures Prefix(op)[21] == Marks(op).0 && Prefix(op)[31] == Marks(op).1
  {
    assert |ErrorHead| == 21;
    var executing := "executing ";
    assert |executing| == 10 && executing[0] == 'e';
    match op
    case Initializing =>
      var phrase := "initializing the AWS secret manager client: ";
      assert Prefix(op) == ErrorHead + phrase;
      assert phrase[0] == 'i' && phrase[10] == 'n';
    case DescribingSecret =>
      var name := "describe-secret request: ";
      assert Prefix(op) == ErrorHead + (executing + name);
      assert name[0] == 'd';
    case GettingSecretValue =>
      var name := "get-secret-value request: ";
      assert Prefix(op) == ErrorHead + (executing + name);
      assert name[0] == 'g';
    case BatchGettingSecretValue =>
      var name := "batch-get-secret-value request: ";
      assert Prefix(op) == ErrorHead + (executing + name);
      assert name[0] == 'b';
    case Closing =>
      var phrase := "closing the AWS secret manager client: ";
      assert Prefix(op) == ErrorHead + phrase;
      assert phrase[0] == 'c' && phrase[10] == 'e';
  }

  /** No operation's prefix starts another operation's error message. */
  lemma PrefixesDiverge(op: Operation, other: Operation, cause: string)
    requires op != other
    ensures !(Prefix(other) <= Prefix(op) + cause)
  {
    PrefixMarks(op);
    PrefixMarks(other);
    var m := Prefix(op) + cause;
    assert m[21] == Prefix(op)[21] && m[31] == Prefix(op)[31];
    assert Marks(op) != Marks(other);
  }

  /** Every error message names the operation that failed and carries the cause
      unchanged: parsing an operation's error message gives both back, and no
      other operation's prefix starts it. */
  lemma {:induction false} ErrorNamesOperation(op: Operation, cause: string)
    ensures ParseErrorMessage(OperationError(op, cause).message) == Some((op, cause))
    ensures forall other :: other != op ==> !(Prefix(other) <= OperationError(op, cause).message)
  {
    var m := OperationError(op, cause).message;
    assert m == Prefix(op) + cause;
    assert m[|Prefix(op)|..] == cause;
    if op != Initializing { PrefixesDiverge(op, Initializing, cause); }
    if op != DescribingSecret { PrefixesDiverge(op, DescribingSecret, cause); }
    if op != GettingSecretValue { PrefixesDiverge(op, GettingSecretValue, cause); }
    if op != BatchGettingSecretValue { PrefixesDiverge(op, BatchGettingSecretValue, cause); }
    forall other | other != op ensures !(Prefix(other) <= m) {
      PrefixesDiverge(op, other, cause);
    }
  }

  /** Errors of different operations are never equal, whatever their causes. */
  lemma ErrorsOfOperationsDiffer(op: Operation, other: Operation, cause: string, otherCause: string)
    requires op != other
    ensures OperationError(op, cause) != OperationError(other, otherCause)
  {
  }

  // ---------------------------------------------------------------- client

  /** An SDK client, bound to a region and a credentials provider. */
  datatype Client = Client(region: Region, credentialsProvider: CredentialsProvider)

  /** An arbitrary stand-in for the message of the null-pointer exception raised by
      calling the client when the handle holds none. The runtime's own text (a
      sentence that differs per call site) is not modelled; no property below
      depends on this value. */
  const NullClientMessage := "null"

  /** The try block of `init`: decode the configuration, choose the provider and
      build the client. `build` is the SDK builder's outcome for the settings. */
  function BuildClient(configurations: Configurations, build: Client -> Attempt<()>): (r: Attempt<Client>)
    ensures r.Returned? ==> FromConfigurations(configurations).Returned? && build(r.value).Returned?
    ensures r.Returned? ==>
              && r.value.region == GetRegion(configurations.region.value)
              && r.value.credentialsProvider == GetCredentialsProvider(GetAuth(configurations.auth).value)
    ensures FromConfigurations(configurations).Threw? ==> r == Threw(FromConfigurations(configurations).message)
    ensures FromConfigurations(configurations).Returned? && r.Threw? ==>
              var client := Client(GetRegion(configurations.region.value),
                                   GetCredentialsProvider(GetAuth(configurations.auth).value));
              build(client).Threw? && r.message == build(client).message
  {
    match FromConfigurations(configurations)
    case Threw(message) => Threw(message)
    case Returned(connectionConfig) =>
      var credentialsProvider := GetCredentialsProvider(connectionConfig.auth);
      var client := Client(connectionConfig.region, credentialsProvider);
      match build(client)
      case Threw(message) => Threw(message)
      case Returned(_) => Returned(client)
  }

  /** The request of the describe-secret operation. */
  datatype DescribeSecretRequest = DescribeSecretRequest(secretId: string)

  /** The host runtime's client object, seen through the one piece of native data
      the adaptor keeps on it: the SDK client stored under `NATIVE_CLIENT`. */
  class ClientHandle {
    var nativeClient: Option<Client>

    /** A fresh client object holds no SDK client. */
    constructor ()
      ensures nativeClient == None
    {
      nativeClient := None;
    }

    /** Builds the SDK client from the configuration and stores it as the last
        step, returning success; on any fault nothing is stored and the error
        carries the initialisation prefix and the fault's message. */
    method Init(configurations: Configurations, build: Client -> Attempt<()>) returns (r: Result<()>)
      modifies this
      ensures r.Success? <==> BuildClient(configurations, build).Returned?
      ensures r.Success? ==> nativeClient == Some(BuildClient(configurations, build).value)
      ensures r.Failure? ==> nativeClient == old(nativeClient)
      ensures r.Failure? ==> r.error == OperationError(Initializing, BuildClient(configurations, build).message)
    {
      var connectionConfig := FromConfigurations(configurations);
      if connectionConfig.Threw? {
        return Failure(OperationError(Initializing, connectionConfig.message));
      }
      var credentialsProvider := GetCredentialsProvider(connectionConfig.value.auth);
      var client := Client(connectionConfig.value.region, credentialsProvider);
      var built := build(client);
      if built.Threw? {
        return Failure(OperationError(Initializing, built.message));
      }
      nativeClient := Some(client);
      r := Success(());
    }

    /** Describes a secret through the stored client. The converted response on
        success; otherwise an error with the describe-secret prefix, also when
        no client is stored. */
    method DescribeSecret<Resp>(secretId: string, describe: (Client, DescribeSecretRequest) -> Attempt<Resp>)
      returns (r: Result<Resp>)
      ensures r.Success? <==> nativeClient.Some? && describe(nativeClient.value, DescribeSecretRequest(secretId)).Returned?
      ensures r.Success? ==> r.value == describe(nativeClient.value, DescribeSecretRequest(secretId)).value
      ensures nativeClient.None? ==> r == Failure(OperationError(DescribingSecret, NullClientMessage))
      ensures nativeClient.Some? && r.Failure? ==>
                r.error == OperationError(DescribingSecret, describe(nativeClient.value, DescribeSecretRequest(secretId)).message)
    {
      var client := nativeClient;
      var request := DescribeSecretRequest(secretId);
      var outcome := if client.Some? then describe(client.value, request) else Threw(NullClientMessage);
      r := Respond(DescribingSecret, outcome);
    }

    /** Gets a secret value through the stored client; the request is the one
        already converted from the secret id and version selector. */
    method GetSecretValue<Req, Resp>(request: Req, getSecretValue: (Client, Req) -> Attempt<Resp>)
      returns (r: Result<Resp>)
      ensures r.Success? <==> nativeClient.Some? && getSecretValue(nativeClient.value, request).Returned?
      ensures r.Success? ==> r.value == getSecretValue(nativeClient.value, request).value
      ensures nativeClient.None? ==> r == Failure(OperationError(GettingSecretValue, NullClientMessage))
      ensures nativeClient.Some? && r.Failure? ==>
                r.error == OperationError(GettingSecretValue, getSecretValue(nativeClient.value, request).message)
    {
      var client := nativeClient;
      var outcome := if client.Some? then getSecretValue(client.value, request) else Threw(NullClientMessage);
      r := Respond(GettingSecretValue, outcome);
    }

    /** Gets several secret values in one request through the stored client. */
    method BatchGetSecretValue<Req, Resp>(request: Req, batchGetSecretValue: (Client, Req) -> Attempt<Resp>)
      returns (r: Result<Resp>)
      ensures r.Success? <==> nativeClient.Some? && batchGetSecretValue(nativeClient.value, request).Returned?
      ensures r.Success? ==> r.value == batchGetSecretValue(nativeClient.value, request).value
      ensures nativeClient.None? ==> r == Failure(OperationError(BatchGettingSecretValue, NullClientMessage))
      ensures nativeClient.Some? && r.Failure? ==>
                r.error == OperationError(BatchGettingSecretValue, batchGetSecretValue(nativeClient.value, request).message)
    {
      var client := nativeClient;
      var outcome := if client.Some? then batchGetSecretValue(client.value, request) else Threw(NullClientMessage);
      r := Respond(BatchGettingSecretValue, outcome);
    }

    /** Closes the stored client. Success when closing returns; otherwise an error
        with the closing prefix, also when no client is stored. The handle itself
        is left as it was: the closed client stays stored. */
    method Close(close: Client -> Attempt<()>) returns (r: Result<()>)
      ensures r.Success? <==> nativeClient.Some? && close(nativeClient.value).Returned?
      ensures nativeClient.None? ==> r == Failure(OperationError(Closing, NullClientMessage))
      ensures nativeClient.Some? && r.Failure? ==> r.error == OperationError(Closing, close(nativeClient.value).message)
    {
      var client := nativeClient;
      var outcome := if client.Some? then close(client.value) else Threw(NullClientMessage);
      r := Respond(Closing, outcome);
    }
  }

  /** The lifecycle of one fresh client object: after a successful initialisation,
      close succeeds exactly when the SDK's close returns and otherwise reports the
      closing error of its fault; after a failed initialisation no client is
      stored, so close reports the closing error instead of crashing. */
  method InitThenClose(configurations: Configurations, build: Client -> Attempt<()>, close: Client -> Attempt<()>)
    returns (initialised: Result<()>, closed: Result<()>)
    ensures initialised.Success? <==> BuildClient(configurations, build).Returned?
    ensures initialised.Success? ==> (closed.Success? <==> close(BuildClient(configurations, build).value).Returned?)
    ensures initialised.Success? && closed.Failure? ==>
              closed.error == OperationError(Closing, close(BuildClient(configurations, build).value).message)
    ensures initialised.Failure? ==> closed == Failure(OperationError(Closing, NullClientMessage))
  {
    var handle := new ClientHandle();
    initialised := handle.Init(configurations, build);
    closed := handle.Close(close);
  }
}

# AWS Secrets Manager connector: native adaptor model

A Dafny model of the Java side of the Ballerina AWS Secrets Manager connector.
It covers the two pieces of logic the adaptor contains:

- **Connection configuration** (`ConnectionConfig`, file `connection_config.dfy`).
  The configuration map passed to `init` is decoded into a region and an auth configuration.
  The region string is looked up, first match first, in the ordered list of the five global SDK regions.
  An exact id match gives that canonical constant.
  Any other string gives a region built from the unmodified string.
  The `auth` value is classified three ways:
  a map gives static credentials;
  the exact string `ECS_CONTAINER_ROLE` gives the ECS container role;
  anything else, `null` included, gives the EC2 IAM role.
- **Native client adaptor** (`NativeClientAdaptor`, file `native_client_adaptor.dfy`).
  The auth configuration selects one of four credentials providers.
  The class `ClientHandle` stands for the runtime object on which `init` stores the SDK client (the `NATIVE_CLIENT` native data).
  Its methods model `init`, `describeSecret`, `getSecretValue`, `batchGetSecretValue` and `close`.
  Every one of them returns a value or an `Error`, never a raised exception.
  The error's message is the operation's fixed prefix followed by the fault's message, and its cause is the fault's message.

Every call into the SDK or the host runtime is an abstract outcome, `Attempt<T> = Returned(value) | Threw(message)`.
These calls are: reading `region`, parsing a static-credentials map, building the client, the three remote calls with their response conversion, and closing.
The remote calls and `close` are function parameters of the client, so their outcome may depend on the client and the request.
`Wrappers` (file `wrappers.dfy`) holds `Option` (Java `null`) and `Attempt`.

Three details of the code's lifecycle that the model keeps:

- A failed `init` stores nothing, so a client stored by an earlier successful `init` stays in place. It is not cleared.
- `close` closes the SDK client but does not remove it from the runtime object. `Close` has no `modifies` clause, so the handle keeps its client.
- An operation or `close` on a handle with no client dereferences `null` inside the `try`. The caller therefore gets that operation's error and never a crash.

## Model

| member | source | states |
|---|---|---|
| `ConnectionConfig.GlobalRegionsListed` | native/src/main/java/io/ballerina/lib/aws/secretmanager/ConnectionConfig.java:35-37 | the global list names each of the five global constants exactly once |
| `ConnectionConfig.GlobalIdsDistinct` | native/src/main/java/io/ballerina/lib/aws/secretmanager/ConnectionConfig.java:35-37 | no two global constants share an id, so at most one can match a string |
| `ConnectionConfig.FirstMatch` | native/src/main/java/io/ballerina/lib/aws/secretmanager/ConnectionConfig.java:51-52 | filter + find-first: the result is the first position whose id equals the string; every earlier position does not match; the list length means no match |
| `ConnectionConfig.GetRegion` | native/src/main/java/io/ballerina/lib/aws/secretmanager/ConnectionConfig.java:49-53 | a string equal to a global id gives that canonical constant; a string equal to none gives a region built from the unmodified string; the result's id is always the input string |
| `ConnectionConfig.GetRegionOfId` | native/src/main/java/io/ballerina/lib/aws/secretmanager/ConnectionConfig.java:49-53 | every region the lookup can produce is given back when its own id is looked up (the lookup is a bijection onto canonical regions) |
| `ConnectionConfig.GetAuth` | native/src/main/java/io/ballerina/lib/aws/secretmanager/ConnectionConfig.java:56-65 | a map gives static auth with exactly the parsed fields (or the parse's fault); the exact case-sensitive ECS tag gives the ECS container role; every other value, including `null`, other strings and other types, gives the EC2 IAM role; the outcomes are total and exclusive (stated as iffs) |
| `ConnectionConfig.FromConfigurations` | native/src/main/java/io/ballerina/lib/aws/secretmanager/ConnectionConfig.java:42-47 | the record holds the region decided by the `region` entry alone and the auth decided by the `auth` entry alone; it fails exactly when reading the region or parsing the auth map throws, and the region's fault is reported first |
| `NativeClientAdaptor.GetCredentialsProvider` | native/src/main/java/io/ballerina/lib/aws/secretmanager/NativeClientAdaptor.java:79-91 | static auth gives a fixed provider whose credentials carry the access key and secret key unchanged; they are session credentials carrying the token exactly when a token is present, and basic ones otherwise; the ECS role and only it gives the container provider; the EC2 role and only it gives the instance-profile provider |
| `NativeClientAdaptor.ProviderRoundTrip` | native/src/main/java/io/ballerina/lib/aws/secretmanager/NativeClientAdaptor.java:79-91 | provider selection and its inverse `AuthFor` compose to the identity in both directions: no auth detail is lost and each provider belongs to exactly one auth |
| `NativeClientAdaptor.ProviderForAuthInput` | native/src/main/java/io/ballerina/lib/aws/secretmanager/NativeClientAdaptor.java:87-90 | for any non-map `auth` value decoding never fails; the exact ECS tag ends in the container provider and every other value in the instance-profile provider |
| `NativeClientAdaptor.OperationError` | native/src/main/java/io/ballerina/lib/aws/secretmanager/NativeClientAdaptor.java:113-115 | the error message starts with the operation's prefix, and the rest of the message is the fault's message; the cause is the fault's message |
| `NativeClientAdaptor.Respond` | native/src/main/java/io/ballerina/lib/aws/secretmanager/NativeClientAdaptor.java:109-116 | the catch discipline: success exactly when the call returned, with its value unchanged; otherwise the operation's error for the fault |
| `NativeClientAdaptor.ErrorNamesOperation` | native/src/main/java/io/ballerina/lib/aws/secretmanager/NativeClientAdaptor.java:72-73 | parsing any operation's error message gives back that operation and the cause; no other operation's prefix starts it |
| `NativeClientAdaptor.ErrorsOfOperationsDiffer` | native/src/main/java/io/ballerina/lib/aws/secretmanager/NativeClientAdaptor.java:63-192 | errors of two different operations are never equal, whatever their causes |
| `NativeClientAdaptor.BuildClient` | native/src/main/java/io/ballerina/lib/aws/secretmanager/NativeClientAdaptor.java:65-70 | the built client is bound to the decoded region and to the provider chosen for the decoded auth, and exists only when decoding and building both returned; a decoding fault, or else the builder's fault, is what is reported |
| `NativeClientAdaptor.ClientHandle.Init` | native/src/main/java/io/ballerina/lib/aws/secretmanager/NativeClientAdaptor.java:63-77 | on success the built client is stored and success returned; on any fault nothing is stored (the handle is unchanged) and the error carries the initialising prefix and the fault's message |
| `NativeClientAdaptor.ClientHandle.DescribeSecret` | native/src/main/java/io/ballerina/lib/aws/secretmanager/NativeClientAdaptor.java:103-118 | success exactly when a client is stored and its describe call returns, with that response; otherwise the describe-secret error of the SDK's fault, or of the null dereference when no client is stored |
| `NativeClientAdaptor.ClientHandle.GetSecretValue` | native/src/main/java/io/ballerina/lib/aws/secretmanager/NativeClientAdaptor.java:130-146 | the same discipline with the get-secret-value prefix |
| `NativeClientAdaptor.ClientHandle.BatchGetSecretValue` | native/src/main/java/io/ballerina/lib/aws/secretmanager/NativeClientAdaptor.java:157-173 | the same discipline with the batch-get-secret-value prefix |
| `NativeClientAdaptor.ClientHandle.Close` | native/src/main/java/io/ballerina/lib/aws/secretmanager/NativeClientAdaptor.java:181-192 | success exactly when a client is stored and closing it returns; otherwise the closing error of the fault, also on a handle with no client; the handle is not changed |
| `NativeClientAdaptor.InitThenClose` | native/src/main/java/io/ballerina/lib/aws/secretmanager/NativeClientAdaptor.java:181-192 | on a fresh handle, close after a successful init succeeds exactly when the SDK's close returns, and otherwise reports the closing error of the close fault; close after a failed init reports the closing error instead of crashing |

## Left out

- The SDK itself is not modelled: client building, the three network calls, `Region.of` (including its own validation of the id; the source calls it eagerly on every region string, even one that matches a global id, so an id it rejects would become an `init` error), and the refreshing and metadata polling of the container and instance-profile providers. Each is an abstract outcome or a plain value.
- The text of the global region ids is the SDK's. The proofs use only the fact that the ids differ.
- Scheduling is not modelled: `env.yieldAndRun` and the cached worker pool only decide where the call runs, not what it returns.
- The request and response conversions of `CommonUtils` and the field parsing of `StaticAuthConfig` are not part of this model. A map's parse outcome is an input. `GetSecretValue` and `BatchGetSecretValue` take the already-converted request. The responses are passed on as the outcome's value.
- A fault in the request conversion of `getSecretValue` and `batchGetSecretValue` is not modelled. That conversion runs outside the `try`, so such a fault would propagate.
- The text of the null-pointer exception's message is not modelled. `NullClientMessage` stands for it.
- A `null` exception message, which the source formats as `null`, is not distinguished from a string. `Attempt.Threw` always carries a string.
- The exception object kept as the error's cause is reduced to its message.
- The batch cap of 20 secrets and the exclusivity of `versionId` and `versionStage` are enforced by the service, not by this code.

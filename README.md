# Dynatrace transmission pipeline — a Dafny model

This project models the Dynatrace output path of the Azure Network Watcher
NSG flow-log connector (`NwNsgProject/obDynatrace.cs`). The path has three
parts:

- **Batcher** (`convertToDynatraceList`). Each event group becomes exactly
  one payload string. The payload is the group's serialized messages, in
  order, with nothing between them and no enclosing array.
- **Coordinator** (`obDynatrace`). It refuses to work without a URL and an
  API token. It then pulls the payloads one at a time and posts each one. It
  adds a payload's length to an `int` counter only after a 200 OK. The first
  payload that is not accepted aborts the run with a wrapped exception.
- **Certificate callback** (`ValidateDtCert`). With no thumbprint configured
  it accepts every certificate. Otherwise it accepts exactly the certificate
  whose hash string equals the configured thumbprint.

Modelling choices:

- Messages have an arbitrary type `M`. The JSON serializer is a parameter
  `serialize: M -> string`.
- The HTTP send is an oracle `send(i, payload)`. It gives the outcome of the
  `i`-th send attempt: a response with its status and reason phrase, an
  `HttpRequestException`, or any other exception.
- The model performs the `status != OK` test itself. So any status other than
  200, including other 2xx codes, aborts the run, as in the code.
- The coordinator's method returns the run's result together with the
  payloads whose send it attempted, in order, which is the run's observable
  trace. A payload whose attempt failed while the request was being built
  (lines 52-56) is in that trace although nothing reached Dynatrace. The
  function `DynatraceCoordinator.Run` states the whole intended outcome
  declaratively: it finds the first undelivered payload, if any, and derives
  the result and the trace from it. The loop in `ObDynatrace` is proved equal
  to it, and the `Run*` lemmas state the properties of that outcome.
- The coordinator pulls one group at a time through `BatchGroup`. This
  mirrors the iterator's `yield return`: after a failure, later groups are
  neither batched nor sent. `ConvertToDynatraceList` is the iterator's whole
  output, collected.
- `bytesSent` is a C# `int` updated with `+=` in the default unchecked
  context. The model wraps it to 32 bits explicitly (`Int32.ToInt32`) and
  proves that the count is exact while the total fits an `int`.

Three facts about the code that the model keeps:

- `MAXTRANSMISSIONSIZE` only sets the `StringBuilder` capacity (line 82),
  which is a hint. Nothing splits or bounds a payload, and the model proves a
  payload's length is the full serialized length whatever the capacity.
- The count adds `transmission.Length` (line 71). That is the number of
  UTF-16 code units of the payload, not its UTF-8 byte count. The model counts
  the same way (`Utf16.Length`): a character outside the Basic Multilingual
  Plane counts twice.
- A payload is counted only after a 200 OK. Any other outcome throws, so a
  failed run returns no count at all.

## Model

| member | source | states |
|---|---|---|
| `Utf16.Length` | NwNsgProject/obDynatrace.cs:71 | `transmission.Length` counts UTF-16 code units, one per character plus one more for each character outside the Basic Multilingual Plane: between one and two per character, and exactly one per character iff every character is in that plane |
| `Utf16.SurrogatePairCountsTwice` | NwNsgProject/obDynatrace.cs:71 | a one-character payload holding U+1F600 has a `Length` of 2 |
| `Int32.ToInt32` | NwNsgProject/obDynatrace.cs:71 | the unchecked `int` result of an addition: in the 32-bit range, congruent to the exact value modulo 2^32, and equal to it when it fits |
| `Int32.AddWrapped` | NwNsgProject/obDynatrace.cs:45-73 | wrapping after every `+=` gives the same value as wrapping the exact total once |
| `DynatraceBatcher.ConcatSnoc` | NwNsgProject/obDynatrace.cs:92 | appending one serialized message extends the payload by exactly that text |
| `DynatraceBatcher.ConcatAppend` | NwNsgProject/obDynatrace.cs:86-94 | the payload of two concatenated message runs is their payloads side by side: no separator is inserted |
| `DynatraceBatcher.ConcatLength` | NwNsgProject/obDynatrace.cs:81-94 | the payload's length is the sum of the serialized messages' lengths, so nothing is truncated |
| `DynatraceBatcher.MessageAt` | NwNsgProject/obDynatrace.cs:86-94 | message i's serialized text appears verbatim in the payload, starting right after the text of the messages before it, so order is preserved |
| `DynatraceBatcher.PayloadsAt` | NwNsgProject/obDynatrace.cs:78-101 | the batcher's output has one payload per group, and payload i is group i's concatenation |
| `DynatraceBatcher.BatchGroup` | NwNsgProject/obDynatrace.cs:81-95 | the buffer filled for one group holds the in-order concatenation of its serialized messages, of full length, whatever the capacity hint |
| `DynatraceBatcher.ConvertToDynatraceList` | NwNsgProject/obDynatrace.cs:76-102 | exactly one payload per group, in input order, each the group's concatenation; an empty group yields the empty string |
| `DynatraceCoordinator.Classify` | NwNsgProject/obDynatrace.cs:58-70 | a non-OK status and a transport `HttpRequestException` both surface with the "service running?" wrapper, keeping as inner cause the status and reason or the transport exception respectively; any other exception surfaces as "unplanned" |
| `DynatraceCoordinator.FirstFailure` | NwNsgProject/obDynatrace.cs:47-72 | the index of the first payload whose send is not a 200 OK: every earlier send was delivered, and this one (if any) was not |
| `DynatraceCoordinator.ObDynatrace` | NwNsgProject/obDynatrace.cs:18-74 | the result and the sent payloads are exactly those of `Run`: the config check, in-order sending, counting after OK only, and abort on the first failure |
| `DynatraceCoordinator.RunConfigMissing` | NwNsgProject/obDynatrace.cs:35-39 | an empty URL or API token gives a result of 0 and no send at all |
| `DynatraceCoordinator.RunAllDelivered` | NwNsgProject/obDynatrace.cs:45-73 | when every send gets 200 OK, every group's payload is sent in order and the result is the wrapped total length, which is exact while it fits an `int` |
| `DynatraceCoordinator.RunAbortsAtFirstFailure` | NwNsgProject/obDynatrace.cs:57-71 | when payload i is the first not delivered, the run fails with that outcome's classification, payloads 0..i are sent in order, payload i is not counted, and nothing after i is sent |
| `DynatraceCoordinator.RunShape` | NwNsgProject/obDynatrace.cs:45-73 | for any oracle: the sent payloads are a prefix of the batcher's output, all but the last were delivered, the run fails iff the last was not, and success counts exactly the sent payloads |
| `DynatraceCoordinator.ByteAccountingScenario` | NwNsgProject/obDynatrace.cs:45-73 | two accepted payloads whose `string.Length` is 120 and 340 give a result of 460 |
| `DynatraceCoordinator.AbortOnRejectionScenario` | NwNsgProject/obDynatrace.cs:57-66 | of three groups, with the second answered by a non-OK status: the first two payloads are sent, the third is not, and the run fails with that status inside the "service running?" wrapper |
| `CertificatePinning.ValidateDtCert` | NwNsgProject/obDynatrace.cs:104-118 | with no thumbprint configured every certificate is accepted; otherwise a certificate is accepted iff its hash string equals the thumbprint exactly |
| `CertificatePinning.TrustedHashes` | NwNsgProject/obDynatrace.cs:108-117 | a configured thumbprint trusts exactly one hash string, itself; an empty one refuses none |

## Left out

- HTTP request construction and sending (lines 52-57: the request, its headers, the `StringContent` body, `SendToDynatrace`). This is network I/O. The `send` oracle stands in for it, so an exception raised while building the request inside the `try` is one of the oracle's `OtherError` outcomes, and that payload counts as attempted.
- `new SingleHttpClientInstance()` (line 49) runs before the `try` opens. An exception there would escape unwrapped; it is not modelled, and no `Failure` constructor stands for it.
- Send oracle: an outcome depends only on the attempt's index and its payload. Earlier attempts in a run were all delivered, which this index already implies.
- `ServicePointManager` settings and the callback registration with `+=` (lines 41-43). These are process-wide runtime configuration. Registering the same callback repeatedly does not change the decision it returns.
- `Util.GetEnvironmentVariable` (lines 32-33, 106) is not part of this model. The URL, token and thumbprint are parameters. An unset variable is taken to read as the empty string, as the emptiness tests at lines 35 and 109 suggest. A `null` value is not modelled.
- `cert.GetCertHashString()` (line 113) is a foreign crypto call. The hash string is an input. The `sender`, `chain` and `sslErr` arguments are ignored by the callback itself.
- `JsonConvert.SerializeObject` with null omission (lines 88-91) is an external library. It is the `serialize` parameter. A serializer exception, which would escape the `foreach` at line 47 without any wrapping, is not modelled.
- `denormalizedDynatraceEvents` (line 78) is not part of this model. Its group sequence is an input, and its own failures are not modelled.
- `StringBuilderPool` allocation and release (lines 81, 98) is a performance detail. A fresh empty buffer per group behaves the same. Setting the capacity of an empty buffer cannot fail, so that exception path is not modelled.
- `MAXTRANSMISSIONSIZE` is defined outside this file. It is the parameter `maxTransmissionSize`, which does not influence any result.
- The `async`/`await` suspension per send and the logging at line 37 have no behaviour to state.
- Exception messages and inner-exception chains are modelled as the constructors `ServiceNotRunning(BadStatus(status, reason))`, `ServiceNotRunning(Transport)` and `Unplanned`. The formatted message text at line 60 is not modelled.
- The byte count is `string.Length` in UTF-16 code units (line 71), not the UTF-8 byte count of the request body; the model counts code units the same way.

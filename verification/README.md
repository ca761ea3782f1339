# Port-mapping negotiation of an Internet Gateway Device client

This project models the asynchronous `Gateway` handle of a UPnP Internet Gateway Device
client. The handle asks a router's WANIPConnection service for its external IPv4 address
(`GetExternalIPAddress`) and creates and removes port forwardings (`AddPortMapping`,
`AddAnyPortMapping`, `DeletePortMapping`). The model also proves properties of that
behaviour.

The centre of the model is `add_any_port`, which falls back in three layers:

1. It sends `AddAnyPortMapping` with a random candidate port and returns the port the device grants.
2. If the device does not know that action, it runs a loop of at most 20 attempts. Each attempt sends an explicit `AddPortMapping` on a fresh random port.
3. When an explicit attempt is refused with "same port values required", the same attempt sends one more `AddPortMapping`, this time on the local port.

## Structure

- `common.dfy` (module `Common`): fixed-width integers, `SocketAddrV4`, the protocol, `Option`/`Result`, and the error kinds.
- `collaborators.dfy` (module `Collaborators`): what the handle drives but does not implement, supplied as an `Env` value:
  - the device: a function from the calls it received before and the current call to its reply;
  - the random port generator: its n-th draw;
  - the parsing and error-conversion functions: function-valued fields, left uninterpreted;
  - the rendering of a socket address.
- `handle.dfy` (module `Handle`): the `Gateway` value, its URL and equality, and the request primitive `Perform` (`perform_request`, src/aio/gateway.rs:29-38). `Perform` has no contract of its own. The contracts of its callers state what it does: exactly one call to the handle's URL, and the device's reply to it.
  - `Perform` appends the call to a `Trace`, the log of calls sent and random draws taken.
  - `Granted` says the device accepted the last call of a log at a given port. `Refused` says an error is the parsers' reading of the device's refusal of that call.
- `machine.dfy` (module `AnyPortMachine`): the any-port negotiation as an explicit state machine, `Start → TryAnyPort → TryExplicit(k) ⇄ TrySamePort(k) → Done | Failed`. Each transition issues at most one request. This is the reference definition that the operations are proved against.
- `gateway.dfy` (module `AioGateway`): the operations of `src/aio/gateway.rs`.
  - The straight-line operations are functions.
  - The bounded retry loop is a method with a `for` loop. It is specified by `RetryFrom`, a recursive reading of the loop, which is proved equal to the machine from `TryExplicit(20)`.
  - `add_any_port` and `get_any_address` call that loop, so they are methods too.

Every operation takes the environment and the trace so far. It returns its result together with the extended trace, so "issues no request" and "issues exactly one request" are statements about the returned trace.

The comment at `src/aio/gateway.rs:91-92` says only that a "same port values required" refusal is retried once with the same port values. It does not say what happens when that retry fails. The model follows the code:
- The same-port attempt (`src/aio/gateway.rs:159-161`) runs inside the current loop iteration.
- Its result goes through the loop's match (`src/aio/gateway.rs:135-138`).
- If that result is `NoPortsAvailable`, the loop continues with its next random port.

So one `add_any_port` call can send up to 1 + 2·20 requests. Reaching that count takes three things:
- the local port is nonzero;
- the device does not know `AddAnyPortMapping`;
- on every attempt the same-port conversion of a refusal yields `NoPortsAvailable`.

`FallbackNeverHelps` states one such situation in four conditions:
- every `AddAnyPortMapping` reply parses to `Err(None)`, which means the device does not know the action;
- every explicit add is refused;
- each refusal converts to "same port values required";
- each same-port refusal converts to `NoPortsAvailable`.

Under `FallbackNeverHelps` and a nonzero local port, `WorstCaseRequestCount` proves that exactly 1 + 2·20 requests are sent.

Another point from the code: `get_any_address` queries the external IP before `add_any_port` checks the local port. With local port 0 it therefore still sends one `GetExternalIPAddress` request.

## Model

| member | source | states |
|---|---|---|
| `Handle.Url` | src/aio/gateway.rs:246-250 | the rendered handle is `http://`, then the rendered address, then the control path; each part can be read back from its position |
| `Handle.Equals` | src/aio/gateway.rs:252-256 | two handles are equal exactly when they are the same value, so they differ whenever the address or the control path differs |
| `Handle.UrlIdentifiesHandle` | src/aio/gateway.rs:246-256 | for handles with the same address, the URLs are equal exactly when the handles are equal |
| `AnyPortMachine.AnyPortTransition` | src/aio/gateway.rs:98-124 | the first layer sends one request and draws one port; it either ends the negotiation or enters the loop with 20 attempts |
| `AnyPortMachine.ExplicitTransition` | src/aio/gateway.rs:154-161 | one loop attempt sends one request and draws one port; it ends the negotiation, continues with one attempt fewer, or moves to the same-port fallback |
| `AnyPortMachine.SamePortTransition` | src/aio/gateway.rs:173-177 | the same-port fallback sends one request and draws nothing; it ends the negotiation or returns to the loop |
| `AnyPortMachine.Step` | src/aio/gateway.rs:94-177 | each transition moves closer to an end, sends at most one request, draws at most one port, and stays within the budget of the phase it leaves |
| `AnyPortMachine.Execute` | src/aio/gateway.rs:81-177 | the negotiation always ends in `Done` or `Failed`; from `Start` it sends at most 1 + 2·20 requests and draws at most 21 ports |
| `AnyPortMachine.StepExplained` | src/aio/gateway.rs:104-177 | a transition that ends the negotiation does so on the reply to its own request: `Done` carries the port the device accepted, and `Failed` carries a synthesized error or the conversion of the refusal |
| `AnyPortMachine.ExecuteExplained` | src/aio/gateway.rs:104-177 | a successful negotiation never returns a port taken from an error: it returns the port the device accepted in the last call (the granted port, the candidate, or the local port); a failure is synthesized or is the conversion of the last refusal |
| `AnyPortMachine.ExecuteAppends` | src/aio/gateway.rs:104-177 | a negotiation only appends calls to the log |
| `AnyPortMachine.FirstLayer` | src/aio/gateway.rs:98-124 | with a nonzero local port, the first request is `AddAnyPortMapping` with the first random draw; a parsed `Ok(port)` ends with the device-granted port and a parsed `Err(Some(e))` ends with `e`, both after exactly one request; only `Err(None)` enters the loop |
| `AnyPortMachine.ExhaustedByConflicts` | src/aio/gateway.rs:134-141 | if every explicit add conflicts, the loop sends exactly k `AddPortMapping` requests, one per random draw in draw order, and fails with `NoPortsAvailable` |
| `AnyPortMachine.FallbackEveryAttempt` | src/aio/gateway.rs:134-177 | if every attempt triggers the same-port fallback and that fallback ends in `NoPortsAvailable`, the loop continues, and each of its k attempts sends two requests |
| `AnyPortMachine.WorstCaseRequestCount` | src/aio/gateway.rs:104-177 | with a nonzero local port, and a device that does not know `AddAnyPortMapping` (every reply parses to `Err(None)`), refuses every explicit add with an error that converts to "same port values required", and refuses every same-port add with an error that converts to `NoPortsAvailable`, one `add_any_port` call fails with `NoPortsAvailable` after exactly 1 + 2·20 requests, so the request bound is reached |
| `AioGateway.GetExternalIp` | src/aio/gateway.rs:41-49 | sends exactly one `GetExternalIPAddress` call to the handle's URL and returns the parsed reply to it |
| `AioGateway.AddPortMapping` | src/aio/gateway.rs:181-202 | sends exactly one `AddPortMapping` for the given port; succeeds exactly when the device accepts it, and otherwise returns the device's error unchanged |
| `AioGateway.AddSamePortMapping` | src/aio/gateway.rs:166-179 | sends one `AddPortMapping` whose external port is the local port; returns that port exactly when the device accepts it, and otherwise the same-port conversion of the refusal |
| `AioGateway.AddRandomPortMapping` | src/aio/gateway.rs:144-164 | draws one port and requests it; a second request, on the local port, is sent exactly when the refusal converts to "same port values required"; a success returns the port of the accepted request (the candidate, or the local port after the fallback); a failure is the random-port conversion of the refusal, or the same-port conversion after the fallback |
| `AioGateway.AttemptWithoutFallback` | src/aio/gateway.rs:134-160 | an attempt without the fallback is one machine transition |
| `AioGateway.AttemptWithFallback` | src/aio/gateway.rs:134-177 | an attempt with the fallback is two machine transitions, and a `NoPortsAvailable` from the fallback continues the loop |
| `AioGateway.AttemptAgrees` | src/aio/gateway.rs:134-164 | one loop attempt agrees with the machine: `NoPortsAvailable` from either request continues the loop with one attempt fewer, and any other result ends it |
| `AioGateway.RetryFromAgrees` | src/aio/gateway.rs:134-141 | the loop with k attempts left returns what the machine returns from `TryExplicit(k)` |
| `AioGateway.RetryAddRandomPortMapping` | src/aio/gateway.rs:127-142 | the `for` loop returns the first attempt result other than `NoPortsAvailable`, or `NoPortsAvailable` after 20 such attempts, which is the machine's answer from `TryExplicit(20)` |
| `AioGateway.AddAnyPort` | src/aio/gateway.rs:81-125 | local port 0 fails with `InternalPortZeroInvalid` and sends nothing; otherwise the result is the machine's answer from `Start`; at most 1 + 2·20 requests |
| `AioGateway.GetAnyAddress` | src/aio/gateway.rs:60-71 | a failed IP query is converted and returned after that single request, with no mapping request; otherwise the result pairs the IP with the port from `add_any_port`, or carries its error; a returned port was accepted by the device |
| `AioGateway.AddPort` | src/aio/gateway.rs:208-228 | external port 0 fails with `ExternalPortZeroInvalid`, checked before local port 0, which fails with `InternalPortZeroInvalid`; neither sends a request; otherwise exactly one `AddPortMapping`, whose refusal goes through the add-port conversion |
| `AioGateway.RemovePort` | src/aio/gateway.rs:231-243 | sends exactly one `DeletePortMapping` for the protocol and port, and returns the parsed reply to it |

## Left out

- SOAP transport (`soap::send_async`): network I/O. The `Env.device` oracle replaces it. Its reply to a call may depend on every earlier call.
- The generic response check (`parsing::parse_response`, src/aio/gateway.rs:37): the `Env.device` oracle also takes over this check, including the expected response element name that is passed as its `ok` argument (src/aio/gateway.rs:46, 114, 199, 240). Each `Request` variant fixes that name and the SOAP action header, so a reply is the already-checked outcome for that action.
- Message formatting (`messages::format_*`): a `Request` value stands for the formatted message of its action.
- The parsing and error-conversion functions (`parsing::parse_get_external_ip_response`, `parse_add_any_port_mapping_response`, `convert_add_random_port_mapping_error`, `convert_add_same_port_mapping_error`, `convert_add_port_error`, `parse_delete_port_mapping_response`) and the `From` conversion applied by `?` in `get_any_address`: their code is not part of this model. They are uninterpreted functions in `Env.parsing`. For this reason the error kinds carry opaque descriptions beyond the variants the gateway itself produces.
- `common::random_port`: random number generation is not part of this model. The n-th draw is `Env.randomPort(n)`, with no assumption about its range.
- The textual form of `SocketAddrV4`: this is `Env.showAddr`.
- `Gateway::new`: this is the datatype constructor `Gateway(addr, controlUrl)`.
- The `Hash` implementation (src/aio/gateway.rs:260-265): it hashes the same two fields that equality compares. Hashing itself is not modelled.
- async/await, `clone` of the handle, and `to_owned` of the description: these have no effect on the results or on the requests sent.

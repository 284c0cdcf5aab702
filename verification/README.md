# sozu-acme: the control-channel protocol and the challenge run

sozu-acme obtains a Let's Encrypt certificate for a domain served by a sozu
proxy. It drives the proxy over sozu's command channel:

1. it adds a temporary HTTP route that sends the ACME challenge path to a
   local responder;
2. it has the challenge validated;
3. it removes the route;
4. it installs the signed certificate with an HTTPS front.

This project models the deterministic core of `src/main.rs` as pure
functions over finite scripts:

- `order_command` sends one order and reads answers until a terminal one
  arrives (module `Orders`).
- `set_up_proxying`, `remove_proxying` and `add_certificate` are short-circuit
  pairs of orders (module `Proxying`).
- The challenge responder's serve loop is module `Responder`.
- The shape of `generate_id` is module `RequestIds`.
- The part of `main` from building the challenge path to the certificate
  install is module `Orchestrator`.
- Module `Messages` holds the order, envelope and answer vocabulary.

Modelling choices:

- **Channel.** The control channel is a finite script of reads
  (`seq<Option<Answer>>`). Every order consumes a prefix of the script and
  leaves the rest for the next order.
- **Outcomes.** An order ends in one of four outcomes:
  - `Success` is `order_command` returning `true`.
  - `Failure` is `order_command` returning `false`.
  - `Abort` is the panic on an answer with a foreign id.
  - `Stalled` means the script ran out while the loop was still waiting; the
    real process never returns from there (it blocks, or loops forever
    logging that the proxy did not answer).
- **Request ids.** Ids are inputs, given as one `IdPair` per compound
  operation.
- **Files and certificate helpers.** The files the tool loads are a
  `map<string, string>` from path to contents; a path that is absent does not
  load. Fingerprint computation and chain splitting are function-valued
  inputs (`CertificateTools`).
- **Responder.** The requests the responder receives are a finite
  `seq<Request>`. It ends in `Answered` (`true`), `Failed` (`false`) or
  `Waiting` (still blocked in `recv`).

Behaviour worth noting:

- A `None` read in `order_command` logs and reads again
  (src/main.rs:252-253), so a channel that never delivers a terminal answer
  leaves the loop waiting forever.
- `remove_proxying` joins its two orders with `&&` (src/main.rs:193-197):
  RemoveBackend is skipped when RemoveHttpFront returns false.
- The second order of `add_certificate` is `AddHttpsFront` carrying the
  certificate's fingerprint (src/main.rs:224-229), with path prefix `""` as
  `main` calls it (src/main.rs:144).

## Model

| member | source | states |
|---|---|---|
| Orders.Verdict | src/main.rs:255-281 | a non-pending answer aborts exactly when its id is foreign, succeeds exactly on the matching id with Ok, fails exactly on the matching id with Error, and never stalls |
| Orders.OrderCommand | src/main.rs:251-285 | the loop consumes a prefix of the channel and leaves the rest; any decided outcome consumes at least one read; a stall consumes everything |
| Orders.DecisiveIndex | src/main.rs:251-285 | the index of the first read that ends the loop: every read before it is empty or a Processing notice for the request in flight |
| Orders.OrderCommandByFirstDecisive | src/main.rs:251-285 | the order's result is the verdict of the first non-pending read, with the reads after it left over; with no such read the loop stalls having consumed the whole channel |
| Orders.OrderSucceedsIff | src/main.rs:258-281 | order_command returns true exactly when the first answer that ends the loop is Ok with the request's id |
| Orders.OrderFailsIff | src/main.rs:264-267 | order_command returns false exactly when the first answer that ends the loop is Error with the request's id |
| Orders.WrongIdAborts | src/main.rs:244-257 | an answer carrying an id other than the one just sent, reached while waiting, panics whatever its status |
| Orders.StallsIffAllPending | src/main.rs:251-263 | the loop stalls, and never returns false, exactly when every read is empty or a Processing notice |
| Orders.PendingReadIsSkipped | src/main.rs:253-263 | neither an empty read nor a Processing notice ends the loop: the result is that of the reads after it |
| Orders.RunOrderCommand | src/main.rs:243-286 | the imperative read loop returns the same outcome as the functional model and consumes the same prefix of the channel |
| Proxying.BothShortCircuits | src/main.rs:178-182 | `a && b` over two orders: the first is always written, the second exactly when the first returned true; a first order that does not return true decides the chain's outcome and leftover reads; after a first order that returned true, the chain ends exactly as the second order does (true, false, panic or hang); the chain returns true exactly when both do |
| Proxying.BothSucceedsIff | src/main.rs:178-189 | the chain returns true exactly when the first order is confirmed by its first decisive answer and the second order by the first decisive answer after that |
| Proxying.ChallengeBackendRemoval | src/main.rs:184-201 | the backend removal built by teardown withdraws exactly the backend that setup adds for the same application and responder address |
| Proxying.SetUpProxying | src/main.rs:176-190 | the first order written is AddHttpFront for the app, host and path; AddBackend follows exactly when that order returned true; true needs both orders written |
| Proxying.SetUpProxyingIsConjunction | src/main.rs:176-190 | setup returns true exactly when AddHttpFront and then AddBackend both returned true; otherwise it ends as AddHttpFront did if that did not return true, and as AddBackend did if it did (so an Error answer to AddBackend gives false) |
| Proxying.RemoveProxying | src/main.rs:192-203 | the first order written is RemoveHttpFront for the app, host and path; RemoveBackend follows exactly when that order returned true |
| Proxying.RemoveProxyingIsConjunction | src/main.rs:192-203 | teardown returns true exactly when RemoveHttpFront and then RemoveBackend both returned true; otherwise it ends as RemoveHttpFront did if that did not return true, and as RemoveBackend did if it did |
| Proxying.RemovalMatchesSetUp | src/main.rs:176-203 | for the same arguments, the front removed is the front added, and the backend removal withdraws the backend added, under backend id app_id + "-0" |
| Proxying.AddCertificateLoadFailure | src/main.rs:206-240 | when the certificate, its fingerprint, the chain or the key does not load, add_certificate returns false having written nothing and read nothing |
| Proxying.AddCertificateOrders | src/main.rs:214-229 | with everything loaded, AddCertificate carries the loaded certificate, the split chain and the key for the single name hostname; AddHttpsFront with that fingerprint follows exactly when it returned true; the install ends exactly as AddCertificate did when that did not return true (false on Error, panic on a foreign id, hang when left waiting), and otherwise exactly as AddHttpsFront did; it returns true exactly when both did |
| Proxying.AddCertificateSucceedsIff | src/main.rs:205-241 | add_certificate returns true exactly when the certificate material loads, AddCertificate is confirmed by its first decisive answer, and AddHttpsFront by the first decisive answer after that |
| Messages.BackendIdInjective | src/main.rs:184 | distinct applications never share a derived backend id |
| RequestIds.GenerateId | src/main.rs:171-174 | a generated id is "ID-" followed by the six drawn alphanumeric characters, nine characters long |
| RequestIds.DrawOf | src/main.rs:171-174 | an id parses back to a draw exactly when it has the generated shape |
| RequestIds.IdRoundTrip | src/main.rs:171-174 | parsing a generated id gives the draw back, and every id that parses is the one generated from its draw |
| Responder.ChallengePath | src/main.rs:99 | the challenge path is "/.well-known/acme-challenge/" followed by the token |
| Responder.TokenOf | src/main.rs:99 | a path carries a token exactly when it starts with the challenge prefix |
| Responder.ChallengePathRoundTrip | src/main.rs:99 | reading the token back from a challenge path gives the token, so distinct tokens never share a path |
| Responder.Serve | src/main.rs:113-129 | the loop handles no more requests than it receives, and if it is still waiting it has handled all of them |
| Responder.StopIndex | src/main.rs:113-129 | the index of the first request that ends the loop, a receive error or the challenge URL |
| Responder.ServeByFirstStop | src/main.rs:113-129 | every request before the first stopping one gets 404 "not found"; the challenge URL gets 200 with the key authorization and true; a receive error gives false; with neither the loop waits having answered everything with 404 |
| Responder.ServeIgnoresLaterRequests | src/main.rs:120-123 | once the loop has returned, requests that arrive later are never handled |
| Responder.ServeResumes | src/main.rs:113-127 | a loop still waiting continues with later requests as if they had been there from the start |
| Responder.ServeLoop | src/main.rs:113-129 | the imperative loop ends as the functional model does and writes the same responses |
| Orchestrator.Unfinished | src/main.rs:251-257 | an order with a foreign answer id panics the process with the id-mismatch panic, and an order left waiting hangs it |
| Orchestrator.Orchestrate | src/main.rs:99-151 | the first order is AddHttpFront for the challenge path; a setup returning false panics having written only the setup orders; without the challenge answered only the setup orders are written and the run does not finish |
| Orchestrator.MissedChallengeInstallsNothing | src/main.rs:137-151 | when the responder returns false, the run ends with "did not receive challenge request" and writes neither AddCertificate nor AddHttpsFront |
| Orchestrator.InstallFollowsTeardown | src/main.rs:137-148 | when the responder returns true, teardown is attempted and then the install, whatever the teardown returned; the orders written are setup's, teardown's, install's in that order, and the run finishes reporting both results |
| Orchestrator.InstallStartsWithCertificate | src/main.rs:144 | the install step writes an order exactly when its material loads, and that order is AddCertificate |
| Orchestrator.InstallWritesCertificate | src/main.rs:137-148 | after a decided teardown, the order right after the teardown orders is AddCertificate exactly when the certificate material loads |
| Orchestrator.SetupFaultEndsRun | src/main.rs:106-108 | a foreign answer id while setting up the route panics the whole process with the id-mismatch panic; a setup left waiting hangs it |
| Orchestrator.WaitingResponderHangs | src/main.rs:113-135 | after a successful setup and a launched validation, a responder that neither sees the challenge nor fails keeps the process waiting |
| Orchestrator.TeardownFaultEndsRun | src/main.rs:137-140 | after the challenge was answered, a foreign answer id during teardown panics the process and a teardown left waiting hangs it |
| Orchestrator.InstallFaultEndsRun | src/main.rs:142-148 | after a decided teardown and a saved certificate, a foreign answer id during the install panics the process and an install left waiting hangs it |

## Left out

- Command-line parsing and configuration loading (src/main.rs:29-86) are argument plumbing. The application id, domain, file paths and responder address are inputs.
- The Unix-socket connection and the channel's framing and serialisation (src/main.rs:87-89) belong to sozu_command_lib, which is not part of this model. The channel is a script of reads.
- The ACME exchange is foreign network calls: account registration, authorization, challenge retrieval, validation, and signing and saving the certificate (src/main.rs:93-95, 134, 142, 154-169). The token and key authorization are inputs; whether validation launched and whether the certificate was saved are booleans.
- The HTTP server, the responder thread, the 100 ms sleep and the thread join (src/main.rs:102, 111, 132, 135) are concurrency and timing. Only the sequential body of the serve loop is modelled. A run that panics because validation could not be launched is modelled with no responses, although the real responder may already have answered requests by then.
- The randomness of `generate_id` is left out: its shape is stated, and the ids used by each order are inputs. Two ids of one run may coincide in the model, as they may in the source.
- `Config::load_file`, `calculate_fingerprint` and `split_certificate_chain` are foreign. File loads are lookups in a map from path to contents; the two helpers are function-valued inputs.
- The load-balancing parameters and sticky id of AddBackend, and the proxy id of the message envelope, are always absent in the source and are not modelled. Order variants the tool never builds are not modelled.
- Log output, including the per-order log line on Ok (src/main.rs:269-279), does not affect any result.
- `order_command` has no timeout in the source. A channel that never delivers a terminal answer is modelled as `Stalled` when the script is exhausted.

# Connect orchestrator and log-safe domain redactor

This project is a Dafny model of two pieces of libsignal's networking layer.

- `dns_utils.dfy` (module `DnsUtils`) models `log_safe_domain`. This function decides whether a host name may be logged verbatim. `"localhost"` and names ending in `".lavendarsolution.org"` are kept. Every other name becomes `"REDACTED"`.
- `connect_state.dfy` (module `ConnectState`) models `ConnectState` as a class. It models `connect_ws` as a method that writes only the outcome ledger. It models the pure parts of `connect_attested_ws` as functions: the per-failure classifier, the error remap and the auth-header route rewrite. It also models `connect_attested_ws` itself as a method built from them.
- `infra.dfy` (module `Infra`) holds the infrastructure types the orchestrator consumes at their interface: `Result`, `ControlFlow`, `ErrorClass`, `ConnectError`, `TimeoutOr`, WebSocket routes with their headers, and outcome updates. It also holds a stand-in for the outcome ledger `ConnectionOutcomes`.

The multi-route connect (`crate::infra::route::connect`) and the `tokio::time::timeout` race around it are foreign code. They become one function parameter, `connect`. It receives the snapshot the orchestrator takes under its read lock: the route resolver, the transport connector, the ledger, the routes the provider yields for the snapshot's context, and the per-failure callback. It yields either `Elapsed` or `Finished(result, updates)`. The route provider is a function parameter from the provider context to the routes. The WebSocket-error classifier (`classify()`) and the enclave handshake (`AttestedConnection::connect`) are function parameters too.

The ledger stand-in records its parameters and the sequence of applied batches. `Recorded()` is the multiset of stamped `(route, outcome, finished_at)` entries it has received. That batches commute is proved only for this stand-in's multiset view. For the real ledger it stays an assumption about code outside this model.

`KeptIff` shows one place where the code is more precise than a plain "unchanged iff trusted" reading. The input `"REDACTED"` also comes back unchanged, because it is the placeholder itself.

## Model

| member | source | states |
|---|---|---|
| `DnsUtils.LogSafeDomain` | rust/net/infra/src/dns/dns_utils.rs:8-16 | Total. The result is either the input or `"REDACTED"`, and is always trusted or the placeholder. |
| `DnsUtils.EndsWith` | rust/net/infra/src/dns/dns_utils.rs:13 | `ends_with(s, suffix)` holds exactly when `s` is some prefix followed by `suffix`. |
| `DnsUtils.IsTrusted` | rust/net/infra/src/dns/dns_utils.rs:6-13 | A name is trusted exactly when it is `"localhost"` or is some `host` followed by `".lavendarsolution.org"`. |
| `DnsUtils.LocalhostKept` | rust/net/infra/src/dns/dns_utils.rs:12 | `"localhost"` is returned unchanged. |
| `DnsUtils.SuffixedKept` | rust/net/infra/src/dns/dns_utils.rs:6-13 | Any name of the form `host + ".lavendarsolution.org"` is returned unchanged. |
| `DnsUtils.KeptIff` | rust/net/infra/src/dns/dns_utils.rs:11-15 | A name comes back unchanged exactly when it is trusted or is the placeholder itself. |
| `DnsUtils.UntrustedRedacted` | rust/net/infra/src/dns/dns_utils.rs:11-15 | A name that is neither `"localhost"` nor under the suffix maps to `"REDACTED"`. |
| `DnsUtils.NearMissesRedacted` | rust/net/infra/src/dns/dns_utils.rs:6-14 | The empty string, `"LOCALHOST"`, the bare apex `"lavendarsolution.org"` and an upper-case subdomain are all redacted. |
| `DnsUtils.Idempotent` | rust/net/infra/src/dns/dns_utils.rs:11-15 | Redacting twice equals redacting once. |
| `Infra.NewOutcomes` | rust/net/src/connect_state.rs:66 | A new ledger carries the given parameters and has recorded nothing. |
| `Infra.ConnectionOutcomes.ApplyOutcomeUpdates` | rust/net/src/connect_state.rs:168-179 | Applying a batch keeps the parameters, appends exactly that batch, and adds its stamped entries to what was recorded. |
| `Infra.StampAllStampsEach` | rust/net/src/connect_state.rs:168-179 | A batch adds exactly the multiset of its updates, each stamped with the batch's finishing time. |
| `Infra.RecordedPermutation` | rust/net/src/connect_state.rs:168-179 | In the ledger stand-in, any reordering of the same batches records the same entries. This says nothing about the real ledger's merge. |
| `Infra.ApplyOrderIrrelevant` | rust/net/src/connect_state.rs:168-179 | In the ledger stand-in, two ledgers sent the same batches in different orders have recorded the same outcomes. |
| `ConnectState.StripDescriptions` | rust/net/src/connect_state.rs:169-177 | Stripping descriptions keeps one `(route, outcome)` per recorded outcome, in order. |
| `ConnectState.DescriptionsDoNotReachLedger` | rust/net/src/connect_state.rs:169-177 | Attempts that differ only in their log-safe descriptions produce the same ledger updates. |
| `ConnectState.LedgerReceivesOneEntryPerOutcome` | rust/net/src/connect_state.rs:168-179 | A finished attempt adds exactly one batch to the ledger: the attempt's `(route, outcome)` pairs in order, stamped with `finished_at`. What the ledger has recorded grows by exactly those stamped entries. |
| `ConnectState.AddAuthHeader` | rust/net/src/connect_state.rs:204-205 | One route is rewritten: its headers gain the auth header at the end, and its other fields are unchanged. |
| `ConnectState.WithAuthHeader` | rust/net/src/connect_state.rs:203-206 | Auth injection keeps the number and order of routes and every other field. Each route's headers gain the auth header at the end. |
| `ConnectState.AuthedProvider` | rust/net/src/connect_state.rs:203-206 | For every provider context, the rewritten provider yields as many routes as the original, each with the auth header appended and nothing else changed. |
| `ConnectState.OnAttestedError` | rust/net/src/connect_state.rs:215-220 | Continue exactly when the error is classified `Intermittent`. Otherwise break with `WebSocketConnect` of the same error. |
| `ConnectState.AttestedCallback` | rust/net/src/connect_state.rs:215-220 | The callback handed to the orchestrator continues on exactly the errors classified `Intermittent`. It breaks with `WebSocketConnect` of the same error on all others. |
| `ConnectState.MapAttestedError` | rust/net/src/connect_state.rs:223-229 | `FatalConnect(e)` gives `e` unchanged. `NoResolvedRoutes`, `AllAttemptsFailed` and any `Timeout` give `ConnectionTimedOut`. |
| `ConnectState.TerminalErrorSurfaces` | rust/net/src/connect_state.rs:215-229 | An error the attested callback breaks on reaches the caller as `WebSocketConnect` of that same error, and that error is never intermittent. |
| `ConnectState.ExhaustionKindsCollapse` | rust/net/src/connect_state.rs:223-227 | Timeouts of any duration and both exhaustion errors all become `ConnectionTimedOut`. |
| `ConnectState.ConnectState.constructor` | rust/net/src/connect_state.rs:57-70 | The new state has the configured timeout, a ledger with the configured parameters and no history, and default resolver, connector and provider context. |
| `ConnectState.ConnectState.ConnectWs` | rust/net/src/connect_state.rs:91-188 | Described below the table. |
| `ConnectState.ConnectState.ConnectAttestedWs` | rust/net/src/connect_state.rs:190-233 | Described below the table. |

`ConnectState.ConnectState.ConnectWs`:
- The attempt runs on the snapshot, using the routes the provider gives for the snapshot's context.
- On `Elapsed` it returns `Timeout` carrying the configured `connect_timeout`, and the ledger is unchanged.
- On `Finished` the ledger gets exactly one batch: the outcomes with their descriptions stripped, stamped with `finished_at`. This happens whether the attempt succeeded or failed.
- On success it then returns the attempt's connection with `RouteInfo` of the winning route's description.
- On failure it returns `Other(error)`.
- No field other than the ledger changes.

`ConnectState.ConnectState.ConnectAttestedWs`:
- Every route carries the auth header, and failures go through `OnAttestedError`.
- On `Elapsed` it returns `ConnectionTimedOut`, and the ledger is unchanged.
- On `Finished` the ledger is written as `ConnectWs` writes it.
- Orchestrator errors are remapped by `MapAttestedError`.
- On a connected WebSocket, the handshake's connection is returned with the route info, or the handshake's error is returned.

## Left out

- The `tokio::sync::RwLock` discipline: read, drop, then write (`connect_state.rs:109,158,168`). Only its sequential effect is modelled: one snapshot, then at most one ledger write. Deadlock freedom under concurrent callers is a concurrency property and is not stated.
- The `tokio::time::timeout` race. The model does not state that exactly `connect_timeout` elapses. `Elapsed` is an outcome of the `connect` parameter.
- `crate::infra::route::connect`, `ComposedConnector`, `DescribedRouteConnector`, `ResolveWithSavedDescription`, `RouteResolver` and `DnsResolver`. This means route ordering, per-route delays, DNS resolution, multi-route fallback and how the loop invokes the callback are not modelled. They are inside the `connect` parameter. The route resolver, transport connector and provider context are single-value stand-ins.
- `WebSocketServiceConnectError::from_websocket_error` and `classify()`. The callback receives the converted error, and classification is a parameter.
- The internals of `ConnectionOutcomes`: cooldown, decay and backoff with real-valued growth factors. The ledger is a stand-in that records applied batches. Its parameters are carried but never used.
- `RouteProviderContextImpl::random_usize`: OS randomness. The provider context is an opaque value.
- `AttestedConnection::connect` and the enclave handshake: cryptography and I/O. The handshake is a parameter. Handshake failures are represented by whatever `EnclaveError` it returns. `EnclaveError` lists only the variants this layer produces, plus `AttestationError` for those.
- Logging. This covers the `log::error!` of the dot-split domain in `log_safe_domain` and the `log::info!` lines of `connect_ws`.
- Rendering `RouteInfo`/`UnresolvedRouteDescription` as text, for example `"REDACTED:1234 fronted by proxyf"`. The formatter is not part of this model, so descriptions are an opaque type parameter.
- Route fields below the WebSocket fragment (the HTTP fragment and the transport route) and the `ws_config` value are opaque type parameters. A header map is the ordered list of its entries, and `extend` appends to it.
- `DnsUtils.EndsWith` compares characters, while Rust's `str::ends_with` compares UTF-8 bytes. The two agree for the ASCII suffix used here, because no multi-byte UTF-8 sequence contains an ASCII byte. Byte-level encoding is not modelled.
- Durations and instants are whole clock ticks (`nat`). No nanosecond precision or `Duration::MAX` saturation is modelled.
- `GroupSendFullToken.java`: a thin wrapper over native calls whose logic is not visible.

# Switcher bookkeeping: upstream-proxy and connection registries

This project models the bookkeeping core of the switcher, an intercepting
proxy that routes each client connection through an upstream proxy or
directly. Two keyed registries hold cross-references to each other:

- the upstream-proxy registry maps a proxy address to its detail record:
  a `removed` flag, the set of `relevantConnections` (clients routed
  through it) and a throughput recorder. The `DIRECT_CONNECTION` sentinel
  (empty host, port 0) is registered at construction;
- the connection registry maps a client address to its detail record:
  the `proxySocket` it is routed through, the target `uri`, a throughput
  recorder and the `abort` flag, which asks the connection's owner to close it.

The main property is the "no wild connection" invariant. Every connection
not marked for abort is routed through a registered proxy and is listed in
that proxy's `relevantConnections`. Each proxy's `relevantConnections` holds
only present clients routed through it. Every operation is proved to keep
this invariant, and so does any sequence of operations started from a newly
constructed switcher.

Layout:

- `domain.dfy` (module `Domain`): addresses, recorder handles, the two
  detail records, snapshot pairs and the loop that enumerates a registry.
- `bookkeeping.dfy` (module `Bookkeeping`): the state of both registries as
  a value. It has one function per operation, the invariant, and the lemmas
  that each operation preserves it.
- `traces.dfy` (module `Traces`): arbitrary call sequences and what holds
  in every reachable state, plus concrete scenarios.
- `switcher.dfy` (module `Registries`): class `Switcher`, holding both maps.
  Its methods update them in place and are proved to follow the functions
  of `Bookkeeping`.

Throughput recorders are handles `Recorder(id, parent)`. Identity 0 is the
switcher's root recorder. A proxy's recorder is created under the root. A
connection's recorder is created with its proxy's recorder as the parent
argument. When the proxy is not registered, null is passed, recorded as
`None`. What the recorder does with a null parent is not modelled. Tearing
a recorder down appends its identity to the ghost log `tornDown`. Every
reachable state has fresh recorder identities: no two registered
connections share a recorder, and none is torn down twice.

Both registries are modelled as one class, each operation runs atomically,
and calls are sequential. In every state reachable this way, no registered
proxy carries `removed = true` (`Traces.ReachableStatesAreConsistent`). So
the `removed` test in connection add only matters when calls interleave.
It is still modelled as written.

One cross-reference property is sometimes stated more strongly for this
system: that each proxy's `relevantConnections` is exactly the set of
present clients routed through it. The code does not keep that.
`Traces.ReAddedProxyOmitsAbortedClient` gives a sequence that breaks it:

1. add proxy P;
2. add client C through P;
3. remove P;
4. add P again.

C is still registered and routed through P, and it is aborted, but the new
entry for P does not list C. The model proves the two inclusions that do
hold, in `Bookkeeping.RelevantBetweenRoutedSets`.

## Model

| member | source | states |
|---|---|---|
| `Domain.Enumerate` | src/main/java/org/switcher/ConnectionManager.java:115-120 | the snapshot has one pair per key of the map, each with that key's detail, and no address twice |
| `Bookkeeping.AddProxy` | src/main/java/org/switcher/UpstreamProxyManager.java:58-71 | get-or-create: a present address leaves the whole state unchanged; an absent one gains a fresh detail (not removed, no relevant connections, recorder under the root) and no other entry changes |
| `Bookkeeping.AbortAll` | src/main/java/org/switcher/UpstreamProxyManager.java:130-131 | the sweep marks exactly the listed clients that are present for abort, changes nothing else in them, and keeps every other entry and the key set |
| `Bookkeeping.RemoveProxy` | src/main/java/org/switcher/UpstreamProxyManager.java:123-134 | an unregistered address changes nothing; a registered one loses exactly its key and all its relevant connections are marked for abort |
| `Bookkeeping.RemovedDetail` | src/main/java/org/switcher/UpstreamProxyManager.java:123-133 | removal hands back the deleted detail flagged removed (same relevant connections and recorder), or nothing when the address was not registered |
| `Bookkeeping.AddConnection` | src/main/java/org/switcher/ConnectionManager.java:60-92 | the client ends up registered; a new entry records the proxy, the uri and a fresh recorder identity whose parent argument is the proxy's recorder (null if unknown), advancing the allocator, and enrols the client with that proxy; a duplicate keeps its routing and touches no relevant set; abort is set iff the proxy is unknown or removed or the entry was already aborted; other entries are unchanged |
| `Bookkeeping.RemoveConnection` | src/main/java/org/switcher/ConnectionManager.java:149-162 | an absent client changes nothing; a present one loses exactly its key, its recorder is torn down once, and it leaves its proxy's relevant set if that proxy is registered; other proxies are unchanged |
| `Bookkeeping.Abort` | src/main/java/org/switcher/ConnectionManager.java:164-170 | a present client is marked for abort with its routing kept; an absent client is a no-op; nothing else changes |
| `Bookkeeping.AddProxyKeepsConsistent` | src/main/java/org/switcher/UpstreamProxyManager.java:58-71 | proxy add preserves the no-wild-connection invariant |
| `Bookkeeping.RemoveProxyKeepsConsistent` | src/main/java/org/switcher/UpstreamProxyManager.java:123-132 | proxy removal with its abort sweep preserves the invariant |
| `Bookkeeping.AddConnectionKeepsConsistent` | src/main/java/org/switcher/ConnectionManager.java:80-92 | connection add preserves the invariant |
| `Bookkeeping.RemoveConnectionKeepsConsistent` | src/main/java/org/switcher/ConnectionManager.java:155-159 | connection removal preserves the invariant |
| `Bookkeeping.AbortKeepsConsistent` | src/main/java/org/switcher/ConnectionManager.java:164-170 | abort preserves the invariant |
| `Bookkeeping.AddConnectionKeepsFresh` | src/main/java/org/switcher/ConnectionManager.java:74-78 | connection add gives a new entry a recorder identity no live connection holds and none torn down |
| `Bookkeeping.RemoveConnectionTearsDownOnce` | src/main/java/org/switcher/ConnectionManager.java:150-154 | from a fresh state, removing a client tears down a recorder never torn down before, and the state stays fresh |
| `Bookkeeping.RelevantBetweenRoutedSets` | src/main/java/org/switcher/ConnectionManager.java:80-83 | in a consistent state, a proxy's relevant set contains every live client routed through it and only present clients routed through it |
| `Bookkeeping.RemoveProxyAbortsRouted` | src/main/java/org/switcher/UpstreamProxyManager.java:126-131 | after removing a proxy from a consistent state, every client routed through it is marked for abort |
| `Bookkeeping.Initial` | src/main/java/org/switcher/UpstreamProxyManager.java:37-41 | right after construction the sentinel is the only proxy, live and with no relevant connections, and there are no connections |
| `Traces.StepKeepsConsistent` | src/main/java/org/switcher/UpstreamProxyManager.java:126-131 | any single registry call preserves the invariant |
| `Traces.RunKeepsConsistent` | src/main/java/org/switcher/UpstreamProxyManager.java:126-131 | any sequence of registry calls preserves the invariant |
| `Traces.StepKeepsRegisteredLive` | src/main/java/org/switcher/UpstreamProxyManager.java:124-128 | no call leaves a registered proxy flagged removed |
| `Traces.RunKeepsRegisteredLive` | src/main/java/org/switcher/UpstreamProxyManager.java:124-128 | no call sequence leaves a registered proxy flagged removed |
| `Traces.StepKeepsFresh` | src/main/java/org/switcher/ConnectionManager.java:74-78 | any single registry call keeps recorder identities fresh |
| `Traces.RunKeepsFresh` | src/main/java/org/switcher/ConnectionManager.java:74-78 | any sequence of registry calls keeps recorder identities fresh |
| `Traces.ReachableStatesAreConsistent` | src/main/java/org/switcher/UpstreamProxyManager.java:126-131 | every state reachable from construction is consistent, has no registered proxy flagged removed, and has fresh recorder identities |
| `Traces.StepKeepsAbort` | src/main/java/org/switcher/ConnectionManager.java:164-170 | no call clears the abort flag of a client that stays registered |
| `Traces.RunKeepsAbortWhilePresent` | src/main/java/org/switcher/ConnectionManager.java:164-170 | an aborted client stays registered and aborted through any call sequence that does not remove it |
| `Traces.ProxyRemovalAbortsItsConnection` | src/main/java/org/switcher/UpstreamProxyManager.java:123-134 | a client added through a live proxy is its only relevant connection and not aborted; after the proxy is removed the client is aborted and still registered |
| `Traces.UnknownProxyConnectionAborted` | src/main/java/org/switcher/ConnectionManager.java:61-92 | a client added through an unregistered proxy is aborted at once and its recorder is created with a null parent argument |
| `Traces.ReAddedProxyOmitsAbortedClient` | src/main/java/org/switcher/UpstreamProxyManager.java:58-71 | after remove and re-add of a proxy, an aborted client routed through it is not in the new relevant set |
| `Registries.Switcher.constructor` | src/main/java/org/switcher/UpstreamProxyManager.java:37-41 | both maps start empty, then the sentinel is registered; the invariant holds |
| `Registries.Switcher.AddProxy` | src/main/java/org/switcher/UpstreamProxyManager.java:58-71 | follows `Bookkeeping.AddProxy`, returns the registered detail (the existing one if present), keeps the invariant |
| `Registries.Switcher.SureAddProxy` | src/main/java/org/switcher/UpstreamProxyManager.java:73-78 | follows `Bookkeeping.AddProxy`; the address is always registered afterwards, so the missing-detail diagnostic is unreachable |
| `Registries.Switcher.ProxyCount` | src/main/java/org/switcher/UpstreamProxyManager.java:80-82 | the count is the number of registered proxy addresses |
| `Registries.Switcher.AllProxies` | src/main/java/org/switcher/UpstreamProxyManager.java:89-94 | exactly one pair per registered proxy, each with its detail |
| `Registries.Switcher.GetProxyDetail` | src/main/java/org/switcher/UpstreamProxyManager.java:106-108 | returns the entry iff the address is registered, and that entry's detail |
| `Registries.Switcher.SureGetProxyDetail` | src/main/java/org/switcher/UpstreamProxyManager.java:110-116 | same lookup; absence is only a diagnostic |
| `Registries.Switcher.RemoveProxy` | src/main/java/org/switcher/UpstreamProxyManager.java:123-134 | the loop that aborts relevant connections one by one follows `Bookkeeping.RemoveProxy`; returns the removed, flagged detail or nothing; keeps the invariant |
| `Registries.Switcher.AddConnection` | src/main/java/org/switcher/ConnectionManager.java:60-104 | follows `Bookkeeping.AddConnection` and keeps the invariant |
| `Registries.Switcher.ConnectionCount` | src/main/java/org/switcher/ConnectionManager.java:106-108 | the count is the number of registered clients |
| `Registries.Switcher.AllConnections` | src/main/java/org/switcher/ConnectionManager.java:115-120 | exactly one pair per registered client, each with its detail |
| `Registries.Switcher.GetConnectionDetail` | src/main/java/org/switcher/ConnectionManager.java:132-134 | returns the entry iff the client is registered, and that entry's detail |
| `Registries.Switcher.SureGetConnectionDetail` | src/main/java/org/switcher/ConnectionManager.java:136-142 | same lookup; absence is only a diagnostic |
| `Registries.Switcher.RemoveConnection` | src/main/java/org/switcher/ConnectionManager.java:149-162 | follows `Bookkeeping.RemoveConnection` and keeps the invariant |
| `Registries.Switcher.Abort0` | src/main/java/org/switcher/ConnectionManager.java:164-170 | follows `Bookkeeping.Abort` whichever lookup is used |
| `Registries.Switcher.SureAbort` | src/main/java/org/switcher/ConnectionManager.java:172-174 | follows `Bookkeeping.Abort` without assuming the invariant, as the removal sweep needs |
| `Registries.Switcher.Abort` | src/main/java/org/switcher/ConnectionManager.java:181-183 | follows `Bookkeeping.Abort` and keeps the invariant |

## Left out

- Read/write `stateLock` on proxy details and the atomicity of the concurrent maps: every operation is modelled as one atomic step, and calls are sequential. The interleavings the lock protocol guards against are not modelled.
- Logging and the exception objects built only to be logged: the "sure" variants differ from the plain ones only in the diagnostic, so they are modelled as the same lookup.
- `connectionChain`: it only formats a log message, and its `==` test against the sentinel relies on Java object identity.
- `add(String host, int port)`: building the address may resolve DNS. `Address` is a (host, port) value whose structural equality abstracts the socket address's equality: by IP for resolved addresses, by case-insensitive host name for unresolved ones.
- `forEach(BiConsumer)` on both registries: these pass a caller's callback straight to the map.
- The `Switcher` facade and the separate `ConnectionManager` constructor: the two registries and their back-references live in one class, whose constructor starts the connection map empty as that constructor does.
- Throughput recorder internals: only each recorder's identity, the parent argument passed at creation (null recorded as `None`), and the order of teardowns are modelled. What a recorder created with a null parent attaches to is not modelled. A removed proxy's recorder is not torn down, because the code does not do it.
- Registries.Switcher.RemoveProxy: detail records are values. The detail it returns is a copy, flagged removed, not an object shared with other holders, so later aliasing effects on it are not modelled.
- Registries.Switcher.AddProxy, Registries.Switcher.GetProxyDetail, Registries.Switcher.SureGetProxyDetail, Registries.Switcher.GetConnectionDetail, Registries.Switcher.SureGetConnectionDetail, Registries.Switcher.AllProxies, Registries.Switcher.AllConnections (through Domain.Enumerate): each returns detail values frozen at call time. In the source each returns the live detail object shared with the registry. So a holder there sees later writes to `abort`, `removed` and `relevantConnections`, and a holder here does not. For example, a connection owner that keeps its detail does not see `abort` change unless it looks the client up again.
- Domain.Enumerate: the snapshot's order (hash order in the source) is left unspecified.

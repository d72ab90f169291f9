/**
 The bookkeeping state of the switcher as a value: the upstream-proxy map,
 the connection map, the allocator of recorder identities and the log of
 recorders torn down. Each registry operation is a function from the state
 before to the state after; the class in switcher.dfy is proved to follow
 these functions, and the lemmas here show that every one of them keeps the
 two maps' cross-references consistent.
 */
module Bookkeeping {
  import opened Domain

  datatype State = State(
    proxies: map<Address, ProxyDetail>,
    connections: map<Address, ConnectionDetail>,
    nextRecorder: nat,
    tornDown: seq<nat>)

  /** Both maps empty; only the root recorder (identity 0) exists. */
  function Empty(): State
  {
    State(map[], map[], RootRecorder + 1, [])
  }

  /** The state right after construction: the direct-connection sentinel is seeded. */
  function Initial(): (r: State)
    ensures DirectConnection in r.proxies && r.proxies.Keys == {DirectConnection}
    ensures r.connections == map[]
    ensures !r.proxies[DirectConnection].removed && r.proxies[DirectConnection].relevantConnections == {}
  {
    AddProxy(Empty(), DirectConnection)
  }

  // ---------------------------------------------------------------------------
  // The invariant
  // ---------------------------------------------------------------------------

  /**
   No wild connection: a connection that is not marked for abort is routed
   through a registered proxy and is listed among that proxy's relevant
   connections, so removing the proxy will reach it.
   */
  ghost predicate NoWildConnection(s: State)
  {
    forall c :: c in s.connections && !s.connections[c].abort ==>
      s.connections[c].proxySocket in s.proxies &&
      c in s.proxies[s.connections[c].proxySocket].relevantConnections
  }

  /** A proxy's relevant connections are present clients routed through it. */
  ghost predicate RelevantAccurate(s: State)
  {
    forall p, c :: p in s.proxies && c in s.proxies[p].relevantConnections ==>
      c in s.connections && s.connections[c].proxySocket == p
  }

  ghost predicate Consistent(s: State)
  {
    NoWildConnection(s) && RelevantAccurate(s)
  }

  /** No registered proxy carries the `removed` flag. */
  ghost predicate RegisteredLive(s: State)
  {
    forall p :: p in s.proxies ==> !s.proxies[p].removed
  }

  /**
   Recorder identities are fresh: every identity in use or torn down is below
   the allocator, no two registered connections share a recorder, no
   registered connection's recorder has been torn down, and no recorder has
   been torn down twice.
   */
  ghost predicate Fresh(s: State)
  {
    && (forall p :: p in s.proxies ==> s.proxies[p].recorder.id < s.nextRecorder)
    && (forall c :: c in s.connections ==> s.connections[c].recorder.id < s.nextRecorder)
    && (forall i :: 0 <= i < |s.tornDown| ==> s.tornDown[i] < s.nextRecorder)
    && (forall c, d :: c in s.connections && d in s.connections && c != d ==>
          s.connections[c].recorder.id != s.connections[d].recorder.id)
    && (forall c :: c in s.connections ==> s.connections[c].recorder.id !in s.tornDown)
    && (forall i, j :: 0 <= i < j < |s.tornDown| ==> s.tornDown[i] != s.tornDown[j])
  }

  /** Present clients routed through `p`. */
  ghost function Routed(s: State, p: Address): set<Address>
  {
    set c | c in s.connections && s.connections[c].proxySocket == p
  }

  /** Present clients routed through `p` that are not marked for abort. */
  ghost function RoutedLive(s: State, p: Address): set<Address>
  {
    set c | c in s.connections && s.connections[c].proxySocket == p && !s.connections[c].abort
  }

  // ---------------------------------------------------------------------------
  // Upstream proxy registry
  // ---------------------------------------------------------------------------

  /**
   Get-or-create of a proxy entry. A new entry is not removed, has no relevant
   connections and a recorder created under the root recorder.
   */
  function AddProxy(s: State, a: Address): (r: State)
    ensures r.connections == s.connections && r.tornDown == s.tornDown
    ensures r.proxies.Keys == s.proxies.Keys + {a}
    ensures a in s.proxies ==> r == s
    ensures a !in s.proxies ==>
      && r.proxies[a] == ProxyDetail(false, {}, Recorder(s.nextRecorder, Some(RootRecorder)))
      && r.nextRecorder == s.nextRecorder + 1
      && forall p :: p in s.proxies ==> r.proxies[p] == s.proxies[p]
  {
    if a in s.proxies then s
    else
      var detail := ProxyDetail(false, {}, Recorder(s.nextRecorder, Some(RootRecorder)));
      s.(proxies := s.proxies[a := detail], nextRecorder := s.nextRecorder + 1)
  }

  /** The connection map after every client in `clients` is marked for abort. */
  function AbortAll(m: map<Address, ConnectionDetail>, clients: set<Address>): (r: map<Address, ConnectionDetail>)
    ensures r.Keys == m.Keys
    ensures forall c :: c in m && c in clients ==> r[c] == m[c].(abort := true)
    ensures forall c :: c in m && c !in clients ==> r[c] == m[c]
  {
    map c | c in m :: if c in clients then m[c].(abort := true) else m[c]
  }

  /**
   Removing a registered proxy deletes exactly its key and marks every one of
   its relevant connections for abort; removing an unknown proxy changes
   nothing.
   */
  function RemoveProxy(s: State, a: Address): (r: State)
    ensures a !in s.proxies ==> r == s
    ensures a in s.proxies ==>
      && r.proxies == s.proxies - {a}
      && r.connections == AbortAll(s.connections, s.proxies[a].relevantConnections)
      && r.nextRecorder == s.nextRecorder && r.tornDown == s.tornDown
  {
    if a in s.proxies then
      s.(proxies := s.proxies - {a},
         connections := AbortAll(s.connections, s.proxies[a].relevantConnections))
    else s
  }

  /** What proxy removal hands back: the entry it deleted, now flagged removed. */
  function RemovedDetail(s: State, a: Address): (r: Option<ProxyDetail>)
    ensures r.Some? <==> a in s.proxies
    ensures r.Some? ==> r.value.removed
    ensures r.Some? ==> r.value.relevantConnections == s.proxies[a].relevantConnections
    ensures r.Some? ==> r.value.recorder == s.proxies[a].recorder
  {
    if a in s.proxies then Some(s.proxies[a].(removed := true)) else None
  }

  // ---------------------------------------------------------------------------
  // Connection registry
  // ---------------------------------------------------------------------------

  /**
   Registers `client` as routed through `proxy`. A new entry records `proxy`
   and `uri` and a recorder created with the proxy's recorder as parent
   argument (null when `proxy` is not registered), and the client joins the proxy's
   relevant connections. An existing entry keeps its routing. Either way the
   entry ends up marked for abort when `proxy` is unknown or flagged removed.
   */
  function AddConnection(s: State, client: Address, proxy: Address, uri: string): (r: State)
    ensures r.connections.Keys == s.connections.Keys + {client}
    ensures r.proxies.Keys == s.proxies.Keys && r.tornDown == s.tornDown
    ensures forall c :: c in s.connections && c != client ==> r.connections[c] == s.connections[c]
    ensures forall p :: p in s.proxies && p != proxy ==> r.proxies[p] == s.proxies[p]
    ensures r.connections[client].abort <==>
      || proxy !in s.proxies || s.proxies[proxy].removed
      || (client in s.connections && s.connections[client].abort)
    ensures client !in s.connections ==>
      && r.connections[client].proxySocket == proxy
      && r.connections[client].uri == uri
      && r.connections[client].recorder.id == s.nextRecorder
      && r.nextRecorder == s.nextRecorder + 1
      && r.connections[client].recorder.parent ==
           (if proxy in s.proxies then Some(s.proxies[proxy].recorder.id) else None)
      && (proxy in s.proxies ==>
            r.proxies[proxy] == s.proxies[proxy].(relevantConnections := s.proxies[proxy].relevantConnections + {client}))
    ensures client in s.connections ==>
      && r.connections[client] == s.connections[client].(abort := r.connections[client].abort)
      && r.proxies == s.proxies
      && r.nextRecorder == s.nextRecorder
  {
    var resolved := proxy in s.proxies;
    var parent := if resolved then Some(s.proxies[proxy].recorder.id) else None;
    var created := client !in s.connections;
    var entry :=
      if created then ConnectionDetail(proxy, uri, Recorder(s.nextRecorder, parent), false)
      else s.connections[client];
    var proxies :=
      if resolved && created
      then s.proxies[proxy := s.proxies[proxy].(relevantConnections := s.proxies[proxy].relevantConnections + {client})]
      else s.proxies;
    var mustAbort := !resolved || s.proxies[proxy].removed;
    var entry' := if mustAbort then entry.(abort := true) else entry;
    State(proxies, s.connections[client := entry'],
          if created then s.nextRecorder + 1 else s.nextRecorder, s.tornDown)
  }

  /**
   Removing a present client deletes exactly its key, tears its recorder down
   once and drops the client from its proxy's relevant connections when that
   proxy is still registered; removing an absent client changes nothing.
   */
  function RemoveConnection(s: State, client: Address): (r: State)
    ensures client !in s.connections ==> r == s
    ensures client in s.connections ==>
      var p := s.connections[client].proxySocket;
      && r.connections == s.connections - {client}
      && r.tornDown == s.tornDown + [s.connections[client].recorder.id]
      && r.nextRecorder == s.nextRecorder
      && r.proxies.Keys == s.proxies.Keys
      && (forall q :: q in s.proxies && q != p ==> r.proxies[q] == s.proxies[q])
      && (p in s.proxies ==>
            r.proxies[p] == s.proxies[p].(relevantConnections := s.proxies[p].relevantConnections - {client}))
  {
    if client in s.connections then
      var detail := s.connections[client];
      var p := detail.proxySocket;
      var proxies :=
        if p in s.proxies
        then s.proxies[p := s.proxies[p].(relevantConnections := s.proxies[p].relevantConnections - {client})]
        else s.proxies;
      State(proxies, s.connections - {client}, s.nextRecorder, s.tornDown + [detail.recorder.id])
    else s
  }

  /** Marks a present client for abort; an absent client is a no-op. */
  function Abort(s: State, client: Address): (r: State)
    ensures r.proxies == s.proxies && r.nextRecorder == s.nextRecorder && r.tornDown == s.tornDown
    ensures r.connections.Keys == s.connections.Keys
    ensures client in s.connections ==> r.connections[client] == s.connections[client].(abort := true)
    ensures forall c :: c in s.connections && c != client ==> r.connections[c] == s.connections[c]
  {
    if client in s.connections
    then s.(connections := s.connections[client := s.connections[client].(abort := true)])
    else s
  }

  // ---------------------------------------------------------------------------
  // Every operation keeps the invariant
  // ---------------------------------------------------------------------------

  lemma AddProxyKeepsConsistent(s: State, a: Address)
    requires Consistent(s)
    ensures Consistent(AddProxy(s, a))
  {
  }

  lemma RemoveProxyKeepsConsistent(s: State, a: Address)
    requires Consistent(s)
    ensures Consistent(RemoveProxy(s, a))
  {
  }

  lemma AddConnectionKeepsConsistent(s: State, client: Address, proxy: Address, uri: string)
    requires Consistent(s)
    ensures Consistent(AddConnection(s, client, proxy, uri))
  {
  }

  lemma RemoveConnectionKeepsConsistent(s: State, client: Address)
    requires Consistent(s)
    ensures Consistent(RemoveConnection(s, client))
  {
  }

  lemma AbortKeepsConsistent(s: State, client: Address)
    requires Consistent(s)
    ensures Consistent(Abort(s, client))
  {
  }

  /**
   Removing a registered client from a fresh state tears down a recorder that
   was never torn down before, and the state stays fresh.
   */
  lemma RemoveConnectionTearsDownOnce(s: State, client: Address)
    requires Fresh(s) && client in s.connections
    ensures s.connections[client].recorder.id !in s.tornDown
    ensures RemoveConnection(s, client).tornDown == s.tornDown + [s.connections[client].recorder.id]
    ensures Fresh(RemoveConnection(s, client))
  {
    var r := RemoveConnection(s, client);
    var id := s.connections[client].recorder.id;
    forall i, j | 0 <= i < j < |r.tornDown|
      ensures r.tornDown[i] != r.tornDown[j]
    {
      if j == |s.tornDown| {
        assert r.tornDown[j] == id && r.tornDown[i] == s.tornDown[i];
      }
    }
  }

  lemma AddConnectionKeepsFresh(s: State, client: Address, proxy: Address, uri: string)
    requires Fresh(s)
    ensures Fresh(AddConnection(s, client, proxy, uri))
  {
  }

  /**
   In a consistent state a proxy's relevant connections lie between its live
   routed clients and all of its routed clients.
   */
  lemma RelevantBetweenRoutedSets(s: State, p: Address)
    requires Consistent(s) && p in s.proxies
    ensures RoutedLive(s, p) <= s.proxies[p].relevantConnections <= Routed(s, p)
  {
  }

  /**
   After a proxy is removed from a consistent state, every client routed
   through it is marked for abort.
   */
  lemma RemoveProxyAbortsRouted(s: State, a: Address)
    requires Consistent(s)
    ensures var r := RemoveProxy(s, a);
      forall c :: c in r.connections && r.connections[c].proxySocket == a ==> r.connections[c].abort
  {
  }
}

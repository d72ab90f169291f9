/**
 The switcher's two registries, updated in place: the upstream-proxy map and
 the connection map, with the cross-references between them. Every method is
 proved to move the abstract state exactly as the matching function of
 module Bookkeeping does, and the mutating ones keep Valid(), the
 no-wild-connection invariant.
 */
module Registries {
  import opened Domain
  import Bookkeeping

  class Switcher {
    /** Upstream-proxy registry: proxy address to its detail. */
    var proxies: map<Address, ProxyDetail>
    /** Connection registry: client address to its detail. */
    var connections: map<Address, ConnectionDetail>
    /** Identity the next throughput recorder created will receive. */
    var nextRecorder: nat
    /** Identities of the recorders torn down, in order. */
    ghost var tornDown: seq<nat>

    ghost function Model(): Bookkeeping.State
      reads this
    {
      Bookkeeping.State(proxies, connections, nextRecorder, tornDown)
    }

    ghost predicate Valid()
      reads this
    {
      Bookkeeping.Consistent(Model())
    }

    /** Both registries start empty, then the direct-connection sentinel is registered. */
    constructor ()
      ensures Valid()
      ensures Model() == Bookkeeping.Initial()
      ensures DirectConnection in proxies && connections == map[]
    {
      proxies := map[];
      connections := map[];
      nextRecorder := RootRecorder + 1;
      tornDown := [];
      new;
      var _ := AddProxy(DirectConnection);
    }

    // -------------------------------------------------------------------------
    // Upstream proxy registry
    // -------------------------------------------------------------------------

    /** Get-or-create; returns the registered detail for `a`. */
    method AddProxy(a: Address) returns (d: ProxyDetail)
      requires Valid()
      modifies this
      ensures Valid()
      ensures Model() == Bookkeeping.AddProxy(old(Model()), a)
      ensures a in proxies && d == proxies[a]
      ensures a in old(proxies) ==> d == old(proxies)[a]
    {
      if a !in proxies {
        proxies := proxies[a := ProxyDetail(false, {}, Recorder(nextRecorder, Some(RootRecorder)))];
        nextRecorder := nextRecorder + 1;
      }
      d := proxies[a];
      Bookkeeping.AddProxyKeepsConsistent(old(Model()), a);
    }

    /** Add whose "no detail came back" diagnostic can never be reached. */
    method SureAddProxy(a: Address)
      requires Valid()
      modifies this
      ensures Valid()
      ensures Model() == Bookkeeping.AddProxy(old(Model()), a)
      ensures a in proxies
    {
      var _ := AddProxy(a);
    }

    method ProxyCount() returns (n: nat)
      ensures n == |proxies.Keys|
    {
      n := |proxies|;
    }

    method AllProxies() returns (entries: seq<Entry<ProxyDetail>>)
      ensures |entries| == |proxies|
      ensures EntriesOf(entries, proxies) && DistinctAddresses(entries)
      ensures forall a :: a in proxies ==> exists i :: 0 <= i < |entries| && entries[i].address == a
    {
      entries := Enumerate(proxies);
    }

    method GetProxyDetail(a: Address) returns (r: Option<ProxyDetail>)
      ensures r.Some? <==> a in proxies
      ensures r.Some? ==> r.value == proxies[a]
    {
      r := if a in proxies then Some(proxies[a]) else None;
    }

    /** Lookup whose absent case is reported as a diagnostic only. */
    method SureGetProxyDetail(a: Address) returns (r: Option<ProxyDetail>)
      ensures r.Some? <==> a in proxies
      ensures r.Some? ==> r.value == proxies[a]
    {
      r := GetProxyDetail(a);
    }

    /**
     Deletes `a`, flags its detail removed and then marks each of its relevant
     connections for abort, one at a time; returns the removed detail.
     */
    method RemoveProxy(a: Address) returns (r: Option<ProxyDetail>)
      requires Valid()
      modifies this
      ensures Valid()
      ensures Model() == Bookkeeping.RemoveProxy(old(Model()), a)
      ensures r == Bookkeeping.RemovedDetail(old(Model()), a)
    {
      if a !in proxies {
        return None;
      }
      var detail := proxies[a];
      proxies := proxies - {a};
      detail := detail.(removed := true);
      var pending := detail.relevantConnections;
      while pending != {}
        invariant pending <= detail.relevantConnections
        invariant proxies == old(proxies) - {a}
        invariant nextRecorder == old(nextRecorder) && tornDown == old(tornDown)
        invariant connections == Bookkeeping.AbortAll(old(connections), detail.relevantConnections - pending)
        decreases pending
      {
        var c :| c in pending;
        SureAbort(c);
        pending := pending - {c};
      }
      r := Some(detail);
      Bookkeeping.RemoveProxyKeepsConsistent(old(Model()), a);
    }

    // -------------------------------------------------------------------------
    // Connection registry
    // -------------------------------------------------------------------------

    /**
     Registers `client` as routed through `proxy` (get-or-create), enrols a new
     client in the proxy's relevant connections, and marks the entry for abort
     when the proxy is unknown or flagged removed.
     */
    method AddConnection(client: Address, proxy: Address, uri: string)
      requires Valid()
      modifies this
      ensures Valid()
      ensures Model() == Bookkeeping.AddConnection(old(Model()), client, proxy, uri)
    {
      var resolved := SureGetProxyDetail(proxy);
      var parent: Option<nat> := None;
      if resolved.Some? {
        parent := Some(resolved.value.recorder.id);
      }
      var created := client !in connections;
      if created {
        connections := connections[client := ConnectionDetail(proxy, uri, Recorder(nextRecorder, parent), false)];
        nextRecorder := nextRecorder + 1;
      }
      var detail := connections[client];
      if resolved.Some? {
        var proxyDetail := resolved.value;
        if created {
          proxyDetail := proxyDetail.(relevantConnections := proxyDetail.relevantConnections + {client});
          proxies := proxies[proxy := proxyDetail];
        }
        if proxyDetail.removed {
          connections := connections[client := detail.(abort := true)];
        }
      } else {
        connections := connections[client := detail.(abort := true)];
      }
      ghost var target := Bookkeeping.AddConnection(old(Model()), client, proxy, uri);
      assert proxies == target.proxies;
      assert connections == target.connections;
      assert Model() == target;
      Bookkeeping.AddConnectionKeepsConsistent(old(Model()), client, proxy, uri);
    }

    method ConnectionCount() returns (n: nat)
      ensures n == |connections.Keys|
    {
      n := |connections|;
    }

    method AllConnections() returns (entries: seq<Entry<ConnectionDetail>>)
      ensures |entries| == |connections|
      ensures EntriesOf(entries, connections) && DistinctAddresses(entries)
      ensures forall c :: c in connections ==> exists i :: 0 <= i < |entries| && entries[i].address == c
    {
      entries := Enumerate(connections);
    }

    method GetConnectionDetail(client: Address) returns (r: Option<ConnectionDetail>)
      ensures r.Some? <==> client in connections
      ensures r.Some? ==> r.value == connections[client]
    {
      r := if client in connections then Some(connections[client]) else None;
    }

    /** Lookup whose absent case is reported as a diagnostic only. */
    method SureGetConnectionDetail(client: Address) returns (r: Option<ConnectionDetail>)
      ensures r.Some? <==> client in connections
      ensures r.Some? ==> r.value == connections[client]
    {
      r := GetConnectionDetail(client);
    }

    /**
     Deletes `client`, tears its recorder down and takes it out of its proxy's
     relevant connections if that proxy is still registered.
     */
    method RemoveConnection(client: Address)
      requires Valid()
      modifies this
      ensures Valid()
      ensures Model() == Bookkeeping.RemoveConnection(old(Model()), client)
    {
      if client !in connections {
        return;
      }
      var detail := connections[client];
      connections := connections - {client};
      tornDown := tornDown + [detail.recorder.id];
      var proxyDetail := SureGetProxyDetail(detail.proxySocket);
      if proxyDetail.Some? {
        var updated := proxyDetail.value.(relevantConnections := proxyDetail.value.relevantConnections - {client});
        proxies := proxies[detail.proxySocket := updated];
      }
      Bookkeeping.RemoveConnectionKeepsConsistent(old(Model()), client);
    }

    /** Marks `client` for abort if it is registered; `sure` only selects the diagnostic lookup. */
    method Abort0(client: Address, sure: bool)
      modifies this
      ensures Model() == Bookkeeping.Abort(old(Model()), client)
    {
      var detail;
      if sure {
        detail := SureGetConnectionDetail(client);
      } else {
        detail := GetConnectionDetail(client);
      }
      if detail.Some? {
        connections := connections[client := detail.value.(abort := true)];
      }
    }

    /** Abort used by the proxy-removal sweep; no invariant is assumed mid-sweep. */
    method SureAbort(client: Address)
      modifies this
      ensures Model() == Bookkeeping.Abort(old(Model()), client)
    {
      Abort0(client, true);
    }

    method Abort(client: Address)
      requires Valid()
      modifies this
      ensures Valid()
      ensures Model() == Bookkeeping.Abort(old(Model()), client)
    {
      Abort0(client, false);
      Bookkeeping.AbortKeepsConsistent(old(Model()), client);
    }
  }
}

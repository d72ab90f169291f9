/**
 Arbitrary sequences of registry calls, as the accept loop and the
 administrative interface issue them, and what holds in every state they can
 reach from a freshly constructed switcher.
 */
module Traces {
  import opened Domain
  import opened Bookkeeping

  /** One call on either registry. */
  datatype Op =
    | AddProxyOp(proxy: Address)
    | RemoveProxyOp(proxy: Address)
    | AddConnectionOp(client: Address, via: Address, uri: string)
    | RemoveConnectionOp(client: Address)
    | AbortOp(client: Address)

  function Step(s: State, op: Op): State
  {
    match op
    case AddProxyOp(a) => AddProxy(s, a)
    case RemoveProxyOp(a) => RemoveProxy(s, a)
    case AddConnectionOp(c, p, u) => AddConnection(s, c, p, u)
    case RemoveConnectionOp(c) => RemoveConnection(s, c)
    case AbortOp(c) => Abort(s, c)
  }

  /** The state after performing `ops` in order, starting from `s`. */
  function Run(s: State, ops: seq<Op>): State
    decreases |ops|
  {
    if ops == [] then s else Run(Step(s, ops[0]), ops[1..])
  }

  /** Performing one more call after a sequence is the same as running the longer sequence. */
  lemma {:induction false} RunAppend(s: State, ops: seq<Op>, op: Op)
    ensures Run(s, ops + [op]) == Step(Run(s, ops), op)
    decreases |ops|
  {
    if ops == [] {
      assert [op][1..] == [];
    } else {
      assert (ops + [op])[1..] == ops[1..] + [op];
      RunAppend(Step(s, ops[0]), ops[1..], op);
    }
  }

  lemma StepKeepsConsistent(s: State, op: Op)
    requires Consistent(s)
    ensures Consistent(Step(s, op))
  {
    match op
    case AddProxyOp(a) => AddProxyKeepsConsistent(s, a);
    case RemoveProxyOp(a) => RemoveProxyKeepsConsistent(s, a);
    case AddConnectionOp(c, p, u) => AddConnectionKeepsConsistent(s, c, p, u);
    case RemoveConnectionOp(c) => RemoveConnectionKeepsConsistent(s, c);
    case AbortOp(c) => AbortKeepsConsistent(s, c);
  }

  lemma {:induction false} RunKeepsConsistent(s: State, ops: seq<Op>)
    requires Consistent(s)
    ensures Consistent(Run(s, ops))
    decreases |ops|
  {
    if ops != [] {
      StepKeepsConsistent(s, ops[0]);
      RunKeepsConsistent(Step(s, ops[0]), ops[1..]);
    }
  }

  /** Only proxy removal sets `removed`, and it deletes the key in the same step. */
  lemma StepKeepsRegisteredLive(s: State, op: Op)
    requires RegisteredLive(s)
    ensures RegisteredLive(Step(s, op))
  {
  }

  lemma {:induction false} RunKeepsRegisteredLive(s: State, ops: seq<Op>)
    requires RegisteredLive(s)
    ensures RegisteredLive(Run(s, ops))
    decreases |ops|
  {
    if ops != [] {
      StepKeepsRegisteredLive(s, ops[0]);
      RunKeepsRegisteredLive(Step(s, ops[0]), ops[1..]);
    }
  }

  /** Every call keeps recorder identities fresh. */
  lemma StepKeepsFresh(s: State, op: Op)
    requires Fresh(s)
    ensures Fresh(Step(s, op))
  {
    match op
    case AddConnectionOp(c, p, u) => AddConnectionKeepsFresh(s, c, p, u);
    case RemoveConnectionOp(c) =>
      if c in s.connections { RemoveConnectionTearsDownOnce(s, c); }
    case _ =>
  }

  lemma {:induction false} RunKeepsFresh(s: State, ops: seq<Op>)
    requires Fresh(s)
    ensures Fresh(Run(s, ops))
    decreases |ops|
  {
    if ops != [] {
      StepKeepsFresh(s, ops[0]);
      RunKeepsFresh(Step(s, ops[0]), ops[1..]);
    }
  }

  /**
   Every state reachable from construction has no wild connection, accurate
   relevant-connection sets, no registered proxy flagged removed (so in a
   sequential run the `removed` test of connection add never fires), and fresh
   recorder identities (so a removed connection's recorder is torn down once).
   */
  lemma ReachableStatesAreConsistent(ops: seq<Op>)
    ensures Consistent(Run(Initial(), ops))
    ensures RegisteredLive(Run(Initial(), ops))
    ensures Fresh(Run(Initial(), ops))
  {
    RunKeepsConsistent(Initial(), ops);
    RunKeepsRegisteredLive(Initial(), ops);
    RunKeepsFresh(Initial(), ops);
  }

  /** A client that stays registered keeps its abort mark through any call. */
  lemma StepKeepsAbort(s: State, op: Op, c: Address)
    requires c in s.connections && s.connections[c].abort
    requires c in Step(s, op).connections
    ensures Step(s, op).connections[c].abort
  {
  }

  /** No call sequence that does not remove the client clears its abort mark. */
  lemma {:induction false} RunKeepsAbortWhilePresent(s: State, ops: seq<Op>, c: Address)
    requires c in s.connections && s.connections[c].abort
    requires forall i :: 0 <= i < |ops| ==> ops[i] != RemoveConnectionOp(c)
    ensures c in Run(s, ops).connections && Run(s, ops).connections[c].abort
    decreases |ops|
  {
    if ops != [] {
      assert ops[0] != RemoveConnectionOp(c);
      StepKeepsAbort(s, ops[0], c);
      RunKeepsAbortWhilePresent(Step(s, ops[0]), ops[1..], c);
    }
  }

  // ---------------------------------------------------------------------------
  // Scenarios
  // ---------------------------------------------------------------------------

  const P1: Address := Address("10.0.0.1", 8080)
  const C1: Address := Address("192.168.1.5", 51000)
  const C2: Address := Address("192.168.1.6", 51001)
  const Uri: string := "http://example.com"

  /**
   A connection registered through a live proxy is listed with it and not
   aborted; removing the proxy marks it for abort while it stays registered.
   */
  lemma ProxyRemovalAbortsItsConnection()
    ensures var s := Run(Initial(), [AddProxyOp(P1), AddConnectionOp(C1, P1, Uri)]);
      && P1 in s.proxies && C1 in s.connections
      && s.proxies[P1].relevantConnections == {C1}
      && !s.connections[C1].abort
    ensures var s := Run(Initial(), [AddProxyOp(P1), AddConnectionOp(C1, P1, Uri), RemoveProxyOp(P1)]);
      && P1 !in s.proxies
      && C1 in s.connections && s.connections[C1].abort
  {
    var one := [AddProxyOp(P1)];
    var two := one + [AddConnectionOp(C1, P1, Uri)];
    RunAppend(Initial(), [], AddProxyOp(P1));
    RunAppend(Initial(), one, AddConnectionOp(C1, P1, Uri));
    RunAppend(Initial(), two, RemoveProxyOp(P1));
  }

  /** A connection naming a proxy that was never registered is aborted at once. */
  lemma UnknownProxyConnectionAborted()
    ensures var s := Run(Initial(), [AddConnectionOp(C2, P1, Uri)]);
      C2 in s.connections && s.connections[C2].abort && s.connections[C2].recorder.parent == None
  {
    RunAppend(Initial(), [], AddConnectionOp(C2, P1, Uri));
  }

  /**
   The relevant-connection set need not hold every routed client: after a
   proxy is removed and registered again under the same address, the aborted
   client still routed through it is not listed in the new entry.
   */
  lemma ReAddedProxyOmitsAbortedClient()
    ensures var s := Run(Initial(), [AddProxyOp(P1), AddConnectionOp(C1, P1, Uri), RemoveProxyOp(P1), AddProxyOp(P1)]);
      && P1 in s.proxies && C1 in s.connections
      && s.connections[C1].proxySocket == P1
      && s.connections[C1].abort
      && C1 !in s.proxies[P1].relevantConnections
      && Routed(s, P1) != s.proxies[P1].relevantConnections
  {
    var one := [AddProxyOp(P1)];
    var two := one + [AddConnectionOp(C1, P1, Uri)];
    var three := two + [RemoveProxyOp(P1)];
    RunAppend(Initial(), [], AddProxyOp(P1));
    RunAppend(Initial(), one, AddConnectionOp(C1, P1, Uri));
    RunAppend(Initial(), two, RemoveProxyOp(P1));
    RunAppend(Initial(), three, AddProxyOp(P1));
    assert three + [AddProxyOp(P1)]
        == [AddProxyOp(P1), AddConnectionOp(C1, P1, Uri), RemoveProxyOp(P1), AddProxyOp(P1)];
    var s := Run(Initial(), three + [AddProxyOp(P1)]);
    assert C1 in Routed(s, P1);
  }
}

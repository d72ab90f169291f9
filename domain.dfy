/**
 The values the two registries store: socket addresses, throughput-recorder
 handles, and the detail records kept per upstream proxy and per client
 connection.
 */
module Domain {

  datatype Option<T> = None | Some(value: T)

  /**
   A socket address. Structural equality on (host, port) stands in for the
   socket address's own equality (resolved addresses compared by IP,
   unresolved host names compared case-insensitively).
   */
  datatype Address = Address(host: string, port: int)

  /** The sentinel "no upstream proxy, connect directly" (empty host, port 0). */
  const DirectConnection: Address := Address("", 0)

  /** Identity of the switcher's own root throughput recorder. */
  const RootRecorder: nat := 0

  /**
   A handle on a throughput recorder: its identity and the parent argument it
   was created with (None when null was passed). What the recorder itself does
   with a null parent is not modelled.
   */
  datatype Recorder = Recorder(id: nat, parent: Option<nat>)

  /** State kept per registered upstream proxy. */
  datatype ProxyDetail = ProxyDetail(
    removed: bool,
    relevantConnections: set<Address>,
    recorder: Recorder)

  /** State kept per client connection. */
  datatype ConnectionDetail = ConnectionDetail(
    proxySocket: Address,
    uri: string,
    recorder: Recorder,
    abort: bool)

  /** One (address, detail) pair of an enumeration snapshot. */
  datatype Entry<V> = Entry(address: Address, detail: V)

  /** True iff no address occurs twice in `entries`. */
  ghost predicate DistinctAddresses<V>(entries: seq<Entry<V>>)
  {
    forall i, j :: 0 <= i < j < |entries| ==> entries[i].address != entries[j].address
  }

  /** True iff every entry is a pair of `m`. */
  ghost predicate EntriesOf<V>(entries: seq<Entry<V>>, m: map<Address, V>)
  {
    forall i :: 0 <= i < |entries| ==> entries[i].address in m && entries[i].detail == m[entries[i].address]
  }

  /**
   Snapshot of a registry map as a list of pairs, built one key at a time:
   exactly one pair per key, each carrying that key's detail.
   */
  method Enumerate<V>(m: map<Address, V>) returns (entries: seq<Entry<V>>)
    ensures |entries| == |m|
    ensures EntriesOf(entries, m)
    ensures DistinctAddresses(entries)
    ensures forall a :: a in m ==> exists i :: 0 <= i < |entries| && entries[i].address == a
  {
    entries := [];
    var pending := m.Keys;
    while pending != {}
      invariant pending <= m.Keys
      invariant |entries| + |pending| == |m|
      invariant EntriesOf(entries, m)
      invariant DistinctAddresses(entries)
      invariant forall i :: 0 <= i < |entries| ==> entries[i].address !in pending
      invariant forall a :: a in m && a !in pending ==> exists i :: 0 <= i < |entries| && entries[i].address == a
      decreases pending
    {
      var a :| a in pending;
      ghost var before := entries;
      entries := entries + [Entry(a, m[a])];
      pending := pending - {a};
      forall b | b in m && b !in pending
        ensures exists i :: 0 <= i < |entries| && entries[i].address == b
      {
        if b == a {
          assert entries[|before|].address == b;
        } else {
          var i :| 0 <= i < |before| && before[i].address == b;
          assert entries[i].address == b;
        }
      }
    }
  }
}

/** The registry of streaming clients (the process-wide `CLIENTS` map): one
    entry per HTTP connection, keyed by the connection's remote socket address. */
module ClientRegistry {
  import opened Common
  import opened Addresses

  /** A client's stream, seen from the registry: the host it serves, its
      framing flag and sample rate, and the sample batches the capture side has
      written to it so far. Pre-roll silence, container header and the queue
      behind it are not part of this model. */
  datatype ChannelStream = ChannelStream(
    remoteIp: string,
    useWaveFormat: bool,
    sampleRate: uint32,
    written: seq<seq<int16>>)

  /** Every entry serves the host part of the key it is registered under. */
  ghost predicate KeyedByAddress(clients: map<string, ChannelStream>) {
    forall key :: key in clients ==> clients[key].remoteIp == RemoteIp(key)
  }

  /** Whether some registered stream serves host `ip` (the consumer's check
      over the registry's values). */
  predicate StillStreaming(clients: map<string, ChannelStream>, ip: string) {
    exists cs :: cs in clients.Values && cs.remoteIp == ip
  }

  /** In a registry keyed by address, a host is streaming exactly when some key
      of the registry has that host part. */
  lemma StillStreamingByKey(clients: map<string, ChannelStream>, ip: string)
    requires KeyedByAddress(clients)
    ensures StillStreaming(clients, ip) <==> exists key :: key in clients && RemoteIp(key) == ip
  {
    if StillStreaming(clients, ip) {
      var cs :| cs in clients.Values && cs.remoteIp == ip;
      var key :| key in clients && clients[key] == cs;
    }
    if key :| key in clients && RemoteIp(key) == ip {
      assert clients[key] in clients.Values;
    }
  }

  /** A stream after `batch` has been written to it. */
  function Write(cs: ChannelStream, batch: seq<int16>): ChannelStream {
    cs.(written := cs.written + [batch])
  }

  /** The registry with `batch` written to every entry's stream. */
  function WrittenToAll(clients: map<string, ChannelStream>, batch: seq<int16>): (r: map<string, ChannelStream>)
    ensures r.Keys == clients.Keys
    // each stream keeps its host, framing and rate, and receives the batch last
    ensures forall key :: key in clients ==>
              && r[key].remoteIp == clients[key].remoteIp
              && r[key].useWaveFormat == clients[key].useWaveFormat
              && r[key].sampleRate == clients[key].sampleRate
              && r[key].written == clients[key].written + [batch]
  {
    map key | key in clients :: Write(clients[key], batch)
  }

  class Clients {
    var clients: map<string, ChannelStream>

    ghost predicate Valid()
      reads this
    {
      KeyedByAddress(clients)
    }

    constructor ()
      ensures Valid() && clients == map[]
    {
      clients := map[];
    }

    /** `insert` under the write lock; returns the number of clients. */
    method Insert(key: string, stream: ChannelStream) returns (n: nat)
      requires Valid() && stream.remoteIp == RemoteIp(key)
      modifies this
      ensures Valid()
      ensures clients == old(clients)[key := stream]
      ensures n == |clients|
    {
      clients := clients[key := stream];
      n := |clients|;
    }

    /** `remove` under the write lock; returns the number of clients left. */
    method Remove(key: string) returns (n: nat)
      requires Valid()
      modifies this
      ensures Valid()
      ensures clients == old(clients) - {key}
      ensures key !in clients
      ensures n == |clients|
    {
      clients := clients - {key};
      n := |clients|;
    }

    /** Writes `batch` to every registered stream, one entry at a time. */
    method WriteAll(batch: seq<int16>)
      requires Valid()
      modifies this
      ensures Valid()
      ensures clients == WrittenToAll(old(clients), batch)
    {
      var todo := clients.Keys;
      while todo != {}
        invariant todo <= clients.Keys == old(clients).Keys
        invariant forall key :: key in clients ==>
          clients[key] == if key in todo then old(clients)[key] else Write(old(clients)[key], batch)
        decreases todo
      {
        var key :| key in todo;
        clients := clients[key := Write(clients[key], batch)];
        todo := todo - {key};
      }
    }
  }
}

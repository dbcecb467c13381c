/** The registry of agents' streams: a two-level map by project and service, with an index from host to the
    registration saved last for it (app/registry.go). The formatted keys are modelled by the tuples they
    are formatted from. */
module StreamRegistry {
  import opened Basics

  /** What an agent registers with; the register time tells two registrations of one agent apart. */
  datatype NodeMeta = NodeMeta(region: string, system: int, service: string, host: string, port: int, registerTime: int)

  /** A stream stands for the connection it was opened on. */
  datatype Stream = Stream(connection: nat, meta: NodeMeta)

  datatype ServiceKey = ServiceKey(system: int, service: string)
  datatype HostKey = HostKey(host: string, port: int)
  datatype HostIndex = HostIndex(one: ServiceKey, two: NodeMeta)

  function KeyOf(info: NodeMeta): ServiceKey {
    ServiceKey(info.system, info.service)
  }

  function HostOf(info: NodeMeta): HostKey {
    HostKey(info.host, info.port)
  }

  // ----- the reference: the history of calls -----

  datatype Call = Save(info: NodeMeta, connection: nat) | Remove(info: NodeMeta)

  /** The stream a registration has after the calls, if it is registered. */
  function Registered(calls: seq<Call>, info: NodeMeta): Option<Stream> {
    if calls == [] then None else
    var last := calls[|calls| - 1];
    if last.info != info then Registered(calls[..|calls| - 1], info)
    else if last.Save? then Some(Stream(last.connection, info)) else None
  }

  /** The registration saved last for a host. */
  function LastSaved(calls: seq<Call>, host: HostKey): Option<NodeMeta> {
    if calls == [] then None else
    var last := calls[|calls| - 1];
    if last.Save? && HostOf(last.info) == host then Some(last.info) else LastSaved(calls[..|calls| - 1], host)
  }

  lemma OneMoreCall(calls: seq<Call>, call: Call, info: NodeMeta, host: HostKey)
    ensures Registered(calls + [call], info) ==
            if call.info != info then Registered(calls, info)
            else if call.Save? then Some(Stream(call.connection, info)) else None
    ensures LastSaved(calls + [call], host) ==
            if call.Save? && HostOf(call.info) == host then Some(call.info) else LastSaved(calls, host)
  {
    assert (calls + [call])[..|calls|] == calls;
  }

  lemma {:induction false} LastSavedIsOfHost(calls: seq<Call>, host: HostKey)
    ensures var info := LastSaved(calls, host);
            info.Some? ==> info.value.host == host.host && info.value.port == host.port
  {
    if calls != [] {
      LastSavedIsOfHost(calls[..|calls| - 1], host);
    }
  }

  lemma {:induction false} RegisteredIsOwn(calls: seq<Call>)
    ensures forall info :: Registered(calls, info).Some? ==> Registered(calls, info).value.meta == info
  {
    if calls != [] {
      RegisteredIsOwn(calls[..|calls| - 1]);
    }
  }

  /** A host, by name and port, finds what was saved for it last; another host or port is left alone. */
  lemma SavedIsFound(calls: seq<Call>, info: NodeMeta, connection: nat, host: string, port: int)
    ensures var all := calls + [Save(info, connection)];
            && Registered(all, info) == Some(Stream(connection, info))
            && LastSaved(all, HostKey(host, port)) ==
               if info.host == host && info.port == port then Some(info) else LastSaved(calls, HostKey(host, port))
  {
    OneMoreCall(calls, Save(info, connection), info, HostKey(host, port));
  }

  /** Removals of other registrations, however late, leave a registration alone, and its host finds it until
      another registration is saved for that host. */
  lemma {:induction false} LateRemovalIsHarmless(calls: seq<Call>, info: NodeMeta, connection: nat, later: seq<Call>)
    requires forall c :: c in later ==> c.info != info
    ensures var all := calls + [Save(info, connection)] + later;
            && Registered(all, info) == Some(Stream(connection, info))
            && ((forall c :: c in later && c.Save? ==> HostOf(c.info) != HostOf(info)) ==>
                  LastSaved(all, HostOf(info)) == Some(info))
  {
    var all := calls + [Save(info, connection)] + later;
    if later == [] {
      assert all == calls + [Save(info, connection)];
      OneMoreCall(calls, Save(info, connection), info, HostOf(info));
    } else {
      var n := |later| - 1;
      LateRemovalIsHarmless(calls, info, connection, later[..n]);
      assert all == calls + [Save(info, connection)] + later[..n] + [later[n]];
      OneMoreCall(calls + [Save(info, connection)] + later[..n], later[n], info, HostOf(info));
    }
  }

  // ----- the code -----

  type Alive = map<ServiceKey, map<NodeMeta, Stream>>

  function Find(alive: Alive, info: NodeMeta): Option<Stream> {
    if KeyOf(info) in alive && info in alive[KeyOf(info)] then Some(alive[KeyOf(info)][info]) else None
  }

  /** Every registration is filed under its own key, and no empty inner map is kept. */
  ghost predicate Filed(alive: Alive) {
    forall k :: k in alive ==> alive[k] != map[] && forall info :: info in alive[k] ==> KeyOf(info) == k
  }

  ghost predicate Agrees(alive: Alive, calls: seq<Call>) {
    forall info :: Find(alive, info) == Registered(calls, info)
  }

  ghost predicate Indexes(index: map<HostKey, HostIndex>, calls: seq<Call>) {
    && (forall h :: h in index <==> LastSaved(calls, h).Some?)
    && (forall h :: h in index ==> index[h] == HostIndex(KeyOf(LastSaved(calls, h).value), LastSaved(calls, h).value))
  }

  lemma CallMakes(alive: Alive, index: map<HostKey, HostIndex>, calls: seq<Call>, call: Call,
                  alive': Alive, index': map<HostKey, HostIndex>)
    requires Agrees(alive, calls) && Indexes(index, calls)
    requires forall i :: Find(alive', i) ==
               if call.info != i then Find(alive, i) else if call.Save? then Some(Stream(call.connection, i)) else None
    requires index' == if call.Save? then index[HostOf(call.info) := HostIndex(KeyOf(call.info), call.info)] else index
    ensures Agrees(alive', calls + [call]) && Indexes(index', calls + [call])
  {
    forall i ensures Find(alive', i) == Registered(calls + [call], i) {
      OneMoreCall(calls, call, i, HostOf(i));
    }
    forall h
      ensures LastSaved(calls + [call], h) ==
              if call.Save? && HostOf(call.info) == h then Some(call.info) else LastSaved(calls, h)
    {
      OneMoreCall(calls, call, call.info, h);
    }
  }

  lemma SaveEffect(alive: Alive, info: NodeMeta, srvList: map<NodeMeta, Stream>, connection: nat)
    requires Filed(alive)
    requires srvList == (if KeyOf(info) in alive then alive[KeyOf(info)] else map[])[info := Stream(connection, info)]
    ensures var alive' := alive[KeyOf(info) := srvList];
            Filed(alive')
            && forall i :: Find(alive', i) == if i == info then Some(Stream(connection, info)) else Find(alive, i)
  {
    assert info in srvList;
  }

  lemma RemovalEffect(alive: Alive, info: NodeMeta, srvList: map<NodeMeta, Stream>)
    requires Filed(alive) && KeyOf(info) in alive && srvList == alive[KeyOf(info)] - {info}
    ensures var alive' := if |srvList| == 0 then alive - {KeyOf(info)} else alive[KeyOf(info) := srvList];
            Filed(alive') && forall i :: Find(alive', i) == if i == info then None else Find(alive, i)
  {
    var k := KeyOf(info);
    var alive' := if |srvList| == 0 then alive - {k} else alive[k := srvList];
    forall i ensures Find(alive', i) == if i == info then None else Find(alive, i) {
      if KeyOf(i) == k {
        assert i in srvList <==> i in alive[k] && i != info;
        assert |srvList| == 0 ==> i !in srvList;
      }
    }
    assert |srvList| != 0 ==> srvList != map[];
  }

  class StreamManager {
    var aliveSrv: map<ServiceKey, map<NodeMeta, Stream>>
    var hostIndex: map<HostKey, HostIndex>
    ghost var calls: seq<Call>

    ghost predicate Valid()
      reads this
    {
      Filed(aliveSrv) && Agrees(aliveSrv, calls) && Indexes(hostIndex, calls)
    }

    constructor ()
      ensures Valid() && calls == []
    {
      aliveSrv, hostIndex, calls := map[], map[], [];
    }

    method SaveStream(info: NodeMeta, connection: nat)
      requires Valid()
      modifies this
      ensures Valid() && calls == old(calls) + [Save(info, connection)]
    {
      var k := KeyOf(info);
      var srvList := if k in aliveSrv then aliveSrv[k] else map[];
      srvList := srvList[info := Stream(connection, info)];
      SaveEffect(aliveSrv, info, srvList, connection);
      aliveSrv := aliveSrv[k := srvList];
      hostIndex := hostIndex[HostOf(info) := HostIndex(k, info)];
      CallMakes(old(aliveSrv), old(hostIndex), calls, Save(info, connection), aliveSrv, hostIndex);
      calls := calls + [Save(info, connection)];
    }

    method RemoveStream(info: NodeMeta)
      requires Valid()
      modifies this
      ensures Valid() && calls == old(calls) + [Remove(info)]
    {
      var k := KeyOf(info);
      if k in aliveSrv {
        var srvList := aliveSrv[k] - {info};
        RemovalEffect(aliveSrv, info, srvList);
        if |srvList| == 0 {
          aliveSrv := aliveSrv - {k};
        } else {
          aliveSrv := aliveSrv[k := srvList];
        }
      }
      CallMakes(old(aliveSrv), hostIndex, calls, Remove(info), aliveSrv, hostIndex);
      calls := calls + [Remove(info)];
    }

    /** The registration saved last for the host, unless that one has been removed since. */
    method GetStreamsByHost(host: HostKey) returns (stream: Option<Stream>)
      requires Valid()
      ensures stream ==
              if LastSaved(calls, host).Some? then Registered(calls, LastSaved(calls, host).value) else None
      ensures stream.Some? ==> stream.value.meta.host == host.host && stream.value.meta.port == host.port
    {
      LastSavedIsOfHost(calls, host);
      RegisteredIsOwn(calls);
      if host in hostIndex {
        var index := hostIndex[host];
        if index.one in aliveSrv {
          var levelOne := aliveSrv[index.one];
          if index.two in levelOne {
            return Some(levelOne[index.two]);
          }
        }
      }
      return None;
    }

    /** Exactly the registered streams of the project and service. */
    method GetStreams(system: int, service: string) returns (streams: map<NodeMeta, Stream>)
      requires Valid()
      ensures forall info :: info in streams <==>
                info.system == system && info.service == service && Registered(calls, info).Some?
      ensures forall info :: info in streams ==> Registered(calls, info) == Some(streams[info])
    {
      var k := ServiceKey(system, service);
      if k !in aliveSrv {
        return map[];
      }
      return aliveSrv[k];
    }
  }
}

/** The discovery ConfigMap's NameNode addresses: each pod's listener is found through a label of
    the pod and its address is remembered, over a web pass and an RPC pass. */
module Discovery {
  import opened Text
  import opened XmlProperties

  /** An ingress address with its named ports. */
  datatype Address = Address(host: string, ports: map<string, int>)

  /** What the API server holds at one moment. A pod's labels are listed in the order in which that
      moment's iteration over them goes. */
  datatype Store = Store(pods: map<string, seq<(string, string)>>, listeners: map<string, seq<Address>>)

  /** The store as each request sees it: request `t` reads `history(t)`. */
  type History = nat -> Store

  datatype Error = PodNotFound | NoListenerLabel | ListenerNotFound | AddressesNotFound | PortNotFound

  datatype Result<+T> = Ok(value: T) | Fail(error: Error)

  const LABEL_PREFIX := "listeners.kubedoop.dev/mnt"

  /** The value of the first label with the prefix. */
  function LabelValue(labels: seq<(string, string)>): (v: Option<string>)
  {
    if labels == [] then None
    else if LABEL_PREFIX <= labels[0].0 then Some(labels[0].1)
    else LabelValue(labels[1..])
  }

  function ListenerName(store: Store, pod: string): (r: Result<string>)
  {
    if pod !in store.pods then Fail(PodNotFound)
    else match LabelValue(store.pods[pod])
      case None => Fail(NoListenerLabel)
      case Some(name) => Ok(name)
  }

  function PortOf(address: Address, portName: string): (r: Result<int>)
  {
    if portName in address.ports then Ok(address.ports[portName]) else Fail(PortNotFound)
  }

  function Entry(instance: string, pod: string, portName: string, address: Address, port: int): Property
  {
    Property(EntryName(instance, pod, portName), Sprintf("%s:%d", [Str(address.host), Num(port)]))
  }

  function EntryName(instance: string, pod: string, portName: string): string
  {
    Sprintf("dfs.namenode.%s-address.%s.%s", [Str(portName), Str(instance), Str(pod)])
  }

  // ----- The lookups as functions of the history -----

  /** The number of requests so far, the remembered addresses and the listeners requested. */
  datatype Lookups = Lookups(now: nat, cache: map<string, Address>, fetched: seq<string>)

  function AddressAfter(h: History, p: Lookups, pod: string): (r: (Result<Address>, Lookups))
  {
    match ListenerName(h(p.now), pod)
    case Fail(e) => (Fail(e), p.(now := p.now + 1))
    case Ok(name) =>
      if name in p.cache then (Ok(p.cache[name]), p.(now := p.now + 1))
      else
        var store := h(p.now + 1);
        var q := Lookups(p.now + 2, p.cache, p.fetched + [name]);
        if name !in store.listeners then (Fail(ListenerNotFound), q)
        else if store.listeners[name] == [] then (Fail(AddressesNotFound), q)
        else (Ok(store.listeners[name][0]), q.(cache := p.cache[name := store.listeners[name][0]]))
  }

  function EntriesAfter(h: History, p: Lookups, instance: string, pods: seq<string>, portName: string): (r: (Result<seq<Property>>, Lookups))
    ensures r.0.Ok? ==> |r.0.value| == |pods| && forall i | 0 <= i < |pods| :: r.0.value[i].name == EntryName(instance, pods[i], portName)
    decreases |pods|
  {
    if pods == [] then (Ok([]), p)
    else
      var (address, q) := AddressAfter(h, p, pods[0]);
      if address.Fail? then (Fail(address.error), q)
      else
        var port := PortOf(address.value, portName);
        if port.Fail? then (Fail(port.error), q)
        else
          var (rest, q') := EntriesAfter(h, q, instance, pods[1..], portName);
          if rest.Fail? then (rest, q')
          else (Ok([Entry(instance, pods[0], portName, address.value, port.value)] + rest.value), q')
  }

  function WebPort(tls: bool): string
  {
    if tls then "https" else "http"
  }

  /** Both passes, with a fresh cache, by a client that has made `start.now` requests. */
  function ConnectionsAfter(h: History, start: Lookups, instance: string, pods: seq<string>, tls: bool): (r: (Result<seq<Property>>, Lookups))
  {
    var (web, p) := EntriesAfter(h, start.(cache := map[]), instance, pods, WebPort(tls));
    if web.Fail? then (web, p)
    else
      var (rpc, q) := EntriesAfter(h, p, instance, pods, "rpc");
      (Ok(if rpc.Ok? then web.value + rpc.value else web.value), q)
  }

  // ----- The builder -----

  /** The API client; it counts requests and notes which listeners are requested. */
  class Client {
    const history: History
    var now: nat
    var fetched: seq<string>

    constructor (history: History)
      ensures this.history == history && now == 0 && fetched == []
    {
      this.history := history;
      now, fetched := 0, [];
    }

    method GetPod(pod: string) returns (labels: Option<seq<(string, string)>>)
      modifies this
      ensures now == old(now) + 1 && fetched == old(fetched)
      ensures labels == if pod in history(old(now)).pods then Some(history(old(now)).pods[pod]) else None
    {
      var store := history(now);
      labels := if pod in store.pods then Some(store.pods[pod]) else None;
      now := now + 1;
    }

    method GetListener(name: string) returns (addresses: Option<seq<Address>>)
      modifies this
      ensures now == old(now) + 1 && fetched == old(fetched) + [name]
      ensures addresses == if name in history(old(now)).listeners then Some(history(old(now)).listeners[name]) else None
    {
      var store := history(now);
      addresses := if name in store.listeners then Some(store.listeners[name]) else None;
      now, fetched := now + 1, fetched + [name];
    }
  }

  class AddressCache {
    var entries: map<string, Address>

    constructor ()
      ensures entries == map[]
    {
      entries := map[];
    }
  }

  class DiscoveryBuilder {
    const client: Client
    const instance: string

    constructor (client: Client, instance: string)
      ensures this.client == client && this.instance == instance
    {
      this.client, this.instance := client, instance;
    }

    ghost function State(cache: AddressCache): Lookups
      reads client, cache
    {
      Lookups(client.now, cache.entries, client.fetched)
    }

    method GetListenerNameByPodName(pod: string) returns (name: Result<string>)
      modifies client
      ensures client.now == old(client.now) + 1 && client.fetched == old(client.fetched)
      ensures name == ListenerName(client.history(old(client.now)), pod)
    {
      var labels := client.GetPod(pod);
      if labels.None? {
        return Fail(PodNotFound);
      }
      var i := 0;
      while i < |labels.value|
        invariant 0 <= i <= |labels.value|
        invariant LabelValue(labels.value) == LabelValue(labels.value[i..])
      {
        if LABEL_PREFIX <= labels.value[i].0 {
          return Ok(labels.value[i].1);
        }
        i := i + 1;
      }
      name := Fail(NoListenerLabel);
    }

    method GetListenerAddress(cache: AddressCache, pod: string) returns (address: Result<Address>)
      modifies client, cache
      ensures (address, State(cache)) == AddressAfter(client.history, old(State(cache)), pod)
    {
      var name := GetListenerNameByPodName(pod);
      if name.Fail? {
        return Fail(name.error);
      }
      if name.value in cache.entries {
        return Ok(cache.entries[name.value]);
      }
      var addresses := client.GetListener(name.value);
      if addresses.None? {
        return Fail(ListenerNotFound);
      }
      if |addresses.value| == 0 {
        return Fail(AddressesNotFound);
      }
      cache.entries := cache.entries[name.value := addresses.value[0]];
      address := Ok(addresses.value[0]);
    }

    method GetPort(address: Address, portName: string) returns (port: Result<int>)
      ensures port == PortOf(address, portName)
    {
      var todo := address.ports.Keys;
      while todo != {}
        invariant todo <= address.ports.Keys && (portName in address.ports ==> portName in todo)
      {
        var name :| name in todo;
        if name == portName {
          return Ok(address.ports[name]);
        }
        todo := todo - {name};
      }
      port := Fail(PortNotFound);
    }

    method CreatePortNameAddress(pods: seq<string>, portName: string, cache: AddressCache) returns (connections: Result<seq<Property>>)
      modifies client, cache
      ensures (connections, State(cache)) == EntriesAfter(client.history, old(State(cache)), instance, pods, portName)
    {
      var entries: seq<Property> := [];
      var i := 0;
      assert pods[0..] == pods;
      PrependNothing(EntriesAfter(client.history, State(cache), instance, pods, portName));
      while i < |pods|
        invariant 0 <= i <= |pods|
        invariant EntriesAfter(client.history, old(State(cache)), instance, pods, portName)
                  == Prepend(entries, EntriesAfter(client.history, State(cache), instance, pods[i..], portName))
      {
        var address := GetListenerAddress(cache, pods[i]);
        if address.Fail? {
          return Fail(address.error);
        }
        var port := GetPort(address.value, portName);
        if port.Fail? {
          return Fail(port.error);
        }
        assert pods[i..][1..] == pods[i + 1..];
        PrependOne(entries, Entry(instance, pods[i], portName, address.value, port.value),
                   EntriesAfter(client.history, State(cache), instance, pods[i + 1..], portName));
        entries := entries + [Entry(instance, pods[i], portName, address.value, port.value)];
        i := i + 1;
      }
      assert entries + [] == entries;
      connections := Ok(entries);
    }

    /** The web pass must succeed; a failing RPC pass is only logged. */
    method CreateConnections(pods: seq<string>, tls: bool) returns (connections: Result<seq<Property>>)
      modifies client
      ensures var (r, after) := ConnectionsAfter(client.history, Lookups(old(client.now), map[], old(client.fetched)), instance, pods, tls);
              connections == r && client.now == after.now && client.fetched == after.fetched
    {
      var cache := new AddressCache();
      var web := CreatePortNameAddress(pods, WebPort(tls), cache);
      if web.Fail? {
        return web;
      }
      connections := web;
      var rpc := CreatePortNameAddress(pods, "rpc", cache);
      if rpc.Ok? {
        connections := Ok(web.value + rpc.value);
      }
    }
  }

  function Prepend(front: seq<Property>, r: (Result<seq<Property>>, Lookups)): (Result<seq<Property>>, Lookups)
  {
    if r.0.Ok? then (Ok(front + r.0.value), r.1) else r
  }

  lemma PrependNothing(r: (Result<seq<Property>>, Lookups))
    ensures Prepend([], r) == r
  {
    if r.0.Ok? {
      assert [] + r.0.value == r.0.value;
    }
  }

  lemma PrependOne(front: seq<Property>, e: Property, r: (Result<seq<Property>>, Lookups))
    ensures Prepend(front, Prepend([e], r)) == Prepend(front + [e], r)
  {
    if r.0.Ok? {
      assert front + ([e] + r.0.value) == (front + [e]) + r.0.value;
    }
  }
}

/** What the discovery addresses guarantee, with the cache and in spite of it. */
module DiscoveryProperties {
  import opened Text
  import opened Sequences
  import opened XmlProperties
  import opened Discovery

  // ----- The entries as text -----

  lemma EntryFormat()
    ensures "dfs.namenode.%s-address.%s.%s" == "dfs.namenode." + ("%s" + ("-address." + ("%s" + ("." + ("%s" + "")))))
    ensures '%' !in "dfs.namenode." && '%' !in "-address." && '%' !in "."
  {
  }

  lemma EntryNameText(instance: string, pod: string, portName: string)
    ensures EntryName(instance, pod, portName) == "dfs.namenode." + (portName + ("-address." + (instance + ("." + pod))))
  {
    var a3 := [Str(pod)] + [];
    var a2 := [Str(instance)] + a3;
    var f3 := "%s" + "";
    var f2 := "%s" + ("." + f3);
    SprintfStr("", pod, []);
    assert pod + "" == pod;
    SprintfStrThen(instance, ".", f3, a3);
    SprintfStrThen(portName, "-address.", f2, a2);
    SprintfPlain("dfs.namenode.", "%s" + ("-address." + f2), [Str(portName)] + a2);
    EntryFormat();
    assert [Str(portName), Str(instance), Str(pod)] == [Str(portName)] + a2;
  }

  lemma HostAndPortText(host: string, port: int)
    ensures Sprintf("%s:%d", [Str(host), Num(port)]) == host + ":" + FormatInt(port)
  {
    assert "%s:%d" == "%s" + (":" + ("%d" + ""));
    assert [Str(host), Num(port)] == [Str(host)] + ([Num(port)] + []);
    SprintfNum("", port, []);
    SprintfStrThen(host, ":", "%d" + "", [Num(port)] + []);
  }

  lemma RegroupName(portName: string, instance: string, pod: string)
    ensures "dfs.namenode." + (portName + ("-address." + (instance + ("." + pod))))
            == "dfs.namenode." + portName + "-address." + instance + "." + pod
  {
    Associate("dfs.namenode.", portName, "-address." + (instance + ("." + pod)));
    Associate("dfs.namenode." + portName, "-address.", instance + ("." + pod));
    Associate("dfs.namenode." + portName + "-address.", instance, "." + pod);
    Associate("dfs.namenode." + portName + "-address." + instance, ".", pod);
  }

  lemma EntryText(instance: string, pod: string, portName: string, address: Address, port: int)
    ensures var e := Entry(instance, pod, portName, address, port);
            && e.name == "dfs.namenode." + portName + "-address." + instance + "." + pod
            && e.value == address.host + ":" + FormatInt(port)
  {
    EntryNameText(instance, pod, portName);
    RegroupName(portName, instance, pod);
    HostAndPortText(address.host, port);
  }

  // ----- Labels -----

  /** All labels with the prefix carry one value. */
  ghost predicate Unambiguous(labels: seq<(string, string)>)
  {
    forall a, b | a in labels && b in labels && LABEL_PREFIX <= a.0 && LABEL_PREFIX <= b.0 :: a.1 == b.1
  }

  /** The value is that of the first label whose name starts with the listener prefix. */
  lemma {:induction false} FirstLabelWins(labels: seq<(string, string)>)
    ensures LabelValue(labels).None? <==> forall i | 0 <= i < |labels| :: !("listeners.kubedoop.dev/mnt" <= labels[i].0)
    ensures LabelValue(labels).Some? ==>
              exists i | 0 <= i < |labels| ::
                && "listeners.kubedoop.dev/mnt" <= labels[i].0 && labels[i].1 == LabelValue(labels).value
                && forall j | 0 <= j < i :: !("listeners.kubedoop.dev/mnt" <= labels[j].0)
  {
    if labels != [] && !(LABEL_PREFIX <= labels[0].0) {
      FirstLabelWins(labels[1..]);
      assert forall i | 0 < i < |labels| :: labels[i] == labels[1..][i - 1];
      if LabelValue(labels).Some? {
        var i :| 0 <= i < |labels[1..]| && "listeners.kubedoop.dev/mnt" <= labels[1..][i].0
                 && labels[1..][i].1 == LabelValue(labels).value
                 && forall j | 0 <= j < i :: !("listeners.kubedoop.dev/mnt" <= labels[1..][j].0);
        assert labels[i + 1] == labels[1..][i];
      }
    }
  }

  lemma LabelValueMeaning(labels: seq<(string, string)>)
    ensures LabelValue(labels).Some? <==> exists a :: a in labels && LABEL_PREFIX <= a.0
    ensures LabelValue(labels).Some? ==> exists a :: a in labels && LABEL_PREFIX <= a.0 && a.1 == LabelValue(labels).value
  {
    FirstLabelWins(labels);
  }

  lemma SameLabelsSameValue(a: seq<(string, string)>, b: seq<(string, string)>)
    requires Unambiguous(a) && multiset(a) == multiset(b)
    ensures LabelValue(a) == LabelValue(b)
  {
    forall l ensures l in a <==> l in b {
      assert l in a <==> l in multiset(a);
      assert l in b <==> l in multiset(b);
    }
    LabelValueMeaning(a);
    LabelValueMeaning(b);
  }

  function MoveToFront(a: seq<(string, string)>, i: nat): (b: seq<(string, string)>)
    requires i < |a|
    ensures multiset(b) == multiset(a) && b[0] == a[i]
  {
    assert a == a[..i] + [a[i]] + a[i + 1..];
    [a[i]] + a[..i] + a[i + 1..]
  }

  lemma FrontLabelWins(a: seq<(string, string)>, i: nat)
    requires i < |a| && LABEL_PREFIX <= a[i].0
    ensures LabelValue(MoveToFront(a, i)) == Some(a[i].1)
  {
  }

  /** The iteration order of a pod's labels never matters, exactly when no two labels with the
      prefix disagree: of two that disagree, the one iterated first wins. */
  lemma LabelOrderIrrelevant(a: seq<(string, string)>)
    ensures Unambiguous(a) <==> forall b | multiset(b) == multiset(a) :: LabelValue(b) == LabelValue(a)
  {
    if Unambiguous(a) {
      forall b | multiset(b) == multiset(a) ensures LabelValue(b) == LabelValue(a) {
        SameLabelsSameValue(a, b);
      }
    } else {
      var x, y :| x in a && y in a && LABEL_PREFIX <= x.0 && LABEL_PREFIX <= y.0 && x.1 != y.1;
      var i :| 0 <= i < |a| && a[i] == x;
      var j :| 0 <= j < |a| && a[j] == y;
      FrontLabelWins(a, i);
      FrontLabelWins(a, j);
    }
  }

  // ----- The cache is transparent over an unchanging store -----

  function DirectAddress(store: Store, pod: string): (r: Result<Address>)
  {
    match ListenerName(store, pod)
    case Fail(e) => Fail(e)
    case Ok(name) =>
      if name !in store.listeners then Fail(ListenerNotFound)
      else if store.listeners[name] == [] then Fail(AddressesNotFound)
      else Ok(store.listeners[name][0])
  }

  function DirectEntries(store: Store, instance: string, pods: seq<string>, portName: string): (r: Result<seq<Property>>)
  {
    if pods == [] then Ok([])
    else
      var address := DirectAddress(store, pods[0]);
      if address.Fail? then Fail(address.error)
      else
        var port := PortOf(address.value, portName);
        if port.Fail? then Fail(port.error)
        else
          var rest := DirectEntries(store, instance, pods[1..], portName);
          if rest.Fail? then rest else Ok([Entry(instance, pods[0], portName, address.value, port.value)] + rest.value)
  }

  /** The addresses without any cache, from one store. */
  function DirectConnections(store: Store, instance: string, pods: seq<string>, tls: bool): (r: Result<seq<Property>>)
  {
    var web := DirectEntries(store, instance, pods, WebPort(tls));
    if web.Fail? then web
    else
      var rpc := DirectEntries(store, instance, pods, "rpc");
      Ok(if rpc.Ok? then web.value + rpc.value else web.value)
  }

  /** Listeners do not change, and neither does what a pod's labels say. */
  ghost predicate Unchanging(h: History, store: Store)
  {
    && (forall t: nat :: h(t).listeners == store.listeners)
    && (forall t: nat, pod: string :: ListenerName(h(t), pod) == ListenerName(store, pod))
  }

  ghost predicate Remembers(store: Store, cache: map<string, Address>)
  {
    forall n | n in cache :: n in store.listeners && store.listeners[n] != [] && cache[n] == store.listeners[n][0]
  }

  lemma {:induction false} EntriesAreDirect(h: History, store: Store, p: Lookups, instance: string, pods: seq<string>, portName: string)
    requires Unchanging(h, store) && Remembers(store, p.cache)
    ensures EntriesAfter(h, p, instance, pods, portName).0 == DirectEntries(store, instance, pods, portName)
    ensures Remembers(store, EntriesAfter(h, p, instance, pods, portName).1.cache)
    decreases |pods|
  {
    if pods != [] {
      var (address, q) := AddressAfter(h, p, pods[0]);
      assert ListenerName(h(p.now), pods[0]) == ListenerName(store, pods[0]);
      assert h(p.now + 1).listeners == store.listeners;
      assert address == DirectAddress(store, pods[0]) && Remembers(store, q.cache);
      EntriesAreDirect(h, store, q, instance, pods[1..], portName);
    }
  }

  /** Over an unchanging store the cache never shows: the result, errors included, is the one of
      looking every address up. */
  lemma CacheIsTransparent(h: History, store: Store, start: Lookups, instance: string, pods: seq<string>, tls: bool)
    requires Unchanging(h, store)
    ensures ConnectionsAfter(h, start, instance, pods, tls).0 == DirectConnections(store, instance, pods, tls)
  {
    EntriesAreDirect(h, store, start.(cache := map[]), instance, pods, WebPort(tls));
    var (web, p) := EntriesAfter(h, start.(cache := map[]), instance, pods, WebPort(tls));
    EntriesAreDirect(h, store, p, instance, pods, "rpc");
  }

  // ----- Over any history -----

  /** Every listener requested since `before` has been requested once and is remembered. */
  ghost predicate FetchedIsCached(p: Lookups, before: seq<string>)
  {
    before <= p.fetched && NoDuplicates(p.fetched[|before|..]) && forall n | n in p.fetched[|before|..] :: n in p.cache
  }

  lemma AddressFetchedOnce(h: History, p: Lookups, before: seq<string>, pod: string)
    requires FetchedIsCached(p, before)
    ensures var (r, q) := AddressAfter(h, p, pod);
            before <= q.fetched && NoDuplicates(q.fetched[|before|..]) && (r.Ok? ==> FetchedIsCached(q, before))
  {
    var (r, q) := AddressAfter(h, p, pod);
    if q.fetched != p.fetched {
      assert q.fetched[|before|..] == p.fetched[|before|..] + [q.fetched[|p.fetched|]];
    }
  }

  lemma {:induction false} EntriesFetchOnce(h: History, p: Lookups, before: seq<string>, instance: string, pods: seq<string>, portName: string)
    requires FetchedIsCached(p, before)
    ensures var (r, q) := EntriesAfter(h, p, instance, pods, portName);
            before <= q.fetched && NoDuplicates(q.fetched[|before|..]) && (r.Ok? ==> FetchedIsCached(q, before))
    decreases |pods|
  {
    if pods != [] {
      var (address, q) := AddressAfter(h, p, pods[0]);
      AddressFetchedOnce(h, p, before, pods[0]);
      if address.Ok? {
        EntriesFetchOnce(h, q, before, instance, pods[1..], portName);
      }
    }
  }

  /** However the store changes meanwhile, each listener is requested at most once. */
  lemma EachListenerFetchedOnce(h: History, start: Lookups, instance: string, pods: seq<string>, tls: bool)
    ensures start.fetched <= ConnectionsAfter(h, start, instance, pods, tls).1.fetched
    ensures NoDuplicates(ConnectionsAfter(h, start, instance, pods, tls).1.fetched[|start.fetched|..])
  {
    EntriesFetchOnce(h, start.(cache := map[]), start.fetched, instance, pods, WebPort(tls));
    var (web, p) := EntriesAfter(h, start.(cache := map[]), instance, pods, WebPort(tls));
    if web.Ok? {
      EntriesFetchOnce(h, p, start.fetched, instance, pods, "rpc");
    }
  }

  function EntryNames(instance: string, pods: seq<string>, portName: string): (names: seq<string>)
    ensures |names| == |pods| && forall i | 0 <= i < |pods| :: names[i] == EntryName(instance, pods[i], portName)
  {
    seq(|pods|, i requires 0 <= i < |pods| => EntryName(instance, pods[i], portName))
  }

  lemma NamesOfEntries(h: History, p: Lookups, instance: string, pods: seq<string>, portName: string)
    requires EntriesAfter(h, p, instance, pods, portName).0.Ok?
    ensures Names(EntriesAfter(h, p, instance, pods, portName).0.value) == EntryNames(instance, pods, portName)
  {
  }

  lemma NamesConcat(a: seq<Property>, b: seq<Property>)
    ensures Names(a + b) == Names(a) + Names(b)
  {
  }

  /** A result is one web entry for each pod in order, alone or followed by one RPC entry for each
      pod in order: never part of a block. */
  lemma NoPartialBlock(h: History, start: Lookups, instance: string, pods: seq<string>, tls: bool)
    requires ConnectionsAfter(h, start, instance, pods, tls).0.Ok?
    ensures var names, web := Names(ConnectionsAfter(h, start, instance, pods, tls).0.value), EntryNames(instance, pods, WebPort(tls));
            names == web || names == web + EntryNames(instance, pods, "rpc")
  {
    var (web, p) := EntriesAfter(h, start.(cache := map[]), instance, pods, WebPort(tls));
    NamesOfEntries(h, start.(cache := map[]), instance, pods, WebPort(tls));
    var (rpc, q) := EntriesAfter(h, p, instance, pods, "rpc");
    if rpc.Ok? {
      NamesOfEntries(h, p, instance, pods, "rpc");
      NamesConcat(web.value, rpc.value);
    }
  }

  /** The pod's labels name one listener, at every moment. */
  ghost predicate LabelStays(h: History, pod: string, name: string)
  {
    forall t: nat :: ListenerName(h(t), pod) == Ok(name)
  }

  predicate Extends(m: map<string, Address>, m': map<string, Address>)
  {
    forall n | n in m :: n in m' && m'[n] == m[n]
  }

  /** The entry of a pod is made from the remembered address of the listener `name`. */
  predicate EntryFromCache(e: Property, instance: string, pod: string, portName: string, name: string, cache: map<string, Address>)
  {
    && name in cache && portName in cache[name].ports
    && e.name == "dfs.namenode." + portName + "-address." + instance + "." + pod
    && e.value == cache[name].host + ":" + FormatInt(cache[name].ports[portName])
  }

  /** A remembered address is never replaced, whatever the store does. */
  lemma {:induction false} CacheOnlyGrows(h: History, p: Lookups, instance: string, pods: seq<string>, portName: string)
    ensures Extends(p.cache, EntriesAfter(h, p, instance, pods, portName).1.cache)
    decreases |pods|
  {
    if pods != [] {
      var (address, q) := AddressAfter(h, p, pods[0]);
      assert Extends(p.cache, q.cache);
      CacheOnlyGrows(h, q, instance, pods[1..], portName);
    }
  }

  predicate CachedEntry(e: Property, instance: string, pod: string, portName: string, name: string, cache: map<string, Address>)
  {
    && name in cache && portName in cache[name].ports
    && e == Entry(instance, pod, portName, cache[name], cache[name].ports[portName])
  }

  lemma {:induction false} EntryComesFromCache(h: History, p: Lookups, instance: string, pods: seq<string>, portName: string,
                                               i: nat, name: string)
    requires i < |pods| && LabelStays(h, pods[i], name)
    requires EntriesAfter(h, p, instance, pods, portName).0.Ok?
    ensures var (r, q) := EntriesAfter(h, p, instance, pods, portName);
            CachedEntry(r.value[i], instance, pods[i], portName, name, q.cache)
    decreases |pods|
  {
    var (address, q) := AddressAfter(h, p, pods[0]);
    if i == 0 {
      assert ListenerName(h(p.now), pods[0]) == Ok(name);
      CacheOnlyGrows(h, q, instance, pods[1..], portName);
    } else {
      EntryComesFromCache(h, q, instance, pods[1..], portName, i - 1, name);
    }
  }

  lemma CachedEntryText(e: Property, instance: string, pod: string, portName: string, name: string,
                        cache: map<string, Address>, later: map<string, Address>)
    requires CachedEntry(e, instance, pod, portName, name, cache) && Extends(cache, later)
    ensures EntryFromCache(e, instance, pod, portName, name, later)
  {
    EntryText(instance, pod, portName, cache[name], cache[name].ports[portName]);
  }

  /** Even if listeners and other pods change between the passes, the web and the RPC entry of a pod
      whose own label stays come from one address. */
  lemma BothPassesUseOneAddress(h: History, start: Lookups, instance: string, pods: seq<string>, tls: bool, i: nat, name: string)
    requires i < |pods| && LabelStays(h, pods[i], name)
    requires ConnectionsAfter(h, start, instance, pods, tls).0.Ok?
    ensures var (r, q) := ConnectionsAfter(h, start, instance, pods, tls);
            && |r.value| in {|pods|, 2 * |pods|}
            && EntryFromCache(r.value[i], instance, pods[i], if tls then "https" else "http", name, q.cache)
            && (|r.value| > |pods| ==> EntryFromCache(r.value[|pods| + i], instance, pods[i], "rpc", name, q.cache))
  {
    EntryComesFromCache(h, start.(cache := map[]), instance, pods, WebPort(tls), i, name);
    var (web, p) := EntriesAfter(h, start.(cache := map[]), instance, pods, WebPort(tls));
    CacheOnlyGrows(h, p, instance, pods, "rpc");
    var (rpc, q) := EntriesAfter(h, p, instance, pods, "rpc");
    CachedEntryText(web.value[i], instance, pods[i], WebPort(tls), name, p.cache, q.cache);
    if rpc.Ok? {
      EntryComesFromCache(h, p, instance, pods, "rpc", i, name);
      CachedEntryText(rpc.value[i], instance, pods[i], "rpc", name, q.cache, q.cache);
    }
  }

  /** For pods whose labels all stay, the whole result is determined by one address for each listener. */
  lemma AllPodsUseOneAddress(h: History, start: Lookups, instance: string, pods: seq<string>, tls: bool, listener: map<string, string>)
    requires forall pod | pod in pods :: pod in listener && LabelStays(h, pod, listener[pod])
    requires ConnectionsAfter(h, start, instance, pods, tls).0.Ok?
    ensures var (r, q) := ConnectionsAfter(h, start, instance, pods, tls);
            && |r.value| in {|pods|, 2 * |pods|}
            && (forall i | 0 <= i < |pods| ::
                  EntryFromCache(r.value[i], instance, pods[i], WebPort(tls), listener[pods[i]], q.cache))
            && (|r.value| > |pods| ==>
                  forall i | 0 <= i < |pods| ::
                    EntryFromCache(r.value[|pods| + i], instance, pods[i], "rpc", listener[pods[i]], q.cache))
  {
    var (r, q) := ConnectionsAfter(h, start, instance, pods, tls);
    forall i | 0 <= i < |pods|
      ensures EntryFromCache(r.value[i], instance, pods[i], WebPort(tls), listener[pods[i]], q.cache)
      ensures |r.value| > |pods| ==> EntryFromCache(r.value[|pods| + i], instance, pods[i], "rpc", listener[pods[i]], q.cache)
    {
      BothPassesUseOneAddress(h, start, instance, pods, tls, i, listener[pods[i]]);
    }
  }

  /** `e` is what discovery should publish of a pod with listener `name`: the host of the listener's
      first address, with the named port. */
  predicate EntryFromStore(e: Property, instance: string, pod: string, portName: string, name: string, store: Store)
  {
    && name in store.listeners && store.listeners[name] != []
    && var a := store.listeners[name][0];
       && portName in a.ports
       && e.name == "dfs.namenode." + portName + "-address." + instance + "." + pod
       && e.value == a.host + ":" + FormatInt(a.ports[portName])
  }

  /** Over an unchanging store both entries of a pod are those of its listener's first address. */
  lemma EntriesOfStore(h: History, store: Store, start: Lookups, instance: string, pods: seq<string>, tls: bool, i: nat, name: string)
    requires Unchanging(h, store) && i < |pods| && ListenerName(store, pods[i]) == Ok(name)
    requires ConnectionsAfter(h, start, instance, pods, tls).0.Ok?
    ensures var r := ConnectionsAfter(h, start, instance, pods, tls).0;
            && |r.value| in {|pods|, 2 * |pods|}
            && EntryFromStore(r.value[i], instance, pods[i], if tls then "https" else "http", name, store)
            && (|r.value| > |pods| ==> EntryFromStore(r.value[|pods| + i], instance, pods[i], "rpc", name, store))
  {
    assert LabelStays(h, pods[i], name);
    BothPassesUseOneAddress(h, start, instance, pods, tls, i, name);
    EntriesAreDirect(h, store, start.(cache := map[]), instance, pods, WebPort(tls));
    var (web, p) := EntriesAfter(h, start.(cache := map[]), instance, pods, WebPort(tls));
    EntriesAreDirect(h, store, p, instance, pods, "rpc");
    assert Remembers(store, ConnectionsAfter(h, start, instance, pods, tls).1.cache);
  }
}

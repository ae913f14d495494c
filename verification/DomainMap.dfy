/** `HDCSDomainMap`: which slaves replicate each master, kept up to date over a run of
    online and offline events. */
module DomainMap {
  import opened Basics
  import opened CrushTypes
  import opened Generator

  /** The name ends in "slave"; the code's `compare` throws on names shorter than that. */
  predicate IsSlave(host: string)
    requires |host| >= 5
  {
    host[|host| - 5..] == "slave"
  }

  function SlaveName(master: string): string {
    master + "_slave"
  }

  /** `substr(0, size - 6)`, where a size below 6 wraps around and keeps the whole name. */
  function MasterName(slave: string): string {
    if |slave| < 6 then slave else slave[..|slave| - 6]
  }

  lemma SlaveNames(master: string)
    ensures |SlaveName(master)| >= 6 && IsSlave(SlaveName(master)) && MasterName(SlaveName(master)) == master
  {
    var s := SlaveName(master);
    assert s[|s| - 5..] == "slave";
    assert s[..|s| - 6] == master;
  }

  /** `erase(find(...))`. */
  function EraseFirst(l: seq<string>, h: string): seq<string> {
    if l == [] then [] else if l[0] == h then l[1..] else [l[0]] + EraseFirst(l[1..], h)
  }

  /** One offline event takes a master off the list exactly when it was listed at most once;
      nothing else leaves the list. */
  lemma {:induction false} OfflineIffListedOnce(l: seq<string>, h: string)
    ensures h !in EraseFirst(l, h) <==> multiset(l)[h] <= 1
    ensures multiset(EraseFirst(l, h)) == multiset(l) - multiset{h}
  {
    if l != [] {
      assert l == [l[0]] + l[1..];
      if l[0] != h {
        OfflineIffListedOnce(l[1..], h);
        assert h in EraseFirst(l, h) <==> h in EraseFirst(l[1..], h);
      } else {
        assert h in l[1..] <==> multiset(l[1..])[h] > 0;
      }
    }
  }

  lemma {:induction false} EraseFirstIndex(l: seq<string>, i: nat)
    requires i < |l| && l[i] !in l[..i]
    ensures EraseFirst(l, l[i]) == l[..i] + l[i + 1..]
  {
    if i > 0 {
      assert l[1..][..i - 1] == l[1..i] && l[..i] == [l[0]] + l[1..i];
      EraseFirstIndex(l[1..], i - 1);
    }
  }

  datatype Event = Offline(host: string) | Online(host: string)

  /** Is the slave up after these events?  All slaves start up. */
  ghost predicate SlaveUp(events: seq<Event>, slave: string) {
    if events == [] then true
    else
      var e := events[|events| - 1];
      if e.host == slave then e.Online? else SlaveUp(events[..|events| - 1], slave)
  }

  /** Is the master up?  A name that ends in "slave" is never handled as a master. */
  ghost predicate MasterUp(start: seq<string>, events: seq<Event>, master: string) {
    if events == [] then master in start
    else
      var e := events[|events| - 1];
      if e.host == master && |e.host| >= 5 && !IsSlave(e.host) then e.Online?
      else MasterUp(start, events[..|events| - 1], master)
  }

  /** How often the master is in the list of those that are up: an offline event removes one
      entry, an online event adds one if there is none. */
  ghost function Entries(start: seq<string>, events: seq<Event>, master: string): nat {
    if events == [] then multiset(start)[master]
    else
      var e, n := events[|events| - 1], Entries(start, events[..|events| - 1], master);
      if e.host == master && |e.host| >= 5 && !IsSlave(e.host) then
        if e.Online? then if n == 0 then 1 else n else if n == 0 then 0 else n - 1
      else n
  }

  lemma {:induction false} EntriesOfOnce(start: seq<string>, events: seq<Event>, master: string)
    requires multiset(start)[master] <= 1
    ensures Entries(start, events, master) == if MasterUp(start, events, master) then 1 else 0
  {
    if events == [] {
      assert master in start <==> multiset(start)[master] > 0;
    } else {
      EntriesOfOnce(start, events[..|events| - 1], master);
    }
  }

  /** A master is in the list exactly when its last event says so, for every run of events, if
      and only if it is listed at most once at the start. */
  lemma UpIffListedOnce(start: seq<string>, master: string)
    requires |master| >= 5 && !IsSlave(master)
    ensures (forall events :: Entries(start, events, master) > 0 <==> MasterUp(start, events, master))
            <==> multiset(start)[master] <= 1
  {
    if multiset(start)[master] <= 1 {
      forall events ensures Entries(start, events, master) > 0 <==> MasterUp(start, events, master) {
        EntriesOfOnce(start, events, master);
      }
    } else {
      var one := [Offline(master)];
      assert one[..0] == [];
      assert Entries(start, [], master) >= 2;
      assert Entries(start, one, master) > 0 && !MasterUp(start, one, master);
    }
  }

  predicate LongNames(hosts: seq<string>) {
    forall i :: 0 <= i < |hosts| ==> |hosts[i]| >= 5
  }

  /** The hosts that are not slaves, in order. */
  function Masters(hosts: seq<string>): (l: seq<string>)
    requires LongNames(hosts)
    ensures forall k :: k in l ==> k in hosts && |k| >= 5 && !IsSlave(k)
  {
    if hosts == [] then []
    else
      var n := |hosts| - 1;
      Masters(hosts[..n]) + if IsSlave(hosts[n]) then [] else [hosts[n]]
  }

  /** The keys under which slaves are entered. */
  function SlaveKeys(hosts: seq<string>): set<string>
    requires LongNames(hosts)
  {
    if hosts == [] then {}
    else
      var n := |hosts| - 1;
      if IsSlave(hosts[n]) then SlaveKeys(hosts[..n]) + {MasterName(hosts[n])} else SlaveKeys(hosts[..n])
  }

  /** The names with the suffix are the slaves. */
  lemma SlaveIffSuffixed(host: string)
    requires |host| >= 5
    ensures IsSlave(host) <==> exists name: string :: host == name + "slave"
  {
    if IsSlave(host) {
      assert host == host[..|host| - 5] + "slave";
    }
    if name: string :| host == name + "slave" {
      assert host[|host| - 5..] == "slave";
    }
  }

  /** A host is a master as often as it is listed without being a slave. */
  lemma {:induction false} MastersCount(hosts: seq<string>, k: string)
    requires LongNames(hosts)
    ensures multiset(Masters(hosts))[k] == if |k| >= 5 && !IsSlave(k) then multiset(hosts)[k] else 0
  {
    hide IsSlave;
    if hosts != [] {
      var n := |hosts| - 1;
      MastersCount(hosts[..n], k);
      assert hosts == hosts[..n] + [hosts[n]];
      assert multiset(hosts) == multiset(hosts[..n]) + multiset{hosts[n]};
    }
  }

  /** The keys are the names of the listed slaves without the suffix. */
  lemma {:induction false} SlaveKeysAre(hosts: seq<string>, k: string)
    requires LongNames(hosts)
    ensures k in SlaveKeys(hosts) <==> exists i :: 0 <= i < |hosts| && IsSlave(hosts[i]) && MasterName(hosts[i]) == k
  {
    hide IsSlave, MasterName;
    if hosts != [] {
      var n := |hosts| - 1;
      SlaveKeysAre(hosts[..n], k);
      assert forall i :: 0 <= i < n ==> hosts[..n][i] == hosts[i];
    }
  }

  lemma {:induction false} SlaveKeysCount(hosts: seq<string>)
    requires LongNames(hosts)
    ensures |SlaveKeys(hosts)| <= |hosts|
  {
    hide IsSlave, MasterName;
    if hosts != [] {
      SlaveKeysCount(hosts[..|hosts| - 1]);
    }
  }

  /** The constructor's loop over the configured host list. */
  method SplitHosts(hosts: seq<string>) returns (d: map<string, seq<string>>, l: seq<string>)
    requires LongNames(hosts)
    ensures d.Keys == SlaveKeys(hosts) && l == Masters(hosts)
  {
    hide IsSlave, MasterName;
    d, l := map[], [];
    for n := 0 to |hosts|
      invariant d.Keys == SlaveKeys(hosts[..n]) && l == Masters(hosts[..n])
    {
      assert hosts[..n + 1][..n] == hosts[..n];
      if IsSlave(hosts[n]) {
        d := d[MasterName(hosts[n]) := []];
      } else {
        l := l + [hosts[n]];
      }
    }
    assert hosts[..|hosts|] == hosts;
  }

  /** The loop of `refresh_domain_map`, over the answers of the crush map in any order. */
  method Merge(tmp: map<string, seq<string>>, online: seq<string>, was: map<string, seq<string>>)
    returns (d: map<string, seq<string>>)
    requires forall s :: s in tmp ==> s == SlaveName(MasterName(s)) && MasterName(s) in was
    ensures d.Keys == was.Keys
    ensures forall k :: k in d && SlaveName(k) !in tmp ==> d[k] == was[k]
    ensures forall k :: SlaveName(k) in tmp ==>
              k in d && d[k] == if k in online then [k] + tmp[SlaveName(k)] else []
  {
    d := was;
    var todo := tmp.Keys;
    while todo != {}
      invariant todo <= tmp.Keys && d.Keys == was.Keys
      invariant forall k :: k in d && SlaveName(k) !in tmp ==> d[k] == was[k]
      invariant forall s :: s in tmp && s !in todo ==>
                  d[MasterName(s)] == if MasterName(s) in online then [MasterName(s)] + tmp[s] else []
      decreases |todo|
    {
      var slave :| slave in todo;
      var master := MasterName(slave);
      d := d[master := []];
      if master in online {
        d := d[master := [master] + tmp[slave]];
      }
      todo := todo - {slave};
    }
    forall k | SlaveName(k) in tmp
      ensures k in d && d[k] == if k in online then [k] + tmp[SlaveName(k)] else []
    {
      SlaveNames(k);
    }
  }

  /** The master, then distinct slaves that are up, not its own. */
  ghost predicate ReplicaSet(events: seq<Event>, slaves: set<string>, count: nat, master: string, item: seq<string>) {
    && 1 <= |item| <= count && item[0] == master && Distinct(item[1..])
    && forall i :: 1 <= i < |item| ==>
         item[i] in slaves && SlaveUp(events, item[i]) && item[i] != SlaveName(master)
  }

  /** `find` and `erase` on the list of masters that are up. */
  method Erase(l: seq<string>, h: string) returns (r: seq<string>)
    ensures r == EraseFirst(l, h)
  {
    var i := 0;
    while i < |l| && l[i] != h
      invariant i <= |l| && h !in l[..i]
    {
      i := i + 1;
    }
    if i < |l| {
      EraseFirstIndex(l, i);
      return l[..i] + l[i + 1..];
    }
    EraseFirstAbsent(l, h);
    return l;
  }

  lemma {:induction false} EraseFirstAbsent(l: seq<string>, h: string)
    requires h !in l
    ensures EraseFirst(l, h) == l
  {
    if l != [] {
      EraseFirstAbsent(l[1..], h);
    }
  }

  class HDCSDomainMap {
    const replicationCount: nat
    const cmap: CrushMapGenerator
    var domainMap: map<string, seq<string>>
    var online: seq<string>

    /** The masters that have a slave in the crush map. */
    ghost predicate Configured(master: string)
      reads this, cmap
    {
      SlaveName(master) in cmap.hostIndex
    }

    ghost predicate Valid()
      reads this, cmap, cmap.weights, cmap.ws, cmap.ws.Repr
    {
      && cmap.Valid() && cmap.replication == replicationCount - 1
      && this !in cmap.ws.Repr
      && (forall s :: s in cmap.hostIndex ==> s == SlaveName(MasterName(s)) && MasterName(s) in domainMap)
    }

    /** What a refreshed item must be: nothing while the master is off, and otherwise the master
        with the crush map's answer for its slave. */
    ghost predicate ItemOk(master: string)
      requires Valid()
      reads this, cmap, cmap.weights, cmap.ws, cmap.ws.Repr
    {
      master in domainMap &&
      domainMap[master] == if master in online then [master] + cmap.Domain(SlaveName(master)) else []
    }

    ghost predicate AllItemsOk()
      requires Valid()
      reads this, cmap, cmap.weights, cmap.ws, cmap.ws.Repr
    {
      forall master :: Configured(master) ==> ItemOk(master)
    }

    /** Slaves become map entries, everything else is a master that starts online. */
    constructor (o: Oracle, hosts: seq<string>, replicationCount: nat)
      requires replicationCount >= 2
      requires LongNames(hosts)
      ensures this.replicationCount == replicationCount
      ensures cmap.Growing() && cmap.hostCount == 0 && cmap.replication == replicationCount - 1
      ensures cmap.o == o && fresh(cmap) && fresh(cmap.root)
      ensures domainMap.Keys == SlaveKeys(hosts) && online == Masters(hosts)
    {
      this.replicationCount := replicationCount;
      cmap := new CrushMapGenerator(o, replicationCount - 1);
      var d, l := SplitHosts(hosts);
      domainMap, online := d, l;
    }

    /** `generate_domain_map`. */
    method Generate()
      requires cmap.Growing() && cmap.hostCount == 0 && cmap.replication == replicationCount - 1 >= 1
      requires |domainMap| <= 65535
      modifies this, cmap, cmap.root
      ensures Valid() && AllItemsOk() && online == old(online)
      ensures fresh(cmap.weights) && fresh(cmap.ws) && fresh(cmap.ws.Repr)
      ensures cmap.hostIndex.Keys == SlaveSet(old(domainMap).Keys)
      ensures forall k :: Configured(k) <==> k in old(domainMap)
      ensures forall s :: s in cmap.hostIndex ==> cmap.Up(s)
    {
      var names := SlaveSet(domainMap.Keys);
      cmap.Build(names);
      Refresh();
    }

    /** The answers of the crush map for all slaves. */
    method Answers() returns (tmp: map<string, seq<string>>)
      requires Valid()
      modifies cmap.weights, cmap.ws.Repr
      ensures Valid() && online == old(online) && domainMap == old(domainMap)
      ensures cmap.weights == old(cmap.weights) && cmap.ws == old(cmap.ws) && cmap.hostIndex == old(cmap.hostIndex)
      ensures cmap.weights[..] == old(cmap.weights[..])
      ensures forall s :: s in cmap.hostIndex ==> (cmap.Up(s) <==> old(cmap.Up(s)))
      ensures tmp.Keys == cmap.hostIndex.Keys && forall s :: s in tmp ==> tmp[s] == cmap.Domain(s)
    {
      hide SlaveName, MasterName, HoldsHosts, CrushMapGenerator.Domain, CrushMapGenerator.DomainUnder;
      tmp := cmap.GetAll();
    }

    /** Enters the answers. */
    method Store(tmp: map<string, seq<string>>)
      requires Valid() && tmp.Keys == cmap.hostIndex.Keys && forall s :: s in tmp ==> tmp[s] == cmap.Domain(s)
      modifies this`domainMap
      ensures Valid() && AllItemsOk()
      ensures forall s :: s in cmap.hostIndex ==> (cmap.Up(s) <==> old(cmap.Up(s)))
      ensures forall k :: k in domainMap <==> k in old(domainMap)
      ensures forall k :: k in domainMap && !Configured(k) ==> domainMap[k] == old(domainMap[k])
      ensures forall k :: Configured(k) ==>
                k in domainMap && domainMap[k] == if k in online then [k] + cmap.Domain(SlaveName(k)) else []
    {
      hide AllItemsOk, ItemOk, SlaveName, MasterName, HoldsHosts;
      hide CrushMapGenerator.Domain, CrushMapGenerator.DomainUnder, CrushMapGenerator.Up, CrushMapGenerator.Numbered;
      domainMap := Merge(tmp, online, domainMap);
      RefreshedItemsOk(tmp);
    }

    /** `refresh_domain_map`: every configured item is recomputed. */
    method Refresh()
      requires Valid()
      modifies this, cmap.weights, cmap.ws.Repr
      ensures Valid() && AllItemsOk()
      ensures online == old(online) && cmap.weights[..] == old(cmap.weights[..])
      ensures cmap.weights == old(cmap.weights) && cmap.ws == old(cmap.ws) && cmap.hostIndex == old(cmap.hostIndex)
      ensures forall s :: s in cmap.hostIndex ==> (cmap.Up(s) <==> old(cmap.Up(s)))
      ensures forall k :: k in domainMap <==> k in old(domainMap)
      ensures forall k :: k in domainMap && !Configured(k) ==> domainMap[k] == old(domainMap[k])
      ensures forall k :: Configured(k) ==>
                k in domainMap && domainMap[k] == if k in online then [k] + cmap.Domain(SlaveName(k)) else []
    {
      hide Valid, CrushMapGenerator.Valid, AllItemsOk, SlaveName;
      hide CrushMapGenerator.Domain, CrushMapGenerator.Up;
      var tmp := Answers();
      Store(tmp);
    }

    /** `offline_host`; `thrown` reports the out-of-range exception on short names. */
    method OfflineHost(host: string) returns (thrown: bool)
      requires Valid()
      modifies this`online, cmap.weights
      ensures Valid() && thrown == (|host| < 5)
      ensures forall s :: s in cmap.hostIndex ==> (cmap.Up(s) <==> s != host && old(cmap.Up(s)))
      ensures multiset(online) ==
              multiset(old(online)) - if |host| >= 5 && !IsSlave(host) then multiset{host} else multiset{}
    {
      if |host| < 5 {
        NoSlaveIsShort(host);
        return true;
      }
      if IsSlave(host) {
        cmap.OfflineHost(host);
      } else {
        NoMasterIsSlave(host);
        OfflineIffListedOnce(online, host);
        online := Erase(online, host);
      }
      return false;
    }

    /** `online_host`. */
    method OnlineHost(host: string) returns (thrown: bool)
      requires Valid()
      modifies this`online, cmap.weights
      ensures Valid() && thrown == (|host| < 5)
      ensures forall s :: s in cmap.hostIndex ==> (cmap.Up(s) <==> s == host || old(cmap.Up(s)))
      ensures multiset(online) ==
              multiset(old(online)) +
              if |host| >= 5 && !IsSlave(host) && host !in old(online) then multiset{host} else multiset{}
    {
      if |host| < 5 {
        NoSlaveIsShort(host);
        return true;
      }
      if IsSlave(host) {
        cmap.OnlineHost(host);
      } else {
        NoMasterIsSlave(host);
        if host !in online {
          online := online + [host];
        }
      }
      return false;
    }

    lemma NoSlaveIsShort(host: string)
      requires Valid() && |host| < 5
      ensures host !in cmap.hostIndex
    {
      if host in cmap.hostIndex {
        SlaveNames(MasterName(host));
      }
    }

    lemma NoMasterIsSlave(host: string)
      requires Valid() && |host| >= 5 && !IsSlave(host)
      ensures host !in cmap.hostIndex
    {
      if host in cmap.hostIndex {
        SlaveNames(MasterName(host));
      }
    }

    /** `get_host_domain_item`: asking for an unknown master enters an item of empty names. */
    method GetHostDomainItem(host: string) returns (thrown: bool, item: seq<string>)
      requires Valid()
      modifies this`domainMap
      ensures Valid() && thrown == (|host| < 5)
      ensures thrown || IsSlave(host) ==> item == [] && domainMap == old(domainMap)
      ensures !thrown && !IsSlave(host) ==>
                if host in old(domainMap) then item == old(domainMap)[host] && domainMap == old(domainMap)
                else item == seq(replicationCount, _ => "") && domainMap == old(domainMap)[host := item]
      ensures old(AllItemsOk()) ==> AllItemsOk()
    {
      if |host| < 5 {
        return true, [];
      }
      if IsSlave(host) {
        return false, [];
      }
      if host !in domainMap {
        item := seq(replicationCount, _ => "");
        assert !Configured(host) by {
          if Configured(host) { SlaveNames(host); }
        }
        ghost var wasOk := AllItemsOk();
        domainMap := domainMap[host := item];
        if wasOk {
          forall master | Configured(master) ensures ItemOk(master) {
            assert old(ItemOk(master)) && master != host;
          }
        }
        return false, item;
      }
      return false, domainMap[host];
    }

    /** The state agrees with what the events so far say about every host. */
    ghost predicate Reflects(start: seq<string>, events: seq<Event>)
      requires Valid()
      reads this, cmap, cmap.weights, cmap.ws, cmap.ws.Repr
    {
      && (forall s :: s in cmap.hostIndex ==> (cmap.Up(s) <==> SlaveUp(events, s)))
      && (forall k :: multiset(online)[k] == Entries(start, events, k))
    }

    /** One event, followed by a refresh. */
    method Handle(e: Event, ghost start: seq<string>, ghost events: seq<Event>)
      requires Valid() && Reflects(start, events)
      modifies this, cmap.weights, cmap.ws.Repr
      ensures Valid() && AllItemsOk() && Reflects(start, events + [e])
      ensures cmap.weights == old(cmap.weights) && cmap.ws == old(cmap.ws) && cmap.hostIndex == old(cmap.hostIndex)
    {
      hide AllItemsOk, Valid, CrushMapGenerator.Valid, CrushMapGenerator.Up, Configured;
      Deliver(e, start, events);
      Refresh();
    }

    method Deliver(e: Event, ghost start: seq<string>, ghost events: seq<Event>)
      requires Valid() && Reflects(start, events)
      modifies this`online, cmap.weights
      ensures Valid() && Reflects(start, events + [e])
    {
      hide IsSlave, SlaveName, MasterName, HoldsHosts, CrushMapGenerator.Numbered, SlaveUp, Entries;
      var thrown;
      match e {
        case Offline(host) => thrown := OfflineHost(host);
        case Online(host) => thrown := OnlineHost(host);
      }
      forall s | s in cmap.hostIndex ensures cmap.Up(s) <==> SlaveUp(events + [e], s) {
        SlaveUpStep(events, e, s);
      }
      forall k ensures multiset(online)[k] == Entries(start, events + [e], k) {
        EntriesStep(start, events, e, k);
      }
    }

    /** Any run of events: at its end (and, being true for every run, all along it) each
        configured master's item is empty if the events leave it no entry, and otherwise is
        the master followed by fewer than `replicationCount` distinct slaves that are all up
        by the events and do not include its own; for a master listed once, it is empty
        exactly if the master is down by the events. */
    method Run(events: seq<Event>)
      requires Valid() && AllItemsOk() && forall s :: s in cmap.hostIndex ==> cmap.Up(s)
      modifies this, cmap.weights, cmap.ws.Repr
      ensures Valid() && cmap.hostIndex == old(cmap.hostIndex)
      ensures forall k :: Configured(k) ==> k in domainMap
      ensures forall k :: Configured(k) ==>
                if Entries(old(online), events, k) > 0
                then ReplicaSet(events, cmap.hostIndex.Keys, replicationCount, k, domainMap[k])
                else domainMap[k] == []
      ensures forall k :: Configured(k) && Entries(old(online), events, k) > 0 ==>
                && domainMap[k] == [k] + cmap.Domain(SlaveName(k))
                && (|domainMap[k]| >= 2 <==> cmap.Offered(SlaveName(k)))
      ensures forall k :: Configured(k) && multiset(old(online))[k] <= 1 && !MasterUp(old(online), events, k) ==>
                domainMap[k] == []
      ensures forall k :: Configured(k) && multiset(old(online))[k] <= 1 && MasterUp(old(online), events, k) ==>
                ReplicaSet(events, cmap.hostIndex.Keys, replicationCount, k, domainMap[k])
    {
      hide AllItemsOk, Reflects, ReplicaSet, Valid, CrushMapGenerator.Valid;
      ghost var start := online;
      AllUpReflects();
      for i := 0 to |events|
        invariant Valid() && Reflects(start, events[..i]) && AllItemsOk()
        invariant cmap.weights == old(cmap.weights) && cmap.ws == old(cmap.ws) && cmap.hostIndex == old(cmap.hostIndex)
      {
        assert events[..i + 1] == events[..i] + [events[i]];
        Handle(events[i], start, events[..i]);
      }
      assert events[..|events|] == events;
      ItemsFollowEvents(start, events);
      forall k | multiset(start)[k] <= 1 ensures Entries(start, events, k) > 0 <==> MasterUp(start, events, k) {
        EntriesOfOnce(start, events, k);
      }
    }

    lemma AllUpReflects()
      requires Valid() && forall s :: s in cmap.hostIndex ==> cmap.Up(s)
      ensures Reflects(online, [])
    {
    }

    lemma ItemsFollowEvents(start: seq<string>, events: seq<Event>)
      requires Valid() && AllItemsOk() && Reflects(start, events)
      ensures forall k :: Configured(k) ==>
                && k in domainMap
                && if Entries(start, events, k) > 0
                   then ReplicaSet(events, cmap.hostIndex.Keys, replicationCount, k, domainMap[k])
                   else domainMap[k] == []
      ensures forall k :: Configured(k) && Entries(start, events, k) > 0 ==>
                && domainMap[k] == [k] + cmap.Domain(SlaveName(k))
                && (|domainMap[k]| >= 2 <==> cmap.Offered(SlaveName(k)))
    {
      hide CrushMapGenerator.Domain, CrushMapGenerator.Offered, CrushMapGenerator.Valid, Entries, SlaveUp, SlaveName;
      forall k | Configured(k)
        ensures k in domainMap
        ensures if Entries(start, events, k) > 0
                then ReplicaSet(events, cmap.hostIndex.Keys, replicationCount, k, domainMap[k])
                else domainMap[k] == []
        ensures Entries(start, events, k) > 0 ==>
                  && domainMap[k] == [k] + cmap.Domain(SlaveName(k))
                  && (|domainMap[k]| >= 2 <==> cmap.Offered(SlaveName(k)))
      {
        assert ItemOk(k);
        assert k in online <==> multiset(online)[k] > 0;
        cmap.DomainIsSound(SlaveName(k));
        cmap.DomainIffOffered(SlaveName(k));
        assert k in online ==> domainMap[k][1..] == cmap.Domain(SlaveName(k));
      }
    }

    lemma RefreshedItemsOk(tmp: map<string, seq<string>>)
      requires Valid() && tmp.Keys == cmap.hostIndex.Keys
      requires forall s :: s in tmp ==> tmp[s] == cmap.Domain(s)
      requires forall k :: SlaveName(k) in tmp ==>
                 k in domainMap && domainMap[k] == if k in online then [k] + tmp[SlaveName(k)] else []
      ensures AllItemsOk()
    {
      forall k | Configured(k)
        ensures ItemOk(k)
      {
      }
    }
  }

  /** From a list of host names through any run of events.  A name too short to be tested for
      the slave suffix throws in the constructor. */
  method Serve(o: Oracle, hosts: seq<string>, count: nat, events: seq<Event>) returns (m: HDCSDomainMap?)
    requires count >= 2 && |hosts| <= 65535
    ensures m == null <==> !LongNames(hosts)
    ensures m != null ==>
              forall k :: k in SlaveKeys(hosts) ==>
                && k in m.domainMap
                && if Entries(Masters(hosts), events, k) > 0
                   then ReplicaSet(events, SlaveSet(SlaveKeys(hosts)), count, k, m.domainMap[k])
                   else m.domainMap[k] == []
    ensures m != null ==> m.Valid() && m.cmap.o == o && m.cmap.replication == count - 1
    ensures m != null ==>
              forall k :: k in SlaveKeys(hosts) && Entries(Masters(hosts), events, k) > 0 ==>
                && SlaveName(k) in m.cmap.hostIndex && k in m.domainMap
                && m.domainMap[k] == [k] + m.cmap.Domain(SlaveName(k))
                && (|m.domainMap[k]| >= 2 <==> m.cmap.Offered(SlaveName(k)))
    ensures m != null ==>
              forall k :: k in SlaveKeys(hosts) && multiset(Masters(hosts))[k] <= 1 ==>
                && k in m.domainMap
                && if MasterUp(Masters(hosts), events, k)
                   then ReplicaSet(events, SlaveSet(SlaveKeys(hosts)), count, k, m.domainMap[k])
                   else m.domainMap[k] == []
  {
    hide MasterUp, Entries, ReplicaSet, Masters, SlaveKeys, IsSlave, SlaveName, SlaveSet;
    hide CrushMapGenerator.Valid, CrushMapGenerator.Domain, CrushMapGenerator.Offered, CrushMapGenerator.Growing;
    hide HDCSDomainMap.AllItemsOk;
    if !LongNames(hosts) {
      return null;
    }
    m := new HDCSDomainMap(o, hosts, count);
    SlaveKeysCount(hosts);
    assert m.domainMap.Keys == SlaveKeys(hosts) && |m.domainMap| == |m.domainMap.Keys|;
    m.Generate();
    m.Run(events);
  }

  function SlaveSet(ks: set<string>): (names: set<string>)
    ensures |names| <= |ks|
    ensures forall k :: SlaveName(k) in names <==> k in ks
    ensures forall s :: s in names ==> s == SlaveName(MasterName(s)) && MasterName(s) in ks
  {
    SlaveNamesCount(ks);
    var names := set k | k in ks :: SlaveName(k);
    assert forall s :: s in names ==> s == SlaveName(MasterName(s)) && MasterName(s) in ks by {
      forall s | s in names ensures s == SlaveName(MasterName(s)) && MasterName(s) in ks {
        var k :| k in ks && s == SlaveName(k);
        SlaveNames(k);
      }
    }
    assert forall k :: SlaveName(k) in names ==> k in ks by {
      forall k | SlaveName(k) in names ensures k in ks { SlaveNames(k); }
    }
    names
  }

  lemma SlaveUpStep(events: seq<Event>, e: Event, slave: string)
    ensures SlaveUp(events + [e], slave) <==> if e.host == slave then e.Online? else SlaveUp(events, slave)
  {
    assert (events + [e])[..|events|] == events;
  }

  lemma EntriesStep(start: seq<string>, events: seq<Event>, e: Event, k: string)
    ensures Entries(start, events + [e], k) ==
            var n := Entries(start, events, k);
            if e.host == k && |e.host| >= 5 && !IsSlave(e.host) then
              if e.Online? then if n == 0 then 1 else n else if n == 0 then 0 else n - 1
            else n
  {
    assert (events + [e])[..|events|] == events;
  }

  lemma {:induction false} SlaveNamesCount(ks: set<string>)
    ensures |set k | k in ks :: SlaveName(k)| <= |ks|
    decreases |ks|
  {
    if ks != {} {
      var k :| k in ks;
      SlaveNamesCount(ks - {k});
      var rest := set j | j in ks - {k} :: SlaveName(j);
      assert (set j | j in ks :: SlaveName(j)) == rest + {SlaveName(k)};
    }
  }
}

/**
  What agents make of their jobs: the initial ETCD cluster (cmd/agent/job_etcd.go), and the priorities and peers
  of the HA nodes (pkg/cache/strategy_ha.go, cmd/agent/job_ha.go). Agents never talk to each other about these,
  so they have to agree by construction.
 */
module Membership {
  import opened Entities
  import opened Caching
  import opened Scheduling
  import Text

  // ---------- the initial ETCD cluster ----------

  const PEER_SCHEME := "=https://"
  const PEER_PORT := ":2380"

  function PeerEntry(ip: string, nameOf: string -> string): string {
    nameOf(ip) + PEER_SCHEME + ip + PEER_PORT
  }

  function PeerEntries(servers: seq<string>, nameOf: string -> string): (r: seq<string>)
    ensures |r| == |servers| && forall i :: 0 <= i < |r| ==> r[i] == PeerEntry(servers[i], nameOf)
  {
    seq(|servers|, i requires 0 <= i < |servers| => PeerEntry(servers[i], nameOf))
  }

  function InitialCluster(addresses: string, nameOf: string -> string): string {
    Text.Join(PeerEntries(Text.Split(addresses, ','), nameOf), ',')
  }

  // The initial-cluster setting an agent derives from its job; without addresses the job is refused.
  method HandleDeployEtcd(addresses: string, nameOf: string -> string) returns (initialCluster: Option<string>)
    ensures initialCluster == if addresses == "" then None else Some(InitialCluster(addresses, nameOf))
    ensures initialCluster.Some? && (forall ip :: ',' !in nameOf(ip) && '=' !in nameOf(ip)) ==>
        var entries, servers := Text.Split(initialCluster.value, ','), Text.Split(addresses, ',');
        && |entries| == |servers|
        && forall i :: 0 <= i < |entries| ==>
          CutAtFirst(entries[i], '=') == Some((nameOf(servers[i]), "https://" + servers[i] + ":2380"))
  {
    hide PeerEntry, Text.Split, Text.Join, CutAtFirst;
    if addresses == "" {
      return None;
    }
    var servers := Text.Split(addresses, ',');
    ghost var entries := PeerEntries(servers, nameOf);
    var sb := "";
    assert entries[0..] == entries && "" + Text.Join(entries, ',') == Text.Join(entries, ',');
    for i := 0 to |servers|
      invariant Text.Join(entries, ',') == sb + Text.Join(entries[i..], ',')
    {
      JoinNext(entries, i);
      sb := sb + PeerEntry(servers[i], nameOf);
      if i != |servers| - 1 {
        sb := sb + ",";
      }
    }
    JoinOfNone(entries[|servers|..]);
    assert sb == sb + "" == Text.Join(entries, ',');
    SettingReadsBack(addresses, nameOf);
    return Some(sb);
  }

  lemma SettingReadsBack(addresses: string, nameOf: string -> string)
    ensures (forall ip :: ',' !in nameOf(ip) && '=' !in nameOf(ip)) ==>
        var entries, servers := Text.Split(InitialCluster(addresses, nameOf), ','), Text.Split(addresses, ',');
        && |entries| == |servers|
        && forall i :: 0 <= i < |entries| ==>
          CutAtFirst(entries[i], '=') == Some((nameOf(servers[i]), "https://" + servers[i] + ":2380"))
  {
    hide PeerEntry, Text.Split, Text.Join, CutAtFirst;
    if forall ip :: ',' !in nameOf(ip) && '=' !in nameOf(ip) {
      var servers := Text.Split(addresses, ',');
      Text.SplitPartsArePlain(addresses, ',');
      EntriesSplitBack(servers, nameOf);
      forall i | 0 <= i < |servers|
        ensures CutAtFirst(PeerEntries(servers, nameOf)[i], '=')
             == Some((nameOf(servers[i]), "https://" + servers[i] + ":2380"))
      {
        EntryReadsBack(servers[i], nameOf);
      }
    }
  }

  lemma JoinNext(entries: seq<string>, i: nat)
    requires i < |entries|
    ensures Text.Join(entries[i..], ',')
         == entries[i] + (if i == |entries| - 1 then "" else ",") + Text.Join(entries[i + 1..], ',')
  {
    assert entries[i..][1..] == entries[i + 1..];
  }

  lemma JoinOfNone(entries: seq<string>)
    requires entries == []
    ensures Text.Join(entries, ',') == ""
  {
  }

  // Everyone in the ETCD collection is reported under an address of its own that can be put in a list.
  ghost predicate Listable(m: map<string, Agent>, slot: Slot) {
    && (forall id :: id in m ==> m[id].roles.In(slot) && m[id].state.Some?)
    && (forall id :: id in m ==> Address(m[id]) != "" && ',' !in Address(m[id]))
  }

  lemma EtcdArgumentsAre(cfg: ClusterSettings, agent: Agent, facts: Facts, failing: set<nat>)
    requires NextJob(cfg, agent, facts, failing).job.name == Deploy(ETCD)
    ensures NextJob(cfg, agent, facts, failing).job.args == EtcdArguments(Text.Join(facts.etcdIps, ','))
    ensures facts.etcdTotal >= cfg.expectedETCDCount
  {
    hide Text.Join;
    var checks := AskAll(cfg, agent, facts, failing);
    var i := Decisive(checks);
    assert checks[0] == EtcdCheck(cfg, agent, facts);
    assert i < |STRATEGIES| ==> checks[i] == CanDeploy(STRATEGIES[i], cfg, agent, facts, failing);
    assert i == 0;
  }

  // The addresses split back into the list they were joined from.
  lemma ListSplitsBack(cache: Cache, slot: Slot, flag: StatusFlag, now: real)
    requires Listable(cache.At(slot), slot) && Addresses(cache, slot, flag, now) != []
    ensures var ips := Addresses(cache, slot, flag, now);
      Text.Split(Text.Join(ips, ','), ',') == ips && Text.Join(ips, ',') != ""
  {
    hide Text.Split, Text.Join, Addresses;
    var ips := Addresses(cache, slot, flag, now);
    forall ip | ip in ips ensures ip != "" && ',' !in ip {
      ListedExactlyWhen(cache, cache.At(slot), slot, flag, now, ip);
    }
    Text.SplitUndoesJoin(ips, ',');
    JoinOfPlain(ips);
  }

  lemma AddressesSplitBack(cache: Cache, slot: Slot, now: real)
    requires Listable(cache.At(slot), slot) && cache.At(slot) != map[]
    ensures var ips := Addresses(cache, slot, Whatever, now);
      Text.Split(Text.Join(ips, ','), ',') == ips && |ips| == |cache.At(slot)| && Text.Join(ips, ',') != ""
  {
    hide Text.Split, Text.Join, Addresses;
    AddressesOfAll(cache, slot, now);
    ListSplitsBack(cache, slot, Whatever, now);
  }

  lemma JoinOfPlain(ips: seq<string>)
    requires ips != [] && forall ip :: ip in ips ==> ip != ""
    ensures Text.Join(ips, ',') != ""
  {
    assert ips[0] in ips;
  }

  lemma AddressHasOwner(cache: Cache, slot: Slot, now: real, ip: string)
    requires ip in Addresses(cache, slot, Whatever, now)
    ensures exists id :: id in cache.At(slot) && Address(cache.At(slot)[id]) == ip
  {
    hide Addresses;
    ListedExactlyWhen(cache, cache.At(slot), slot, Whatever, now, ip);
  }

  // Agents that are given the ETCD job from the same cache content, whenever they ask, are given the same list.
  lemma SameEtcdArguments(cfg: ClusterSettings, cache: Cache, a: Agent, b: Agent, now: real, later: real,
                          failing: set<nat>, failingLater: set<nat>)
    requires NextJob(cfg, a, Survey(cache, now), failing).job.name == Deploy(ETCD)
    requires NextJob(cfg, b, Survey(cache, later), failingLater).job.name == Deploy(ETCD)
    ensures NextJob(cfg, a, Survey(cache, now), failing).job.args
        == NextJob(cfg, b, Survey(cache, later), failingLater).job.args
    ensures NextJob(cfg, a, Survey(cache, now), failing).job.args
        == EtcdArguments(Text.Join(Addresses(cache, ETCD, Whatever, now), ','))
    ensures |cache.etcd| >= cfg.expectedETCDCount
  {
    hide NextJob, Text.Join, Addresses, CountProvisioned;
    EtcdArgumentsAre(cfg, a, Survey(cache, now), failing);
    EtcdArgumentsAre(cfg, b, Survey(cache, later), failingLater);
    TimeDoesNotMatter(cache, ETCD, now, later);
  }

  // The text before and after the first separator.
  function CutAtFirst(s: string, sep: char): Option<(string, string)> {
    if s == "" then None
    else if s[0] == sep then Some(("", s[1..]))
    else match CutAtFirst(s[1..], sep)
      case None => None
      case Some(parts) => Some(([s[0]] + parts.0, parts.1))
  }

  lemma {:induction false} CutAfter(name: string, sep: char, rest: string)
    requires sep !in name
    ensures CutAtFirst(name + [sep] + rest, sep) == Some((name, rest))
  {
    if name == "" {
      assert (name + [sep] + rest)[1..] == rest;
    } else {
      assert (name + [sep] + rest)[1..] == name[1..] + [sep] + rest;
      CutAfter(name[1..], sep, rest);
      assert [name[0]] + name[1..] == name;
    }
  }

  // An entry reads back as the name of the member and the URL of its peer port.
  lemma EntryReadsBack(ip: string, nameOf: string -> string)
    requires '=' !in nameOf(ip)
    ensures CutAtFirst(PeerEntry(ip, nameOf), '=') == Some((nameOf(ip), "https://" + ip + ":2380"))
  {
    var url := "https://" + ip + ":2380";
    assert PEER_SCHEME == ['='] + "https://";
    assert PeerEntry(ip, nameOf) == nameOf(ip) + ['='] + url;
    CutAfter(nameOf(ip), '=', url);
  }

  // Different members have different entries, even under one name.
  lemma EntriesDiffer(a: string, b: string, nameOf: string -> string)
    requires '=' !in nameOf(a) && '=' !in nameOf(b)
    ensures PeerEntry(a, nameOf) == PeerEntry(b, nameOf) <==> a == b
  {
    EntryReadsBack(a, nameOf);
    EntryReadsBack(b, nameOf);
    var front, back := "https://", ":2380";
    if PeerEntry(a, nameOf) == PeerEntry(b, nameOf) {
      assert |a| == |b|;
      assert (front + a + back)[8..8 + |a|] == a && (front + b + back)[8..8 + |b|] == b;
    }
  }

  // The names and peer URLs that a setting lists.
  function MembersOf(cluster: string): set<Option<(string, string)>> {
    set e | e in Text.Split(cluster, ',') :: CutAtFirst(e, '=')
  }

  // Membership agreement: whoever is given the ETCD job from one cache content derives a setting whose members are the
  // ETCD agents, each under its name and reported address, as many entries as agents and at least the expected number.
  lemma MembershipAgreement(cfg: ClusterSettings, cache: Cache, agent: Agent, now: real, failing: set<nat>,
                            nameOf: string -> string)
    requires NextJob(cfg, agent, Survey(cache, now), failing).job.name == Deploy(ETCD) && cfg.expectedETCDCount > 0
    requires Listable(cache.etcd, ETCD) && forall ip :: ',' !in nameOf(ip) && '=' !in nameOf(ip)
    ensures var args := NextJob(cfg, agent, Survey(cache, now), failing).job.args;
      && args.EtcdArguments? && args.addresses != ""
      && var cluster := InitialCluster(args.addresses, nameOf);
      && |Text.Split(cluster, ',')| == |cache.etcd| >= cfg.expectedETCDCount
      && MembersOf(cluster) == set id | id in cache.etcd ::
          var ip := cache.etcd[id].state.value.lastReportIP; Some((nameOf(ip), "https://" + ip + ":2380"))
  {
    hide NextJob, Text.Join, Text.Split, Addresses, CountProvisioned, PeerEntry;
    SameEtcdArguments(cfg, cache, agent, agent, now, now, failing, failing);
    assert cache.At(ETCD) == cache.etcd && cache.etcd != map[];
    AddressesSplitBack(cache, ETCD, now);
    var ips := Addresses(cache, ETCD, Whatever, now);
    EntriesSplitBack(ips, nameOf) by {
      forall ip | ip in ips ensures ',' !in ip { AddressHasOwner(cache, ETCD, now, ip); }
    }
    MembersAreOwners(cache, now, ips, nameOf);
  }

  lemma EntriesSplitBack(ips: seq<string>, nameOf: string -> string)
    requires ips != [] && forall ip :: ip in ips ==> ',' !in ip && ',' !in nameOf(ip)
    ensures Text.Split(Text.Join(PeerEntries(ips, nameOf), ','), ',') == PeerEntries(ips, nameOf)
  {
    hide Text.Join, Text.Split, PeerEntry;
    var entries := PeerEntries(ips, nameOf);
    forall e | e in entries ensures ',' !in e {
      var i :| 0 <= i < |entries| && entries[i] == e;
      EntryIsPlain(ips[i], nameOf);
    }
    Text.SplitUndoesJoin(entries, ',');
  }

  lemma MembersAreOwners(cache: Cache, now: real, ips: seq<string>, nameOf: string -> string)
    requires Listable(cache.etcd, ETCD) && ips == Addresses(cache, ETCD, Whatever, now)
    requires forall ip :: '=' !in nameOf(ip)
    ensures (set e | e in PeerEntries(ips, nameOf) :: CutAtFirst(e, '='))
         == set id | id in cache.etcd ::
          var ip := cache.etcd[id].state.value.lastReportIP; Some((nameOf(ip), "https://" + ip + ":2380"))
  {
    hide Addresses, PeerEntry, CutAtFirst;
    assert cache.At(ETCD) == cache.etcd;
    AddressesOfAll(cache, ETCD, now);
    var entries := PeerEntries(ips, nameOf);
    var read := set e | e in entries :: CutAtFirst(e, '=');
    var members := set id | id in cache.etcd ::
      var ip := cache.etcd[id].state.value.lastReportIP; Some((nameOf(ip), "https://" + ip + ":2380"));
    forall m | m in read ensures m in members {
      var e :| e in entries && CutAtFirst(e, '=') == m;
      var i :| 0 <= i < |entries| && entries[i] == e;
      EntryReadsBack(ips[i], nameOf);
      AddressHasOwner(cache, ETCD, now, ips[i]);
      var id :| id in cache.etcd && Address(cache.etcd[id]) == ips[i];
      assert cache.etcd[id].state.value.lastReportIP == ips[i];
    }
    forall id | id in cache.etcd
      ensures var ip := cache.etcd[id].state.value.lastReportIP; Some((nameOf(ip), "https://" + ip + ":2380")) in read
    {
      var ip := cache.etcd[id].state.value.lastReportIP;
      assert ip == Address(cache.etcd[id]);
      var i :| 0 <= i < |ips| && ips[i] == ip;
      EntryReadsBack(ip, nameOf);
      assert entries[i] in entries;
    }
  }

  lemma EntryIsPlain(ip: string, nameOf: string -> string)
    requires ',' !in ip && ',' !in nameOf(ip)
    ensures ',' !in PeerEntry(ip, nameOf)
  {
    assert ',' !in PEER_SCHEME && ',' !in PEER_PORT;
  }

  // Without a status condition the list does not depend on the clock.
  lemma TimeDoesNotMatter(cache: Cache, slot: Slot, now: real, later: real)
    ensures Addresses(cache, slot, Whatever, now) == Addresses(cache, slot, Whatever, later)
  {
    var m := cache.At(slot);
    var order := SomeOrder(m.Keys);
    EnumeratesKeys(order, m);
    CollectedAlike(m, order, slot, now, later);
  }

  lemma {:induction false} CollectedAlike(m: map<string, Agent>, order: seq<string>, slot: Slot, now: real, later: real)
    requires forall id :: id in order ==> id in m
    ensures Collect(m, order, slot, Whatever, now) == Collect(m, order, slot, Whatever, later)
  {
    if order != [] {
      CollectedAlike(m, order[1..], slot, now, later);
    }
  }

  // ---------- priorities ----------

  ghost function Priority(cache: Cache, now: real, agent: Agent): int {
    IndexOf(Address(agent), Addresses(cache, HA, Whatever, now)) + BASE_PRIORITY
  }

  // The HA agents have the HA role, and no two of them report the same address.
  ghost predicate DistinctHa(cache: Cache) {
    && (forall id :: id in cache.ha ==> cache.ha[id].roles.ha)
    && (forall x, y :: x in cache.ha && y in cache.ha && Address(cache.ha[x]) == Address(cache.ha[y]) ==> x == y)
  }

  lemma NoAddressTwice(cache: Cache, now: real)
    requires DistinctHa(cache)
    ensures var ips := Addresses(cache, HA, Whatever, now);
      forall i, j :: 0 <= i < j < |ips| ==> ips[i] != ips[j]
  {
    hide Addresses;
    var ips := Addresses(cache, HA, Whatever, now);
    forall i, j | 0 <= i < j < |ips| ensures ips[i] != ips[j] {
      AddressesAreExact(cache, HA, Whatever, now, ips[i]);
      AtMostOne(QualifyingWith(cache.ha, cache.ha.Keys, HA, Whatever, now, ips[i]));
      CountsTwice(ips, i, j);
    }
  }

  lemma AtMostOne(ids: set<string>)
    requires forall x, y :: x in ids && y in ids ==> x == y
    ensures |ids| <= 1
  {
    if ids != {} {
      var x :| x in ids;
      assert ids == {x};
    }
  }

  ghost predicate Held(cache: Cache, now: real, p: int) {
    exists id :: id in cache.ha && Priority(cache, now, cache.ha[id]) == p
  }

  // In one cache state the HA agents' priorities are exactly 100 to 100 + n - 1.
  lemma PrioritiesAreExact(cache: Cache, now: real)
    requires DistinctHa(cache)
    ensures forall p: int :: Held(cache, now, p) <==> BASE_PRIORITY <= p < BASE_PRIORITY + |cache.ha|
  {
    hide Addresses, Address;
    var ips := Addresses(cache, HA, Whatever, now);
    assert cache.At(HA) == cache.ha;
    AddressesOfAll(cache, HA, now);
    forall p: int ensures Held(cache, now, p) <==> BASE_PRIORITY <= p < BASE_PRIORITY + |cache.ha| {
      if BASE_PRIORITY <= p < BASE_PRIORITY + |cache.ha| {
        var ip := ips[p - BASE_PRIORITY];
        AddressHasOwner(cache, HA, now, ip);
        var id :| id in cache.ha && Address(cache.ha[id]) == ip;
        NoAddressTwice(cache, now);
        assert ips[IndexOf(ip, ips)] == ip;
        assert Priority(cache, now, cache.ha[id]) == p;
      }
    }
  }

  // They are ordered as the addresses, so no two agents have the same.
  lemma PrioritiesFollowAddresses(cache: Cache, now: real, x: string, y: string)
    requires DistinctHa(cache) && x in cache.ha && y in cache.ha
    ensures Priority(cache, now, cache.ha[x]) < Priority(cache, now, cache.ha[y])
       <==> Text.Less(Address(cache.ha[x]), Address(cache.ha[y]))
    ensures Priority(cache, now, cache.ha[x]) == Priority(cache, now, cache.ha[y]) <==> x == y
  {
    hide Addresses, Address, Text.Less;
    assert cache.At(HA) == cache.ha;
    AddressesOfAll(cache, HA, now);
    AddressesAreExact(cache, HA, Whatever, now, "");
    OrderedAlike(Addresses(cache, HA, Whatever, now), Address(cache.ha[x]), Address(cache.ha[y]));
  }

  // They lie in the range that section 5.2.4 of RFC 5798 gives to backup routers exactly when there are at most 155.
  lemma BackupRangeExactlyWhen(cache: Cache, now: real)
    requires DistinctHa(cache)
    ensures (forall p: int :: Held(cache, now, p) ==> 1 <= p <= 254) <==> |cache.ha| <= 155
  {
    hide Held;
    PrioritiesAreExact(cache, now);
    assert |cache.ha| > 155 ==> Held(cache, now, 255);
  }

  lemma OrderedAlike(ips: seq<string>, a: string, b: string)
    requires Text.Sorted(ips) && a in ips && b in ips
    ensures IndexOf(a, ips) < IndexOf(b, ips) <==> Text.Less(a, b)
  {
    hide Text.Less;
    var i, j := IndexOf(a, ips), IndexOf(b, ips);
    Text.LessIsTotal(a, b);
    assert ips[i] == a && ips[j] == b;
  }

  // The priority an HA job carries is that number, written in decimals.
  lemma HaJobCarriesPriority(cfg: ClusterSettings, cache: Cache, agent: Agent, now: real, failing: set<nat>)
    requires NextJob(cfg, agent, Survey(cache, now), failing).job.name == Deploy(HA)
    ensures cfg.ha.Some?
    ensures NextJob(cfg, agent, Survey(cache, now), failing).job.args
        == HaJobArguments(cfg.ha.value, agent, Survey(cache, now))
  {
    hide Survey, Addresses, Text.Digits, Text.Join, EtcdCheck, MasterCheck, MinionCheck;
    var facts := Survey(cache, now);
    var checks := AskAll(cfg, agent, facts, failing);
    var i := Decisive(checks);
    assert i < |STRATEGIES| ==> checks[i] == CanDeploy(STRATEGIES[i], cfg, agent, facts, failing);
    assert i == 2;
  }

  // The priority in an HA job reads back as that number, and within the backup range it is its three digits.
  lemma PriorityReadsBack(cfg: ClusterSettings, cache: Cache, agent: Agent, now: real, failing: set<nat>)
    requires NextJob(cfg, agent, Survey(cache, now), failing).job.name == Deploy(HA)
    ensures NextJob(cfg, agent, Survey(cache, now), failing).job.args.HaArguments?
    ensures var args := NextJob(cfg, agent, Survey(cache, now), failing).job.args; var p := Priority(cache, now, agent);
      && Text.Value(args.priority) == p
      && (100 <= p <= 254 ==> args.priority == Text.InDigits(p))
  {
    hide NextJob, Addresses, Text.Digits, Text.Join, Address, CountProvisioned, Text.Value;
    HaJobCarriesPriority(cfg, cache, agent, now, failing);
    var p := Priority(cache, now, agent);
    Text.DigitsReadBack(p);
    if 100 <= p <= 254 { Text.ThreeDigits(p); }
  }

  // ---------- what the jobs carry ----------

  lemma MastersAreThere(cfg: ClusterSettings, cache: Cache, agent: Agent, now: real, failing: set<nat>)
    requires NextJob(cfg, agent, Survey(cache, now), failing).job.name in {Deploy(HA), Deploy(Minion)}
    ensures cache.master != map[]
  {
    hide NextJob, Addresses;
    if agent.state.Some? { DispatchedExactlyWhen(cfg, agent, Survey(cache, now), failing); }
    OfflineGetsNothing(cfg, agent, Survey(cache, now), failing);
    assert ProvisionedIds(cache, Master) != {};
    var id :| id in ProvisionedIds(cache, Master);
    assert id in cache.At(Master);
  }

  lemma OfflineGetsNothing(cfg: ClusterSettings, agent: Agent, facts: Facts, failing: set<nat>)
    ensures agent.state.None? ==> NextJob(cfg, agent, facts, failing).job.name == Nop
  {
  }

  // An HA job lists the addresses of all masters for the load balancer and of all HA agents for keepalived, and carries
  // the virtual address and the router id of the cluster, or 40 when it sets none.
  lemma HaJobLists(cfg: ClusterSettings, cache: Cache, agent: Agent, now: real, failing: set<nat>)
    requires NextJob(cfg, agent, Survey(cache, now), failing).job.name == Deploy(HA) && cache.ha != map[]
    requires Listable(cache.ha, HA) && Listable(cache.master, Master)
    ensures var args := NextJob(cfg, agent, Survey(cache, now), failing).job.args;
      && cfg.ha.Some? && args.HaArguments?
      && Text.Split(args.haAddresses, ',') == Addresses(cache, HA, Whatever, now)
      && Text.Split(args.masterAddresses, ',') == Addresses(cache, Master, Whatever, now)
      && args.masterAddresses != "" && args.vip == cfg.ha.value.vip && args.state == "BACKUP"
      && args.routerId == if cfg.ha.value.routerId == "" then "40" else cfg.ha.value.routerId
    ensures var args := NextJob(cfg, agent, Survey(cache, now), failing).job.args;
      && (forall ip :: ip in Text.Split(args.haAddresses, ',') <==>
           exists id :: id in cache.ha && cache.ha[id].state.value.lastReportIP == ip)
      && (forall ip :: ip in Text.Split(args.masterAddresses, ',') <==>
           exists id :: id in cache.master && cache.master[id].state.value.lastReportIP == ip)
  {
    hide NextJob, Addresses, Text.Digits, Text.Join, Text.Split, CountProvisioned;
    assert cache.At(HA) == cache.ha && cache.At(Master) == cache.master;
    HaJobCarriesPriority(cfg, cache, agent, now, failing);
    MastersAreThere(cfg, cache, agent, now, failing);
    AddressesSplitBack(cache, HA, now);
    AddressesSplitBack(cache, Master, now);
    OwnersAreListed(cache, HA, cache.ha, now);
    OwnersAreListed(cache, Master, cache.master, now);
  }

  lemma OwnersAreListed(cache: Cache, slot: Slot, m: map<string, Agent>, now: real)
    requires m == cache.At(slot) && Listable(m, slot)
    ensures forall ip :: ip in Addresses(cache, slot, Whatever, now) <==>
        exists id :: id in m && m[id].state.value.lastReportIP == ip
  {
    hide Addresses;
    forall ip
      ensures ip in Addresses(cache, slot, Whatever, now) <==>
          exists id :: id in m && m[id].state.value.lastReportIP == ip
    {
      ListedExactlyWhen(cache, m, slot, Whatever, now, ip);
      if id :| id in m && m[id].state.value.lastReportIP == ip { assert Address(m[id]) == ip; }
    }
  }

  // A master that can be joined.
  ghost predicate Ready(agent: Agent, now: real, ip: string) {
    agent.roles.master && RunsAt(agent, now, ip) && agent.state.value.provisionedMaster
  }

  // A minion job lists the addresses of the running masters that are provisioned, and carries the virtual address of a
  // cluster with HA settings.
  lemma MinionJobLists(cfg: ClusterSettings, cache: Cache, agent: Agent, now: real, failing: set<nat>)
    requires NextJob(cfg, agent, Survey(cache, now), failing).job.name == Deploy(Minion)
    requires Listable(cache.master, Master)
    ensures var args := NextJob(cfg, agent, Survey(cache, now), failing).job.args;
      && args.MinionArguments? && args.haAddress == (if cfg.ha.Some? then cfg.ha.value.vip else "")
      && (args.addresses == "" <==> forall id, ip :: id in cache.master ==> !Ready(cache.master[id], now, ip))
      && (args.addresses != "" ==> forall ip :: ip in Text.Split(args.addresses, ',') <==>
           exists id :: id in cache.master && Ready(cache.master[id], now, ip))
  {
    hide NextJob, Addresses, Text.Join, Text.Split, CountProvisioned;
    assert cache.At(Master) == cache.master;
    MinionArgumentsAre(cfg, agent, Survey(cache, now), failing);
    var ips := Addresses(cache, Master, Provisioned, now);
    forall ip ensures ip in ips <==> exists id :: id in cache.master && Ready(cache.master[id], now, ip) {
      ProvisionedAreListed(cache, now, ip);
      if id :| id in cache.master && Ready(cache.master[id], now, ip) {
        var a := cache.master[id];
        assert a.roles.master && RunsAt(a, now, ip) && a.state.value.provisionedMaster;
      }
    }
    if ips == [] {
      JoinOfNone(ips);
      forall id, ip | id in cache.master ensures !Ready(cache.master[id], now, ip) {
        assert ip !in ips;
      }
    } else {
      assert ips[0] in ips;
      ListSplitsBack(cache, Master, Provisioned, now);
    }
  }

  lemma MinionArgumentsAre(cfg: ClusterSettings, agent: Agent, facts: Facts, failing: set<nat>)
    requires NextJob(cfg, agent, facts, failing).job.name == Deploy(Minion)
    ensures NextJob(cfg, agent, facts, failing).job.args
         == MinionArguments(Text.Join(facts.readyMasterIps, ','), if cfg.ha.Some? then cfg.ha.value.vip else "")
  {
    hide Text.Digits, Text.Join, EtcdCheck, MasterCheck, HaCheck;
    var checks := AskAll(cfg, agent, facts, failing);
    var i := Decisive(checks);
    assert i < |STRATEGIES| ==> checks[i] == CanDeploy(STRATEGIES[i], cfg, agent, facts, failing);
    assert i == 3;
  }

  // The master whose address a minion hands to its kubelet: the virtual address comes first. Without any address it
  // refuses the job.
  function MasterToJoin(args: Arguments): Option<string>
    requires args.MinionArguments?
  {
    if args.haAddress != "" then Some(args.haAddress)
    else if args.addresses != "" then Some(Text.Split(args.addresses, ',')[0]) else None
  }

  ghost predicate SomeReady(cache: Cache, now: real, ip: string) {
    exists id :: id in cache.master && Ready(cache.master[id], now, ip)
  }

  // A minion joins the virtual address of the cluster if there is one, and otherwise the running provisioned master
  // whose address comes first; it refuses its job exactly when there is neither.
  lemma MinionJoinsReadyMaster(cfg: ClusterSettings, cache: Cache, agent: Agent, now: real, failing: set<nat>)
    requires NextJob(cfg, agent, Survey(cache, now), failing).job.name == Deploy(Minion)
    requires Listable(cache.master, Master)
    ensures NextJob(cfg, agent, Survey(cache, now), failing).job.args.MinionArguments?
    ensures var join := MasterToJoin(NextJob(cfg, agent, Survey(cache, now), failing).job.args);
      if cfg.ha.Some? && cfg.ha.value.vip != "" then join == Some(cfg.ha.value.vip)
      else if join.None? then forall ip :: !SomeReady(cache, now, ip)
      else SomeReady(cache, now, join.value) && forall ip :: SomeReady(cache, now, ip) ==> !Text.Less(ip, join.value)
  {
    hide NextJob, Addresses, Text.Split, CountProvisioned, Ready, Text.Less, Text.Join;
    MinionJobLists(cfg, cache, agent, now, failing);
    var args := NextJob(cfg, agent, Survey(cache, now), failing).job.args;
    if args.addresses != "" {
      var servers := Text.Split(args.addresses, ',');
      assert servers[0] in servers;
      MinionListIsSorted(cfg, cache, agent, now, failing);
      Text.LessIsTotal(servers[0], servers[0]);
      forall ip | SomeReady(cache, now, ip) ensures !Text.Less(ip, servers[0]) {
        assert ip in servers;
      }
    }
  }

  lemma MinionListIsSorted(cfg: ClusterSettings, cache: Cache, agent: Agent, now: real, failing: set<nat>)
    requires NextJob(cfg, agent, Survey(cache, now), failing).job.name == Deploy(Minion)
    requires Listable(cache.master, Master)
    ensures var args := NextJob(cfg, agent, Survey(cache, now), failing).job.args;
      args.MinionArguments? && (args.addresses != "" ==> Text.Sorted(Text.Split(args.addresses, ',')))
  {
    hide NextJob, Addresses, Text.Split, CountProvisioned, Text.Less, Text.Join;
    MinionArgumentsAre(cfg, agent, Survey(cache, now), failing);
    var ips := Addresses(cache, Master, Provisioned, now);
    AddressesAreExact(cache, Master, Provisioned, now, "");
    if ips == [] { JoinOfNone(ips); } else { ListSplitsBack(cache, Master, Provisioned, now); }
  }

  // ---------- keepalived peers ----------

  const INDENT := "        "

  // Everyone in the list but the agent itself.
  function Peers(ips: seq<string>, own: string): seq<string> {
    if ips == [] then []
    else (if ips[0] != own then [ips[0]] else []) + Peers(ips[1..], own)
  }

  // The peer block of the configuration: a line per peer, with a line break after all but the last address.
  function PeerBlock(ips: seq<string>, own: string): string {
    if ips == [] then ""
    else (if ips[0] != own then INDENT + ips[0] + (if |ips| > 1 then "\n" else "") else "") + PeerBlock(ips[1..], own)
  }

  method WritePeers(ips: seq<string>, own: string) returns (block: string)
    ensures block == PeerBlock(ips, own)
  {
    block := "";
    for i := 0 to |ips|
      invariant PeerBlock(ips, own) == block + PeerBlock(ips[i..], own)
    {
      assert ips[i..][0] == ips[i] && ips[i..][1..] == ips[i + 1..];
      if ips[i] != own {
        block := block + (INDENT + ips[i]);
        if i + 1 < |ips| {
          block := block + "\n";
        }
      }
    }
  }

  function Lines(peers: seq<string>): seq<string> {
    seq(|peers|, i requires 0 <= i < |peers| => "        " + peers[i])
  }

  // The non-empty lines of the block are the peers, one each.
  lemma {:induction false} BlockListsPeers(ips: seq<string>, own: string)
    requires forall ip :: ip in ips ==> '\n' !in ip
    ensures Text.Fields(PeerBlock(ips, own), '\n') == Lines(Peers(ips, own))
  {
    if ips != [] {
      BlockListsPeers(ips[1..], own);
      if ips[0] != own {
        var line, rest := INDENT + ips[0], PeerBlock(ips[1..], own);
        assert Lines(Peers(ips, own)) == [line] + Lines(Peers(ips[1..], own));
        assert ips[0] in ips && '\n' !in INDENT;
        FieldsOfLine(line, rest, |ips| > 1);
      } else {
        assert PeerBlock(ips, own) == PeerBlock(ips[1..], own);
      }
    }
  }

  lemma FieldsOfLine(line: string, rest: string, more: bool)
    requires line != "" && '\n' !in line && (!more ==> rest == "")
    ensures Text.Fields(line + (if more then "\n" else "") + rest, '\n') == [line] + Text.Fields(rest, '\n')
  {
    var tail := (if more then "\n" else "") + rest;
    Text.FieldsReadRun(line, tail, '\n', "");
    assert line + (if more then "\n" else "") + rest == line + tail;
    assert "" + line == line;
    assert more ==> tail[1..] == rest;
  }

  // No agent is its own peer, and of two agents on the list each is a peer of the other.
  lemma {:induction false} PeersAreMutual(ips: seq<string>, own: string, other: string)
    ensures own !in Peers(ips, own)
    ensures other in Peers(ips, own) <==> other in ips && other != own
    ensures own in ips && other in ips ==> (other in Peers(ips, own) <==> own in Peers(ips, other))
  {
    PeersOf(ips, own, own);
    PeersOf(ips, own, other);
    PeersOf(ips, other, own);
  }

  lemma {:induction false} PeersOf(ips: seq<string>, own: string, other: string)
    ensures other in Peers(ips, own) <==> other in ips && other != own
  {
    if ips != [] {
      PeersOf(ips[1..], own, other);
    }
  }

  // The HA agents that are given their jobs from one cache state, each under its reported address, take each other for
  // peers and nobody else.
  lemma HaPeersAreTheOthers(cfg: ClusterSettings, cache: Cache, now: real, failing: set<nat>, x: string)
    requires Listable(cache.ha, HA) && Listable(cache.master, Master) && DistinctHa(cache) && x in cache.ha
    requires NextJob(cfg, cache.ha[x], Survey(cache, now), failing).job.name == Deploy(HA)
    ensures NextJob(cfg, cache.ha[x], Survey(cache, now), failing).job.args.HaArguments?
    ensures var ips := Text.Split(NextJob(cfg, cache.ha[x], Survey(cache, now), failing).job.args.haAddresses, ',');
      var peers := Peers(ips, cache.ha[x].state.value.lastReportIP);
      forall ip :: ip in peers <==> exists y :: y in cache.ha && y != x && cache.ha[y].state.value.lastReportIP == ip
  {
    hide NextJob, Text.Split, Text.Join, Addresses, Peers, CountProvisioned;
    HaJobLists(cfg, cache, cache.ha[x], now, failing);
    var ips := Text.Split(NextJob(cfg, cache.ha[x], Survey(cache, now), failing).job.args.haAddresses, ',');
    var own := cache.ha[x].state.value.lastReportIP;
    forall ip
      ensures ip in Peers(ips, own) <==>
          exists y :: y in cache.ha && y != x && cache.ha[y].state.value.lastReportIP == ip
    {
      PeersOf(ips, own, ip);
      if ip in ips && ip != own {
        var y :| y in cache.ha && cache.ha[y].state.value.lastReportIP == ip;
        assert y != x;
      }
      if y :| y in cache.ha && y != x && cache.ha[y].state.value.lastReportIP == ip {
        assert Address(cache.ha[y]) == ip && Address(cache.ha[x]) == own;
      }
    }
  }
}

/**
  The hot cache of online agents (pkg/cache/cache.go): one collection per role and a
  pool. First its content as a value and what it refines, then the class itself.
 */
module Caching {
  import opened Entities
  import Text

  // ---------- the content of the five collections ----------

  datatype Cache = Cache(
    etcd: map<string, Agent>,
    master: map<string, Agent>,
    minion: map<string, Agent>,
    ha: map<string, Agent>,
    pool: map<string, Agent>)
  {
    function At(slot: Slot): map<string, Agent> {
      match slot
      case ETCD => etcd
      case Master => master
      case Minion => minion
      case HA => ha
      case Pool => pool
    }

    // The first collection that knows the id answers.
    function Lookup(id: string): Option<Agent> {
      if id in etcd then Some(etcd[id])
      else if id in master then Some(master[id])
      else if id in minion then Some(minion[id])
      else if id in ha then Some(ha[id])
      else if id in pool then Some(pool[id])
      else None
    }
  }

  const EMPTY_CACHE := Cache(map[], map[], map[], map[], map[])

  function Place(m: map<string, Agent>, agent: Agent, slot: Slot): map<string, Agent> {
    if agent.roles.In(slot) then m[agent.id := agent] else m
  }

  function Displace(m: map<string, Agent>, agent: Agent, slot: Slot): map<string, Agent> {
    if agent.roles.In(slot) then m - {agent.id} else m
  }

  // The cache after an agent came online or went offline.
  function Admit(c: Cache, agent: Agent): Cache {
    Cache(Place(c.etcd, agent, ETCD), Place(c.master, agent, Master), Place(c.minion, agent, Minion),
          Place(c.ha, agent, HA), Place(c.pool, agent, Pool))
  }

  function Evict(c: Cache, agent: Agent): Cache {
    Cache(Displace(c.etcd, agent, ETCD), Displace(c.master, agent, Master), Displace(c.minion, agent, Minion),
          Displace(c.ha, agent, HA), Displace(c.pool, agent, Pool))
  }

  // An agent is filed in the collection of each role it has, and in the pool when it has none; nothing else changes.
  lemma AdmittedByRole(c: Cache, agent: Agent)
    ensures var r, next := agent.roles, Admit(c, agent);
      && next.etcd == (if r.etcd then c.etcd[agent.id := agent] else c.etcd)
      && next.master == (if r.master then c.master[agent.id := agent] else c.master)
      && next.minion == (if r.minion then c.minion[agent.id := agent] else c.minion)
      && next.ha == (if r.ha then c.ha[agent.id := agent] else c.ha)
      && next.pool == if r.etcd || r.master || r.minion || r.ha then c.pool else c.pool[agent.id := agent]
  {
  }

  lemma EvictedByRole(c: Cache, agent: Agent)
    ensures var r, next := agent.roles, Evict(c, agent);
      && next.etcd == (if r.etcd then c.etcd - {agent.id} else c.etcd)
      && next.master == (if r.master then c.master - {agent.id} else c.master)
      && next.minion == (if r.minion then c.minion - {agent.id} else c.minion)
      && next.ha == (if r.ha then c.ha - {agent.id} else c.ha)
      && next.pool == if r.etcd || r.master || r.minion || r.ha then c.pool else c.pool - {agent.id}
  {
  }

  // ---------- five collections refine one map ----------

  function Slice(one: map<string, Agent>, slot: Slot): map<string, Agent> {
    map id | id in one && one[id].roles.In(slot) :: one[id]
  }

  function Project(one: map<string, Agent>): Cache {
    Cache(Slice(one, ETCD), Slice(one, Master), Slice(one, Minion), Slice(one, HA), Slice(one, Pool))
  }

  function Get(m: map<string, Agent>, id: string): Option<Agent> {
    if id in m then Some(m[id]) else None
  }

  // For this id the five collections are the projections of what a lookup answers.
  ghost predicate CoherentAt(c: Cache, id: string) {
    forall slot: Slot ::
      Get(c.At(slot), id) == if c.Lookup(id).Some? && c.Lookup(id).value.roles.In(slot) then c.Lookup(id) else None
  }

  lemma SomeSlot(roles: Roles) returns (slot: Slot)
    ensures roles.In(slot)
  {
    if roles.etcd { slot := ETCD; }
    else if roles.master { slot := Master; }
    else if roles.minion { slot := Minion; }
    else if roles.ha { slot := HA; }
    else { slot := Pool; }
  }

  // The five-way lookup of a projection is one lookup.
  lemma ProjectionLooksUp(one: map<string, Agent>, id: string)
    ensures Project(one).Lookup(id) == Get(one, id) && CoherentAt(Project(one), id)
  {
    var c := Project(one);
    assert forall slot: Slot :: c.At(slot) == Slice(one, slot);
    if id in one {
      var slot := SomeSlot(one[id].roles);
      assert id in c.At(slot);
    }
  }

  lemma CoherentIsProjection(c: Cache, one: map<string, Agent>)
    requires forall id :: CoherentAt(c, id) && c.Lookup(id) == Get(one, id)
    ensures c == Project(one)
  {
    var p := Project(one);
    forall slot: Slot ensures c.At(slot) == p.At(slot) {
      assert p.At(slot) == Slice(one, slot);
      forall id ensures id in c.At(slot) <==> id in p.At(slot)
                ensures id in c.At(slot) ==> c.At(slot)[id] == p.At(slot)[id]
      {
        assert CoherentAt(c, id);
        assert Get(c.At(slot), id) == Get(Slice(one, slot), id);
      }
    }
    assert c.At(ETCD) == p.At(ETCD) && c.At(Master) == p.At(Master) && c.At(Minion) == p.At(Minion);
    assert c.At(HA) == p.At(HA) && c.At(Pool) == p.At(Pool);
  }

  // Every collection the old record was in is one the new record is in.
  predicate Covers(old_: Roles, new_: Roles) {
    && (old_.In(ETCD) ==> new_.In(ETCD)) && (old_.In(Master) ==> new_.In(Master))
    && (old_.In(Minion) ==> new_.In(Minion)) && (old_.In(HA) ==> new_.In(HA))
    && (old_.In(Pool) ==> new_.In(Pool))
  }

  lemma PlaceRefines(one: map<string, Agent>, agent: Agent, slot: Slot)
    ensures Place(Slice(one, slot), agent, slot) == Slice(one[agent.id := agent], slot)
       <==> (agent.id in one && one[agent.id].roles.In(slot) ==> agent.roles.In(slot))
  {
    var left, right := Place(Slice(one, slot), agent, slot), Slice(one[agent.id := agent], slot);
    assert agent.id in right <==> agent.roles.In(slot);
    if agent.id in one && one[agent.id].roles.In(slot) && !agent.roles.In(slot) {
      assert agent.id in left;
    }
  }

  lemma DisplaceRefines(one: map<string, Agent>, agent: Agent, slot: Slot)
    ensures Displace(Slice(one, slot), agent, slot) == Slice(one - {agent.id}, slot)
       <==> (agent.id in one && one[agent.id].roles.In(slot) ==> agent.roles.In(slot))
  {
    var left, right := Displace(Slice(one, slot), agent, slot), Slice(one - {agent.id}, slot);
    assert agent.id !in right;
    if agent.id in one && one[agent.id].roles.In(slot) && !agent.roles.In(slot) {
      assert agent.id in left;
    }
  }

  // Online and Offline act as one update of one map exactly when the roles cover those cached for that id:
  // otherwise a stale record stays behind in a collection the new roles do not reach.
  lemma OneUpdateIff(one: map<string, Agent>, agent: Agent)
    ensures Admit(Project(one), agent) == Project(one[agent.id := agent])
       <==> (agent.id in one ==> Covers(one[agent.id].roles, agent.roles))
    ensures Evict(Project(one), agent) == Project(one - {agent.id})
       <==> (agent.id in one ==> Covers(one[agent.id].roles, agent.roles))
  {
    PlaceRefines(one, agent, ETCD); DisplaceRefines(one, agent, ETCD);
    PlaceRefines(one, agent, Master); DisplaceRefines(one, agent, Master);
    PlaceRefines(one, agent, Minion); DisplaceRefines(one, agent, Minion);
    PlaceRefines(one, agent, HA); DisplaceRefines(one, agent, HA);
    PlaceRefines(one, agent, Pool); DisplaceRefines(one, agent, Pool);
  }

  datatype Change = CameOnline(agent: Agent) | WentOffline(agent: Agent)

  function Replay(c: Cache, changes: seq<Change>): Cache
    decreases |changes|
  {
    if changes == [] then c
    else match changes[0]
      case CameOnline(a) => Replay(Admit(c, a), changes[1..])
      case WentOffline(a) => Replay(Evict(c, a), changes[1..])
  }

  function ReplayOne(one: map<string, Agent>, changes: seq<Change>): map<string, Agent>
    decreases |changes|
  {
    if changes == [] then one
    else match changes[0]
      case CameOnline(a) => ReplayOne(one[a.id := a], changes[1..])
      case WentOffline(a) => ReplayOne(one - {a.id}, changes[1..])
  }

  ghost predicate FixedRoles(rolesOf: string -> Roles, one: map<string, Agent>, changes: seq<Change>) {
    && (forall id :: id in one ==> one[id].roles == rolesOf(id))
    && (forall i :: 0 <= i < |changes| ==> changes[i].agent.roles == rolesOf(changes[i].agent.id))
  }

  // While the roles of every id stay fixed, the five collections are at all times projections of one map.
  lemma {:induction false} FiveMapsRefineOne(rolesOf: string -> Roles, one: map<string, Agent>, changes: seq<Change>)
    requires FixedRoles(rolesOf, one, changes)
    ensures Replay(Project(one), changes) == Project(ReplayOne(one, changes))
    decreases |changes|
  {
    if changes != [] {
      var a := changes[0].agent;
      OneUpdateIff(one, a);
      assert a.id in one ==> one[a.id].roles == a.roles;
      var next := if changes[0].CameOnline? then one[a.id := a] else one - {a.id};
      FiveMapsRefineOne(rolesOf, next, changes[1..]);
    }
  }

  // ---------- counts and addresses ----------

  ghost function ProvisionedIds(c: Cache, slot: Slot): set<string> {
    set id | id in c.At(slot) && c.At(slot)[id].HasProvisioned(slot)
  }

  ghost function CountProvisioned(c: Cache, slot: Slot): nat {
    |ProvisionedIds(c, slot)|
  }

  datatype StatusFlag = Whatever | Running | Provisioned

  // Which records of a role's collection are listed. A minion is never asked whether it is provisioned.
  predicate Qualifies(agent: Agent, slot: Slot, flag: StatusFlag, now: real) {
    && agent.roles.In(slot)
    && (flag == Running ==> agent.IsRunning(now))
    && (flag == Provisioned && slot != Minion ==> agent.IsRunning(now) && agent.HasProvisioned(slot))
  }

  predicate AllOnline(m: map<string, Agent>) {
    forall id :: id in m ==> m[id].state.Some?
  }

  // A missing state has no address to list; AllOnline says there is none.
  function Address(agent: Agent): string {
    if agent.state.Some? then agent.state.value.lastReportIP else ""
  }

  ghost predicate Enumerates(order: seq<string>, ids: set<string>) {
    multiset(order) == multiset(ids)
  }

  ghost function SomeOrder(ids: set<string>): (order: seq<string>)
    ensures Enumerates(order, ids)
  {
    if ids == {} then []
    else
      var id :| id in ids;
      assert multiset(ids) == multiset(ids - {id}) + multiset{id};
      [id] + SomeOrder(ids - {id})
  }

  // The addresses met while walking the collection in the given order.
  function Collect(m: map<string, Agent>, order: seq<string>, slot: Slot, flag: StatusFlag, now: real): seq<string>
    requires forall id :: id in order ==> id in m
  {
    if order == [] then []
    else
      var rest := Collect(m, order[1..], slot, flag, now);
      if Qualifies(m[order[0]], slot, flag, now) then [Address(m[order[0]])] + rest else rest
  }

  ghost function Addresses(c: Cache, slot: Slot, flag: StatusFlag, now: real): seq<string> {
    var m := c.At(slot);
    var order := SomeOrder(m.Keys);
    EnumeratesKeys(order, m);
    Text.Sort(Collect(m, order, slot, flag, now))
  }

  lemma EnumeratesKeys(order: seq<string>, m: map<string, Agent>)
    requires Enumerates(order, m.Keys)
    ensures forall id :: id in order <==> id in m
    ensures |order| == |m|
  {
    forall id ensures id in order <==> id in m {
      assert id in order <==> id in multiset(order);
      assert id in multiset(m.Keys) <==> id in m.Keys;
    }
    assert |order| == |multiset(order)| == |multiset(m.Keys)| == |m|;
  }

  ghost function QualifyingWith(m: map<string, Agent>, ids: set<string>, slot: Slot, flag: StatusFlag, now: real,
                                ip: string): set<string> {
    set id | id in ids && id in m && Qualifies(m[id], slot, flag, now) && Address(m[id]) == ip
  }

  lemma EnumeratesTail(order: seq<string>, ids: set<string>)
    requires Enumerates(order, ids) && order != []
    ensures order[0] in ids && Enumerates(order[1..], ids - {order[0]})
  {
    var id, rest := order[0], order[1..];
    assert order == [id] + rest;
    assert id in multiset(order);
    assert multiset(rest) == multiset(order) - multiset{id};
    assert multiset(ids) - multiset{id} == multiset(ids - {id});
  }

  lemma EnumeratesNothing(ids: set<string>)
    requires Enumerates([], ids)
    ensures ids == {}
  {
    var none: seq<string> := [];
    assert |ids| == |multiset(ids)| == |multiset(none)| == 0;
  }

  lemma CountsTwice(order: seq<string>, i: nat, j: nat)
    requires i < j < |order|
    ensures order[i] == order[j] ==> multiset(order)[order[i]] >= 2
  {
    assert order == order[..j] + [order[j]] + order[j + 1..];
    assert order[i] == order[..j][i];
    assert order[i] in multiset(order[..j]);
  }

  lemma QualifyingSplits(m: map<string, Agent>, ids: set<string>, id: string, slot: Slot, flag: StatusFlag, now: real,
                         ip: string)
    requires id in ids && id in m
    ensures |QualifyingWith(m, ids, slot, flag, now, ip)| == |QualifyingWith(m, ids - {id}, slot, flag, now, ip)|
              + if Qualifies(m[id], slot, flag, now) && Address(m[id]) == ip then 1 else 0
  {
    hide Qualifies, Address;
    var all, fewer := QualifyingWith(m, ids, slot, flag, now, ip), QualifyingWith(m, ids - {id}, slot, flag, now, ip);
    if Qualifies(m[id], slot, flag, now) && Address(m[id]) == ip {
      assert all == fewer + {id};
    } else {
      assert all == fewer;
    }
  }

  // However the collection is walked, each address is collected once per qualifying agent that has it.
  lemma {:induction false} CollectCounts(m: map<string, Agent>, order: seq<string>, ids: set<string>, slot: Slot,
                                         flag: StatusFlag, now: real, ip: string)
    requires Enumerates(order, ids)
    requires forall id :: id in order ==> id in m
    ensures multiset(Collect(m, order, slot, flag, now))[ip] == |QualifyingWith(m, ids, slot, flag, now, ip)|
    decreases |order|
  {
    if order == [] {
      EnumeratesNothing(ids);
      assert QualifyingWith(m, ids, slot, flag, now, ip) == {};
    } else {
      var id := order[0];
      EnumeratesTail(order, ids);
      CollectCounts(m, order[1..], ids - {id}, slot, flag, now, ip);
      QualifyingSplits(m, ids, id, slot, flag, now, ip);
    }
  }

  lemma EnumeratesMore(order: seq<string>, ids: set<string>, id: string)
    requires Enumerates(order, ids) && id !in ids
    ensures Enumerates(order + [id], ids + {id})
  {
    assert multiset(ids + {id}) == multiset(ids) + multiset{id};
  }

  // The list holds exactly the addresses of the qualifying agents, each as often as they have it.
  lemma AddressesAreExact(c: Cache, slot: Slot, flag: StatusFlag, now: real, ip: string)
    ensures multiset(Addresses(c, slot, flag, now))[ip]
        == |QualifyingWith(c.At(slot), c.At(slot).Keys, slot, flag, now, ip)|
    ensures Text.Sorted(Addresses(c, slot, flag, now))
  {
    var m := c.At(slot);
    var order := SomeOrder(m.Keys);
    EnumeratesKeys(order, m);
    CollectCounts(m, order, m.Keys, slot, flag, now, ip);
    Text.SortSorts(Collect(m, order, slot, flag, now));
  }

  lemma ListedExactlyWhen(c: Cache, m: map<string, Agent>, slot: Slot, flag: StatusFlag, now: real, ip: string)
    requires m == c.At(slot)
    ensures ip in Addresses(c, slot, flag, now) <==>
        exists id :: id in m && Qualifies(m[id], slot, flag, now) && Address(m[id]) == ip
  {
    hide Addresses, Qualifies, Address;
    AddressesAreExact(c, slot, flag, now, ip);
    var owners := QualifyingWith(m, m.Keys, slot, flag, now, ip);
    assert ip in Addresses(c, slot, flag, now) <==> ip in multiset(Addresses(c, slot, flag, now));
    if owners != {} {
      var id :| id in owners;
      assert id in m && Qualifies(m[id], slot, flag, now) && Address(m[id]) == ip;
    }
    if id :| id in m && Qualifies(m[id], slot, flag, now) && Address(m[id]) == ip {
      assert id in owners;
    }
  }

  // The last report came from this address.
  ghost predicate ReportsFrom(agent: Agent, ip: string) {
    agent.state.Some? && agent.state.value.lastReportIP == ip
  }

  // The last report from this address is at most 30 seconds old.
  ghost predicate RunsAt(agent: Agent, now: real, ip: string) {
    ReportsFrom(agent, ip) && now - agent.state.value.lastReportTime <= 30.0
  }

  // Asked for provisioned agents, the list has the addresses of those that have the role, report from there, are
  // running, and have provisioned that very role. Of minions it has all that have the role.
  lemma ProvisionedAreListed(c: Cache, now: real, ip: string)
    ensures ip in Addresses(c, ETCD, Provisioned, now) <==>
        exists id :: id in c.etcd && var a := c.etcd[id];
          a.roles.etcd && RunsAt(a, now, ip) && a.state.value.provisionedETCD
    ensures ip in Addresses(c, Master, Provisioned, now) <==>
        exists id :: id in c.master && var a := c.master[id];
          a.roles.master && RunsAt(a, now, ip) && a.state.value.provisionedMaster
    ensures ip in Addresses(c, HA, Provisioned, now) <==>
        exists id :: id in c.ha && var a := c.ha[id];
          a.roles.ha && RunsAt(a, now, ip) && a.state.value.provisionedHA
    ensures AllOnline(c.minion) ==> (ip in Addresses(c, Minion, Provisioned, now) <==>
        exists id :: id in c.minion && c.minion[id].roles.minion && ReportsFrom(c.minion[id], ip))
  {
    hide Addresses;
    ListedExactlyWhen(c, c.etcd, ETCD, Provisioned, now, ip);
    ListedExactlyWhen(c, c.master, Master, Provisioned, now, ip);
    ListedExactlyWhen(c, c.ha, HA, Provisioned, now, ip);
    ListedExactlyWhen(c, c.minion, Minion, Provisioned, now, ip);
  }

  // Asked for running agents, it has those of the role that are running, whatever they have provisioned.
  lemma RunningAreListed(c: Cache, now: real, ip: string)
    ensures ip in Addresses(c, ETCD, Running, now) <==>
        exists id :: id in c.etcd && c.etcd[id].roles.etcd && RunsAt(c.etcd[id], now, ip)
    ensures ip in Addresses(c, Master, Running, now) <==>
        exists id :: id in c.master && c.master[id].roles.master && RunsAt(c.master[id], now, ip)
    ensures ip in Addresses(c, Minion, Running, now) <==>
        exists id :: id in c.minion && c.minion[id].roles.minion && RunsAt(c.minion[id], now, ip)
    ensures ip in Addresses(c, HA, Running, now) <==>
        exists id :: id in c.ha && c.ha[id].roles.ha && RunsAt(c.ha[id], now, ip)
  {
    hide Addresses;
    ListedExactlyWhen(c, c.etcd, ETCD, Running, now, ip);
    ListedExactlyWhen(c, c.master, Master, Running, now, ip);
    ListedExactlyWhen(c, c.minion, Minion, Running, now, ip);
    ListedExactlyWhen(c, c.ha, HA, Running, now, ip);
  }

  // Asked for all agents, it has every one of the role, however long ago it reported.
  lemma AllAreListed(c: Cache, now: real, ip: string)
    requires AllOnline(c.etcd) && AllOnline(c.master) && AllOnline(c.minion) && AllOnline(c.ha)
    ensures ip in Addresses(c, ETCD, Whatever, now) <==>
        exists id :: id in c.etcd && c.etcd[id].roles.etcd && ReportsFrom(c.etcd[id], ip)
    ensures ip in Addresses(c, Master, Whatever, now) <==>
        exists id :: id in c.master && c.master[id].roles.master && ReportsFrom(c.master[id], ip)
    ensures ip in Addresses(c, Minion, Whatever, now) <==>
        exists id :: id in c.minion && c.minion[id].roles.minion && ReportsFrom(c.minion[id], ip)
    ensures ip in Addresses(c, HA, Whatever, now) <==>
        exists id :: id in c.ha && c.ha[id].roles.ha && ReportsFrom(c.ha[id], ip)
  {
    hide Addresses;
    ListedExactlyWhen(c, c.etcd, ETCD, Whatever, now, ip);
    ListedExactlyWhen(c, c.master, Master, Whatever, now, ip);
    ListedExactlyWhen(c, c.minion, Minion, Whatever, now, ip);
    ListedExactlyWhen(c, c.ha, HA, Whatever, now, ip);
  }

  // The counts are of the agents of a collection whose own flag for that role is set.
  lemma ProvisionedAreCounted(c: Cache)
    ensures CountProvisioned(c, ETCD)
         == |set id | id in c.etcd && c.etcd[id].state.Some? && c.etcd[id].state.value.provisionedETCD|
    ensures CountProvisioned(c, Master)
         == |set id | id in c.master && c.master[id].state.Some? && c.master[id].state.value.provisionedMaster|
    ensures CountProvisioned(c, Minion)
         == |set id | id in c.minion && c.minion[id].state.Some? && c.minion[id].state.value.provisionedMinion|
    ensures CountProvisioned(c, HA)
         == |set id | id in c.ha && c.ha[id].state.Some? && c.ha[id].state.value.provisionedHA|
  {
    assert ProvisionedIds(c, ETCD)
        == set id | id in c.etcd && c.etcd[id].state.Some? && c.etcd[id].state.value.provisionedETCD;
    assert ProvisionedIds(c, Master)
        == set id | id in c.master && c.master[id].state.Some? && c.master[id].state.value.provisionedMaster;
    assert ProvisionedIds(c, Minion)
        == set id | id in c.minion && c.minion[id].state.Some? && c.minion[id].state.value.provisionedMinion;
    assert ProvisionedIds(c, HA)
        == set id | id in c.ha && c.ha[id].state.Some? && c.ha[id].state.value.provisionedHA;
  }

  // Whatever order the runtime walks the collection in, the sorted list is the same.
  lemma AddressesAreCanonical(c: Cache, order: seq<string>, slot: Slot, flag: StatusFlag, now: real)
    requires Enumerates(order, c.At(slot).Keys)
    requires forall id :: id in order ==> id in c.At(slot)
    ensures Text.Sort(Collect(c.At(slot), order, slot, flag, now)) == Addresses(c, slot, flag, now)
  {
    var m := c.At(slot);
    var other := SomeOrder(m.Keys);
    EnumeratesKeys(other, m);
    var a, b := Collect(m, order, slot, flag, now), Collect(m, other, slot, flag, now);
    forall ip ensures multiset(a)[ip] == multiset(b)[ip] {
      CollectCounts(m, order, m.Keys, slot, flag, now, ip);
      CollectCounts(m, other, m.Keys, slot, flag, now, ip);
    }
    assert multiset(a) == multiset(b);
    Text.SortIsCanonical(a, b);
  }

  lemma {:induction false} CollectAll(m: map<string, Agent>, order: seq<string>, slot: Slot, now: real)
    requires forall id :: id in order ==> id in m && m[id].roles.In(slot)
    ensures |Collect(m, order, slot, Whatever, now)| == |order|
    ensures forall i :: 0 <= i < |order| ==> Collect(m, order, slot, Whatever, now)[i] == Address(m[order[i]])
  {
    if order != [] {
      CollectAll(m, order[1..], slot, now);
    }
  }

  // Without a status condition, a collection that holds only its own role is listed entirely.
  lemma AddressesOfAll(c: Cache, slot: Slot, now: real)
    requires forall id :: id in c.At(slot) ==> c.At(slot)[id].roles.In(slot)
    ensures |Addresses(c, slot, Whatever, now)| == |c.At(slot)|
    ensures forall id :: id in c.At(slot) ==> Address(c.At(slot)[id]) in Addresses(c, slot, Whatever, now)
  {
    var m := c.At(slot);
    var order := SomeOrder(m.Keys);
    EnumeratesKeys(order, m);
    CollectAll(m, order, slot, now);
    var met := Collect(m, order, slot, Whatever, now);
    Text.SortSorts(met);
    forall id | id in m ensures Address(m[id]) in Addresses(c, slot, Whatever, now) {
      assert id in order;
      var i :| 0 <= i < |order| && order[i] == id;
      assert met[i] in multiset(Text.Sort(met));
    }
  }

  // ---------- collections of records ----------

  // The five collections, each filing something under agent ids.
  datatype Collections<T> = Collections(
    etcd: map<string, T>,
    master: map<string, T>,
    minion: map<string, T>,
    ha: map<string, T>,
    pool: map<string, T>)
  {
    function At(slot: Slot): map<string, T> {
      match slot
      case ETCD => etcd
      case Master => master
      case Minion => minion
      case HA => ha
      case Pool => pool
    }

    // What the first collection that knows the id has filed under it.
    function First(id: string): Option<T> {
      if id in etcd then Some(etcd[id])
      else if id in master then Some(master[id])
      else if id in minion then Some(minion[id])
      else if id in ha then Some(ha[id])
      else if id in pool then Some(pool[id])
      else None
    }

    function With(roles: Roles, id: string, x: T): Collections<T> {
      Collections(
        if roles.In(ETCD) then etcd[id := x] else etcd,
        if roles.In(Master) then master[id := x] else master,
        if roles.In(Minion) then minion[id := x] else minion,
        if roles.In(HA) then ha[id := x] else ha,
        if roles.In(Pool) then pool[id := x] else pool)
    }

    function Without(roles: Roles, id: string): Collections<T> {
      Collections(
        if roles.In(ETCD) then etcd - {id} else etcd,
        if roles.In(Master) then master - {id} else master,
        if roles.In(Minion) then minion - {id} else minion,
        if roles.In(HA) then ha - {id} else ha,
        if roles.In(Pool) then pool - {id} else pool)
    }
  }

  // Records are numbered in the order they were made; this is the content of collections that file numbers.
  function Shown(places: Collections<nat>, records: seq<Agent>): Cache {
    Cache(Read(places.etcd, records), Read(places.master, records), Read(places.minion, records),
          Read(places.ha, records), Read(places.pool, records))
  }

  function Read(m: map<string, nat>, records: seq<Agent>): map<string, Agent> {
    map id | id in m && m[id] < |records| :: records[m[id]]
  }

  // Only records that were made are filed, each under its own id.
  ghost predicate FiledRight(m: map<string, nat>, records: seq<Agent>) {
    forall id :: id in m ==> m[id] < |records| && records[m[id]].id == id
  }

  ghost predicate AllFiledRight(places: Collections<nat>, records: seq<Agent>) {
    && FiledRight(places.etcd, records) && FiledRight(places.master, records) && FiledRight(places.minion, records)
    && FiledRight(places.ha, records) && FiledRight(places.pool, records)
  }

  lemma ReadPlaced(m: map<string, nat>, records: seq<Agent>, agent: Agent, slot: Slot)
    requires FiledRight(m, records)
    ensures Place(Read(m, records), agent, slot)
         == Read(if agent.roles.In(slot) then m[agent.id := |records|] else m, records + [agent])
    ensures FiledRight(if agent.roles.In(slot) then m[agent.id := |records|] else m, records + [agent])
  {
  }

  lemma ReadDisplaced(m: map<string, nat>, records: seq<Agent>, agent: Agent, slot: Slot)
    requires FiledRight(m, records)
    ensures Displace(Read(m, records), agent, slot) == Read(if agent.roles.In(slot) then m - {agent.id} else m, records)
    ensures FiledRight(if agent.roles.In(slot) then m - {agent.id} else m, records)
  {
  }

  // Filing one new record in the collections of an agent's roles shows as the agent being admitted.
  lemma WithShows(places: Collections<nat>, records: seq<Agent>, agent: Agent)
    requires AllFiledRight(places, records)
    ensures Shown(places.With(agent.roles, agent.id, |records|), records + [agent])
        == Admit(Shown(places, records), agent)
    ensures AllFiledRight(places.With(agent.roles, agent.id, |records|), records + [agent])
  {
    hide Read, FiledRight, Place;
    ReadPlaced(places.etcd, records, agent, ETCD);
    ReadPlaced(places.master, records, agent, Master);
    ReadPlaced(places.minion, records, agent, Minion);
    ReadPlaced(places.ha, records, agent, HA);
    ReadPlaced(places.pool, records, agent, Pool);
  }

  // Taking the id out of the collections of an agent's roles shows as the agent being evicted.
  lemma WithoutShows(places: Collections<nat>, records: seq<Agent>, agent: Agent)
    requires AllFiledRight(places, records)
    ensures Shown(places.Without(agent.roles, agent.id), records) == Evict(Shown(places, records), agent)
    ensures AllFiledRight(places.Without(agent.roles, agent.id), records)
  {
    hide Read, FiledRight, Displace;
    ReadDisplaced(places.etcd, records, agent, ETCD);
    ReadDisplaced(places.master, records, agent, Master);
    ReadDisplaced(places.minion, records, agent, Minion);
    ReadDisplaced(places.ha, records, agent, HA);
    ReadDisplaced(places.pool, records, agent, Pool);
  }

  // A lookup shows the record filed first.
  lemma FirstShows(places: Collections<nat>, records: seq<Agent>, id: string)
    requires AllFiledRight(places, records)
    ensures match places.First(id)
      case None => Shown(places, records).Lookup(id) == None
      case Some(n) => n < |records| && records[n].id == id && Shown(places, records).Lookup(id) == Some(records[n])
  {
  }

  lemma PlacedAt(places: Collections<nat>, roles: Roles, at: string, tag: nat, slot: Slot)
    ensures places.With(roles, at, tag).At(slot)
        == if roles.In(slot) then places.At(slot)[at := tag] else places.At(slot)
    ensures places.Without(roles, at).At(slot) == if roles.In(slot) then places.At(slot) - {at} else places.At(slot)
  {
  }

  lemma ShownAt(places: Collections<nat>, records: seq<Agent>, slot: Slot)
    ensures Shown(places, records).At(slot) == Read(places.At(slot), records)
  {
  }

  // ---------- the class ----------

  // A cached record. The collections of one agent share it, and so do the queries that looked it up.
  class CachedAgent {
    const info: Agent
    ghost const number: nat
    var phase: int

    constructor (agent: Agent, ghost number: nat)
      ensures info == agent && this.number == number && phase == agent.phase && Value() == agent
    {
      info := agent;
      this.number := number;
      phase := agent.phase;
    }

    function Value(): Agent
      reads this
    {
      info.(phase := phase)
    }
  }

  ghost function Numbers(m: map<string, CachedAgent>): map<string, nat> {
    map id | id in m :: m[id].number
  }

  ghost function Contents(made: seq<CachedAgent>): seq<Agent>
    reads made
  {
    seq(|made|, i requires 0 <= i < |made| reads made => made[i].Value())
  }

  ghost predicate OwnIds(m: map<string, CachedAgent>, made: seq<CachedAgent>) {
    forall id :: id in m ==> m[id] in made && m[id].info.id == id
  }

  ghost function NumbersOf(refs: Collections<CachedAgent>): Collections<nat> {
    Collections(Numbers(refs.etcd), Numbers(refs.master), Numbers(refs.minion), Numbers(refs.ha), Numbers(refs.pool))
  }

  ghost predicate AllFiled(refs: Collections<CachedAgent>, made: seq<CachedAgent>) {
    && OwnIds(refs.etcd, made) && OwnIds(refs.master, made) && OwnIds(refs.minion, made)
    && OwnIds(refs.ha, made) && OwnIds(refs.pool, made)
  }

  lemma NumbersWith(refs: Collections<CachedAgent>, made: seq<CachedAgent>, a: CachedAgent)
    requires AllFiled(refs, made)
    ensures NumbersOf(refs.With(a.info.roles, a.info.id, a)) == NumbersOf(refs).With(a.info.roles, a.info.id, a.number)
    ensures AllFiled(refs.With(a.info.roles, a.info.id, a), made + [a])
  {
    hide Numbers, OwnIds;
    OneNumberMore(refs.etcd, made, a);
    OneNumberMore(refs.master, made, a);
    OneNumberMore(refs.minion, made, a);
    OneNumberMore(refs.ha, made, a);
    OneNumberMore(refs.pool, made, a);
  }

  lemma OneNumberMore(m: map<string, CachedAgent>, made: seq<CachedAgent>, a: CachedAgent)
    requires OwnIds(m, made)
    ensures Numbers(m[a.info.id := a]) == Numbers(m)[a.info.id := a.number]
    ensures OwnIds(m, made + [a]) && OwnIds(m[a.info.id := a], made + [a])
  {
  }

  lemma NumbersWithout(refs: Collections<CachedAgent>, made: seq<CachedAgent>, roles: Roles, id: string)
    requires AllFiled(refs, made)
    ensures NumbersOf(refs.Without(roles, id)) == NumbersOf(refs).Without(roles, id)
    ensures AllFiled(refs.Without(roles, id), made)
  {
    hide Numbers, OwnIds;
    OneNumberLess(refs.etcd, made, id);
    OneNumberLess(refs.master, made, id);
    OneNumberLess(refs.minion, made, id);
    OneNumberLess(refs.ha, made, id);
    OneNumberLess(refs.pool, made, id);
  }

  lemma OneNumberLess(m: map<string, CachedAgent>, made: seq<CachedAgent>, id: string)
    requires OwnIds(m, made)
    ensures Numbers(m - {id}) == Numbers(m) - {id} && OwnIds(m - {id}, made)
  {
  }

  class AgentCache {
    var etcd: map<string, CachedAgent>
    var k8sMaster: map<string, CachedAgent>
    var k8sMinion: map<string, CachedAgent>
    var ha: map<string, CachedAgent>
    var pool: map<string, CachedAgent>
    ghost var made: seq<CachedAgent>

    constructor ()
      ensures View() == EMPTY_CACHE && made == [] && Valid()
    {
      etcd, k8sMaster, k8sMinion, ha, pool, made := map[], map[], map[], map[], map[], [];
    }

    function At(slot: Slot): map<string, CachedAgent>
      reads this
    {
      match slot
      case ETCD => etcd
      case Master => k8sMaster
      case Minion => k8sMinion
      case HA => ha
      case Pool => pool
    }

    ghost function Refs(): Collections<CachedAgent>
      reads this
    {
      Collections(etcd, k8sMaster, k8sMinion, ha, pool)
    }

    // Which records the collections file, by number.
    ghost function Places(): Collections<nat>
      reads this
    {
      NumbersOf(Refs())
    }

    // Every record that was ever made, whether it is still cached or not.
    ghost function Records(): seq<Agent>
      reads this, made
    {
      Contents(made)
    }

    // The content of the cache.
    ghost function View(): Cache
      reads this, made
    {
      Shown(Places(), Records())
    }

    // Records know their numbers, and those that are cached are filed under their own id.
    ghost predicate Valid()
      reads this
    {
      && (forall i :: 0 <= i < |made| ==> made[i].number == i)
      && AllFiled(Refs(), made)
    }

    lemma FiledByNumber()
      requires Valid()
      ensures AllFiledRight(Places(), Records()) && |Records()| == |made|
    {
      NumbersAreRight(etcd, made);
      NumbersAreRight(k8sMaster, made);
      NumbersAreRight(k8sMinion, made);
      NumbersAreRight(ha, made);
      NumbersAreRight(pool, made);
    }

    lemma NumberedRecord(a: CachedAgent)
      requires Valid() && a in made
      ensures a.number < |made| && made[a.number] == a && Records()[a.number] == a.Value() && |Records()| == |made|
    {
    }

    // Files one new record in the collection of each of its roles, or in the pool.
    method Online(agent: Agent) returns (ghost a: CachedAgent)
      requires Valid()
      modifies this
      ensures fresh(a) && made == old(made) + [a]
      ensures Records() == old(Records()) + [agent]
      ensures Places() == old(Places()).With(agent.roles, agent.id, |old(made)|)
      ensures Valid() && View() == Admit(old(View()), agent)
    {
      hide Admit, Collections.With, Shown, Contents, NumbersOf, AllFiled, AllFiledRight;
      FiledByNumber();
      WithShows(Places(), Records(), agent);
      var r := new CachedAgent(agent, |made|);
      a := r;
      NumbersWith(Refs(), made, r);
      File(r);
      MadeOneMore(old(made), r, old(Records()));
    }

    method File(a: CachedAgent)
      modifies this
      ensures made == old(made) + [a] && Refs() == old(Refs()).With(a.info.roles, a.info.id, a)
    {
      if a.info.roles.etcd {
        etcd := etcd[a.info.id := a];
      }
      if a.info.roles.master {
        k8sMaster := k8sMaster[a.info.id := a];
      }
      if a.info.roles.minion {
        k8sMinion := k8sMinion[a.info.id := a];
      }
      if a.info.roles.ha {
        ha := ha[a.info.id := a];
      }
      if !a.info.roles.etcd && !a.info.roles.master && !a.info.roles.minion && !a.info.roles.ha {
        pool := pool[a.info.id := a];
      }
      made := made + [a];
    }

    method Offline(agent: Agent)
      requires Valid()
      modifies this
      ensures made == old(made) && Places() == old(Places()).Without(agent.roles, agent.id)
      ensures Valid() && View() == Evict(old(View()), agent)
    {
      hide Evict, Collections.Without, Shown, NumbersOf, AllFiled, AllFiledRight;
      FiledByNumber();
      WithoutShows(Places(), Records(), agent);
      NumbersWithout(Refs(), made, agent.roles, agent.id);
      Strike(agent);
    }

    method Strike(agent: Agent)
      modifies this
      ensures made == old(made) && Refs() == old(Refs()).Without(agent.roles, agent.id)
    {
      if agent.roles.etcd {
        etcd := etcd - {agent.id};
      }
      if agent.roles.master {
        k8sMaster := k8sMaster - {agent.id};
      }
      if agent.roles.minion {
        k8sMinion := k8sMinion - {agent.id};
      }
      if agent.roles.ha {
        ha := ha - {agent.id};
      }
      if !agent.roles.etcd && !agent.roles.master && !agent.roles.minion && !agent.roles.ha {
        pool := pool - {agent.id};
      }
    }

    method Find(id: string) returns (agent: CachedAgent?)
      requires Valid()
      ensures agent == null <==> Places().First(id) == None
      ensures agent == null <==> id !in etcd && id !in k8sMaster && id !in k8sMinion && id !in ha && id !in pool
      ensures id in etcd ==> agent == etcd[id]
      ensures id !in etcd && id in k8sMaster ==> agent == k8sMaster[id]
      ensures id !in etcd && id !in k8sMaster && id in k8sMinion ==> agent == k8sMinion[id]
      ensures id !in etcd && id !in k8sMaster && id !in k8sMinion && id in ha ==> agent == ha[id]
      ensures agent != null ==> agent in made && agent.info.id == id && Places().First(id) == Some(agent.number)
    {
      if id in etcd { return etcd[id]; }
      if id in k8sMaster { return k8sMaster[id]; }
      if id in k8sMinion { return k8sMinion[id]; }
      if id in ha { return ha[id]; }
      if id in pool { return pool[id]; }
      return null;
    }

    // Whoever shares the record sees the phase, whether the record is still cached or was replaced meanwhile.
    method WritePhase(agent: CachedAgent, phase: int)
      requires Valid() && agent in made
      modifies agent
      ensures Valid()
      ensures agent.phase == phase
      ensures agent.number < |made| && Records() == old(Records())[agent.number := old(agent.Value()).(phase := phase)]
    {
      agent.phase := phase;
    }

    // The pool is no role that can be counted: it gets the answer for an unknown role.
    method GetTotalCountByRole(slot: Slot) returns (r: int)
      requires Valid()
      ensures r == if slot == Pool then -1 else |View().At(slot)|
      ensures match slot
        case ETCD => r == |etcd|
        case Master => r == |k8sMaster|
        case Minion => r == |k8sMinion|
        case HA => r == |ha|
        case Pool => r == -1
    {
      if slot == Pool {
        return -1;
      }
      hide Shown, Numbers, Contents, AllFiled;
      SameKeys(slot);
      assert At(slot).Keys == View().At(slot).Keys;
      return |At(slot)|;
    }

    method GetTotalProvisionedCountByRole(slot: Slot) returns (r: int)
      requires Valid()
      ensures r == if slot == Pool then -1 else CountProvisioned(View(), slot)
    {
      if slot == Pool {
        return -1;
      }
      hide Shown, Numbers, Contents, AllFiled;
      SameKeys(slot);
      r := CountIn(At(slot), View().At(slot), slot);
      assert SeenProvisioned(View().At(slot), {}, slot) == ProvisionedIds(View(), slot);
    }

    // Lists the addresses of a role, walking its collection in whatever order the runtime chooses.
    method GetAgentsAddress(slot: Slot, flag: StatusFlag, now: real) returns (ips: seq<string>)
      requires Valid() && slot != Pool && AllOnline(View().At(slot))
      ensures ips == Addresses(View(), slot, flag, now)
    {
      hide Shown, Numbers, Contents, AllFiled;
      SameKeys(slot);
      ghost var order;
      ips, order := Walk(At(slot), View().At(slot), slot, flag, now);
      AddressesAreCanonical(View(), order, slot, flag, now);
      ips := Text.Sort(ips);
    }

    lemma SameKeys(slot: Slot)
      requires Valid()
      ensures Shows(At(slot), View().At(slot))
    {
      ShownAt(Places(), Records(), slot);
      assert Places().At(slot) == Numbers(At(slot)) && OwnIds(At(slot), made);
      forall id ensures id in At(slot) <==> id in View().At(slot)
        ensures id in At(slot) ==> At(slot)[id].Value() == View().At(slot)[id]
      {
        if id in At(slot) {
          var i :| 0 <= i < |made| && made[i] == At(slot)[id];
        }
      }
    }
  }

  // These records have these values.
  ghost predicate Shows(m: map<string, CachedAgent>, v: map<string, Agent>)
    reads m.Values
  {
    m.Keys == v.Keys && forall id :: id in m ==> m[id].Value() == v[id]
  }

  lemma NumbersAreRight(m: map<string, CachedAgent>, made: seq<CachedAgent>)
    requires OwnIds(m, made) && forall i :: 0 <= i < |made| ==> made[i].number == i
    ensures FiledRight(Numbers(m), Contents(made))
  {
    forall id | id in m ensures m[id].number < |made| && Contents(made)[m[id].number].id == id {
      var i :| 0 <= i < |made| && made[i] == m[id];
    }
  }

  lemma MadeOneMore(made: seq<CachedAgent>, a: CachedAgent, contents: seq<Agent>)
    requires contents == Contents(made)
    ensures Contents(made + [a]) == contents + [a.Value()]
  {
  }

  ghost function SeenProvisioned(v: map<string, Agent>, rest: set<string>, slot: Slot): set<string> {
    set id | id in v && id !in rest && v[id].HasProvisioned(slot)
  }

  lemma SeenOneMore(v: map<string, Agent>, rest: set<string>, slot: Slot, id: string)
    requires id in rest && id in v
    ensures |SeenProvisioned(v, rest - {id}, slot)|
         == |SeenProvisioned(v, rest, slot)| + if v[id].HasProvisioned(slot) then 1 else 0
  {
    if v[id].HasProvisioned(slot) {
      assert SeenProvisioned(v, rest - {id}, slot) == SeenProvisioned(v, rest, slot) + {id};
    } else {
      assert SeenProvisioned(v, rest - {id}, slot) == SeenProvisioned(v, rest, slot);
    }
  }

  method CountIn(m: map<string, CachedAgent>, ghost v: map<string, Agent>, slot: Slot) returns (r: int)
    requires Shows(m, v)
    ensures r == |SeenProvisioned(v, {}, slot)|
  {
    var rest := m.Keys;
    assert SeenProvisioned(v, rest, slot) == {};
    r := 0;
    while rest != {}
      invariant rest <= m.Keys
      invariant r == |SeenProvisioned(v, rest, slot)|
      decreases rest
    {
      hide SeenProvisioned;
      var id :| id in rest;
      SeenOneMore(v, rest, slot, id);
      if m[id].Value().HasProvisioned(slot) {
        r := r + 1;
      }
      rest := rest - {id};
    }
  }

  method Walk(m: map<string, CachedAgent>, ghost v: map<string, Agent>, slot: Slot, flag: StatusFlag, now: real)
      returns (ips: seq<string>, ghost order: seq<string>)
    requires Shows(m, v) && AllOnline(v)
    ensures Enumerates(order, v.Keys) && forall id :: id in order ==> id in v
    ensures ips == Collect(v, order, slot, flag, now)
  {
    var rest := m.Keys;
    order, ips := [], [];
    while rest != {}
      invariant rest <= m.Keys && Enumerates(order, m.Keys - rest)
      invariant forall id :: id in order ==> id in v
      invariant ips == Collect(v, order, slot, flag, now)
      decreases rest
    {
      var id :| id in rest;
      var a := m[id].Value();
      assert a == v[id] && a.state.Some?;
      CollectOneMore(v, order, id, slot, flag, now);
      WalkedOneMore(order, m.Keys, rest, id);
      if Qualifies(a, slot, flag, now) {
        ips := ips + [a.state.value.lastReportIP];
      }
      order := order + [id];
      rest := rest - {id};
    }
    assert m.Keys - rest == m.Keys;
  }

  lemma WalkedOneMore(order: seq<string>, keys: set<string>, rest: set<string>, id: string)
    requires id in rest && rest <= keys && Enumerates(order, keys - rest)
    ensures Enumerates(order + [id], keys - (rest - {id}))
  {
    assert keys - (rest - {id}) == (keys - rest) + {id};
    EnumeratesMore(order, keys - rest, id);
  }

  lemma {:induction false} CollectOneMore(m: map<string, Agent>, order: seq<string>, id: string, slot: Slot,
                                          flag: StatusFlag, now: real)
    requires id in m && forall i :: i in order ==> i in m
    ensures Collect(m, order + [id], slot, flag, now)
         == Collect(m, order, slot, flag, now) + if Qualifies(m[id], slot, flag, now) then [Address(m[id])] else []
  {
    if order == [] {
      assert order + [id] == [id];
    } else {
      assert (order + [id])[1..] == order[1..] + [id];
      CollectOneMore(m, order[1..], id, slot, flag, now);
    }
  }
}

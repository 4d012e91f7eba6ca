/**
  The API server's handling of agents, statement by statement (pkg/managers/agent_mgmt.go,
  pkg/common/common.go, pkg/cache/cluster_manager.go), proved against the steps of ControlPlane.
  What other requests and the watcher can come between is a method of its own; RegisterAgent,
  QueryAgentNextWorkItem and HandleEvent put these together for a request nothing comes between.
 */
module Server {
  import opened Entities
  import opened Caching
  import opened Scheduling
  import opened ControlPlane
  import Watching
  import Phases
  import Text

  // The keys of one cluster in etcd, its leases and its watch stream.
  class Store {
    var settings: map<string, Agent>
    var states: map<string, Bound>
    var leases: set<int>
    var nextLease: int
    var rev: nat
    var queue: seq<Event>

    constructor ()
      ensures settings == map[] && states == map[] && leases == {} && nextLease == 0 && rev == 0 && queue == []
    {
      settings, states, leases, nextLease, rev, queue := map[], map[], {}, 0, 0, [];
    }

    // The store is as this world has it.
    ghost predicate Shows(w: World)
      reads this
    {
      && settings == w.settings && states == w.states && leases == w.leases && nextLease == w.nextLease
      && rev == w.rev && queue == w.queue
    }

    method Notify(id: string, isDelete: bool)
      modifies this`rev, this`queue
      ensures rev == old(rev) + 1 && queue == old(queue) + [Event(id, isDelete, rev)]
    {
      rev := rev + 1;
      queue := queue + [Event(id, isDelete, rev)];
    }

    method PutSettings(agent: Agent, putOk: bool, ghost w: World) returns (ok: bool)
      requires Shows(w)
      modifies this
      ensures ok == putOk && Shows(if ok then ControlPlane.PutSettings(w, agent) else w)
      ensures settings == if ok then old(settings)[agent.id := agent.(state := None)] else old(settings)
      ensures queue == if ok then old(queue) + [Event(agent.id, false, old(rev) + 1)] else old(queue)
      ensures states == old(states) && leases == old(leases)
    {
      if putOk {
        settings := settings[agent.id := agent.(state := None)];
        Notify(agent.id, false);
      }
      return putOk;
    }

    method GrantLease(leaseOk: bool, ghost w: World) returns (r: Result<int>)
      requires Shows(w)
      modifies this
      ensures r == if leaseOk then Ok(w.nextLease) else Err(LeaseRefused)
      ensures Shows(if leaseOk then Do(w, Grant) else w)
      ensures leases == if leaseOk then old(leases) + {old(nextLease)} else old(leases)
      ensures settings == old(settings) && states == old(states) && queue == old(queue)
    {
      if !leaseOk {
        return Err(LeaseRefused);
      }
      r := Ok(nextLease);
      leases := leases + {nextLease};
      nextLease := nextLease + 1;
    }

    // etcd refuses to bind a key to a lease it does not know.
    method PutState(id: string, state: AgentState, lease: int, putOk: bool, ghost w: World) returns (ok: bool)
      requires Shows(w)
      modifies this
      ensures ok == (putOk && lease in w.leases)
      ensures Shows(if ok then Do(w, SaveState(id, state, lease)) else w)
      ensures states == if ok then old(states)[id := Bound(state, lease)] else old(states)
      ensures queue == if ok then old(queue) + [Event(id, false, old(rev) + 1)] else old(queue)
      ensures settings == old(settings) && leases == old(leases)
    {
      ok := putOk && lease in leases;
      if ok {
        states := states[id := Bound(state, lease)];
        Notify(id, false);
      }
    }

    method DeleteState(id: string, ghost w: World)
      requires Shows(w)
      modifies this
      ensures Shows(Do(w, RemoveState(id)))
      ensures states == old(states) - {id} && settings == old(settings) && leases == old(leases)
      ensures queue == if id in old(states) then old(queue) + [Event(id, true, old(rev) + 1)] else old(queue)
    {
      if id in states {
        states := states - {id};
        Notify(id, true);
      }
    }

    method DeleteSettings(id: string, ghost w: World)
      requires Shows(w)
      modifies this
      ensures Shows(Do(w, RemoveSettings(id)))
      ensures settings == old(settings) - {id} && states == old(states) && leases == old(leases)
      ensures queue == if id in old(settings) then old(queue) + [Event(id, true, old(rev) + 1)] else old(queue)
    {
      if id in settings {
        settings := settings - {id};
        Notify(id, true);
      }
    }

    // ---------- saving an agent ----------

    method SaveAgentStateOnlyWithTTL(id: string, state: AgentState, luck: Luck, ghost w: World) returns (r: Result<int>)
      requires Shows(w) && w.nextLease !in w.leases
      modifies this
      ensures r.Ok? <==> luck.lease && luck.putState
      ensures r.Ok? ==> r.value == w.nextLease && Shows(Bind(w, id, state))
      ensures r.Err? ==> Shows(if luck.lease then Do(w, Grant) else w)
      ensures settings == old(settings)
      ensures states == if r.Ok? then old(states)[id := Bound(state, r.value)] else old(states)
      ensures r.Ok? ==> r.value in leases && r.value !in old(leases)
    {
      var lease := GrantLease(luck.lease, w);
      if lease.Err? {
        return lease;
      }
      var ok := PutState(id, state, lease.value, luck.putState, Do(w, Grant));
      if !ok {
        return Err(PutFailed);
      }
      return lease;
    }

    // Renews the lease the agent presents, or grants a new one when it presents -1, and binds the state to it. Without
    // a lease the answer is -1; when only the put fails, the lease is returned beside the failure.
    method SaveAgentStateOnly(id: string, leaseId: int, state: AgentState, luck: Luck, ghost w: World)
      returns (lease: int, failure: Option<Failure>)
      requires Shows(w) && w.nextLease !in w.leases
      modifies this
      ensures lease == if !LeaseGot(w, leaseId, luck) then -1 else if leaseId == -1 then w.nextLease else leaseId
      ensures failure == if !LeaseGot(w, leaseId, luck) then Some(LeaseRefused)
                         else if !luck.putState then Some(PutFailed) else None
      ensures Shows(Reported(w, id, leaseId, state, luck))
      ensures settings == old(settings)
      ensures states == if failure.None? then old(states)[id := Bound(state, lease)] else old(states)
      ensures failure.None? ==> lease in leases && (leaseId == -1 <==> lease !in old(leases))
    {
      lease := leaseId;
      if leaseId == -1 {
        var granted := GrantLease(luck.lease, w);
        if granted.Err? {
          return -1, Some(LeaseRefused);
        }
        lease := granted.value;
      } else if !luck.lease || leaseId !in leases {
        return -1, Some(LeaseRefused);
      }
      var ok := PutState(id, state, lease, luck.putState, if leaseId == -1 then Do(w, Grant) else w);
      failure := if ok then None else Some(PutFailed);
    }

    // Reads the settings, then the state; an agent without settings is not an error.
    method GetAgent(id: string, luck: Luck) returns (r: Result<Option<Agent>>)
      ensures r.Ok? <==> id == "" || (luck.read && (luck.readState || id !in settings))
      ensures r.Ok? ==> r.value == if id != "" && id in settings
        then Some(settings[id].(state := if id in states then Some(states[id].state) else None)) else None
    {
      if id == "" {
        return Ok(None);
      }
      if !luck.read {
        return Err(StoreUnreachable);
      }
      if id !in settings {
        return Ok(None);
      }
      var agent := settings[id].(state := None);
      if !luck.readState {
        return Err(StoreUnreachable);
      }
      if id in states {
        agent := agent.(state := Some(states[id].state));
      }
      return Ok(Some(agent));
    }
  }

  // A fresh lease is granted and the state bound to it.
  ghost function Bind(w: World, id: string, state: AgentState): World {
    Do(Do(w, Grant), SaveState(id, state, w.nextLease))
  }

  // A live lease is renewed, or a new one granted.
  ghost predicate LeaseGot(w: World, leaseId: int, luck: Luck) {
    luck.lease && (leaseId == -1 || leaseId in w.leases)
  }

  ghost function Reported(w: World, id: string, leaseId: int, state: AgentState, luck: Luck): World {
    if !LeaseGot(w, leaseId, luck) then w
    else if leaseId == -1 then (if luck.putState then Bind(w, id, state) else Do(w, Grant))
    else if luck.putState then Do(w, SaveState(id, state, leaseId)) else w
  }

  // What one component of an agent reports.
  datatype Item = Item(hasProvisioned: bool, reason: string)

  datatype Report = Report(ip: string, items: map<Slot, Item>, leaseId: int)

  datatype Registration = Registration(agentId: string, clusterId: string, leaseId: int)

  // Which calls to the outside succeed.
  datatype Luck = Luck(read: bool, readState: bool, lease: bool, put: bool, putState: bool, certificate: Result<string>)

  predicate ReportedProvisioned(items: map<Slot, Item>, slot: Slot) {
    slot in items && items[slot].hasProvisioned
  }

  // A request between its methods.
  datatype Call =
    | Finds(agent: CachedAgent)
    | Asks(agent: CachedAgent, before: int)
    | HasAnswer(agent: CachedAgent, before: int)
    | WentUp(agent: CachedAgent)
    | Sends(message: Agent)

  ghost function FlightOf(c: Call): Flight {
    match c
    case Finds(agent) => Holding(agent.number)
    case Asks(agent, before) => Asking(agent.number, before)
    case HasAnswer(agent, before) => Answered(agent.number, before)
    case WentUp(agent) => Raised(agent.number)
    case Sends(message) => Sending(message)
  }

  ghost function FlightsOf(calls: map<nat, Call>): map<nat, Flight> {
    map q | q in calls :: FlightOf(calls[q])
  }

  class ApiServer {
    const cfg: ClusterSettings
    const syncRev: nat
    const store: Store
    const cache: AgentCache
    const scheduler: JobScheduler
    var hand: Handler
    var calls: map<nat, Call>

    constructor (cfg: ClusterSettings, store: Store, cache: AgentCache, scheduler: JobScheduler)
      ensures this.cfg == cfg && this.syncRev == store.rev && this.store == store && this.cache == cache
      ensures this.scheduler == scheduler && this.hand == Idle && this.calls == map[]
    {
      this.cfg, this.syncRev, this.store, this.cache, this.scheduler := cfg, store.rev, store, cache, scheduler;
      this.hand, this.calls := Idle, map[];
    }

    ghost function View(): World
      reads this, store, cache, cache.made
    {
      World(cfg, store.settings, store.states, store.leases, store.nextLease, store.rev, syncRev, store.queue, hand,
            cache.Places(), cache.Records(), FlightsOf(calls))
    }

    ghost predicate Valid()
      reads this, store, cache, cache.made, scheduler
    {
      && cache.Valid() && scheduler.strategies == STRATEGIES && WellFormed(View())
      && forall q :: q in calls && !calls[q].Sends? ==> calls[q].agent in cache.made
    }

    // The world is this one: the store shows it, and the rest is as it has it.
    lemma Is(w: World)
      requires w.cfg == cfg && w.syncRev == syncRev && w.hand == hand && store.Shows(w) && w.flights == FlightsOf(calls)
      requires w.places == cache.Places() && w.records == cache.Records()
      ensures View() == w
    {
    }

    // ---------- registration ----------

    // Whether the agent is known decides; a new one needs a certificate if it is a master, and an id if it has none.
    method CheckRegistration(q: nat, agent: Agent, uuid: string, luck: Luck) returns (r: Result<Option<Registration>>)
      requires Valid() && agent.state.Some? && uuid != "" && q !in calls
      modifies this`calls
      ensures Valid()
      ensures r.Ok? <==> Admitted(old(View()), agent, luck)
      ensures r.Ok? && r.value.Some? <==> Admitted(old(View()), agent, luck) && Known(old(View()), agent)
      ensures r.Ok? && r.value.Some? ==> r.value.value == Registration(agent.id, cfg.id, -1)
      ensures !(r.Ok? && r.value.None?) ==> View() == old(View())
      ensures forall why :: r == Err(why) <==> TurnedDown(why, old(View()), agent, luck)
      ensures r.Ok? && r.value.None? ==>
        && View() == Do(old(View()), Check(q, WithCertificate(agent, luck), uuid))
        && calls == old(calls)[q := Sends(WithCertificate(agent, luck).(id := NewId(agent, uuid)))]
    {
      ghost var w := View();
      if agent.clusterId == "" || agent.hostname == "" {
        return Err(MissingField);
      }
      if agent.clusterId != cfg.id {
        return Err(UnknownCluster);
      }
      var found := store.GetAgent(agent.id, luck);
      if found.Err? {
        return Err(StoreUnreachable);
      }
      if found.value.Some? {
        var pre := found.value.value;
        FiledUnderItsId(w, agent.id);
        hide Do, WellFormed, Text.ToLower;
        if Text.ToLower(agent.hostname) != Text.ToLower(pre.hostname) {
          return Err(HostnameDiffers);
        }
        if pre.state.Some? && agent.state.value.lastReportIP != pre.state.value.lastReportIP {
          return Err(AddressDiffers);
        }
        if pre.isDelete {
          return Err(AgentDeleted);
        }
        return Ok(Some(Registration(pre.id, pre.clusterId, -1)));
      }
      r := BeginRegistration(q, agent, uuid, luck, w);
    }

    method BeginRegistration(q: nat, agent: Agent, uuid: string, luck: Luck, ghost w: World)
      returns (r: Result<Option<Registration>>)
      requires Valid() && w == View() && MayRegister(w, agent, uuid) && q !in calls
      modifies this`calls
      ensures Valid()
      ensures r == if CertificateGiven(agent, luck) then Ok(None) else Err(NoCertificate)
      ensures r.Err? ==> View() == w
      ensures r.Ok? ==>
        && View() == Do(w, Check(q, WithCertificate(agent, luck), uuid))
        && calls == old(calls)[q := Sends(WithCertificate(agent, luck).(id := NewId(agent, uuid)))]
    {
      var a := agent;
      if agent.roles.master {
        if luck.certificate.Err? || luck.certificate.value == "" {
          return Err(NoCertificate);
        }
        a := a.(adminCertificate := luck.certificate.value);
      }
      if a.id == "" {
        a := a.(id := uuid);
      }
      CheckSends(w, q, WithCertificate(agent, luck), uuid);
      StepKeepsForm(w, Check(q, WithCertificate(agent, luck), uuid));
      FlightsWith(calls, q, Sends(a));
      hide Do, WellFormed, FlightsOf;
      calls := calls[q := Sends(a)];
      Is(Do(w, Check(q, WithCertificate(agent, luck), uuid)));
      return Ok(None);
    }

    // The settings are saved first, then the state, on a fresh lease.
    method SaveAgent(q: nat, now: real, luck: Luck) returns (r: Result<Registration>)
      requires Valid() && q in calls && calls[q].Sends? && calls[q].message.state.Some?
      modifies this`calls, store
      ensures Valid()
      ensures r.Ok? <==> luck.put && luck.lease && luck.putState
      ensures View() == Registered(old(View()), q, old(calls[q].message), now, luck)
      ensures r.Ok? ==> r.value == Registration(old(calls[q].message).id, cfg.id, old(store.nextLease))
      ensures var a := old(calls[q].message);
        && store.settings == (if luck.put then old(store.settings)[a.id := a.(state := None)] else old(store.settings))
        && store.states == if r.Ok?
             then old(store.states)[a.id := Bound(a.state.value.(lastReportTime := now), r.value.leaseId)]
             else old(store.states)
      ensures r.Ok? ==> r.value.leaseId in store.leases && r.value.leaseId !in old(store.leases)
    {
      hide Do, WellFormed, FlightsOf, ControlPlane.PutSettings, Bind, Contents, NumbersOf, AllFiled;
      ghost var w := View();
      FlightsAt(calls, q);
      var a := calls[q].message;
      var state := a.state.value.(lastReportTime := now);
      PutDelivers(w, q, luck.put);
      StepKeepsForm(w, Put(q, luck.put));
      StateSteps(Do(w, Put(q, luck.put)), a.id, state);
      FlightsWithout(calls, q);
      BindKeepsRest(Do(w, Put(q, luck.put)), a.id, state);
      FreshLease(Do(w, Put(q, luck.put)));
      var saved := store.PutSettings(a, luck.put, w.(flights := w.flights - {q}));
      calls := calls - {q};
      ghost var w1 := Do(w, Put(q, luck.put));
      if !saved {
        Is(w1);
        return Err(PutFailed);
      }
      var lease := store.SaveAgentStateOnlyWithTTL(a.id, state, luck, w1);
      Is(Registered(w, q, a, now, luck));
      if lease.Err? {
        return Err(lease.error);
      }
      return Ok(Registration(a.id, cfg.id, lease.value));
    }

    // Registers an agent. An agent that is registered already gets its record back, with -1 for a lease, and nothing
    // is written; a new one gets its settings stored and its state bound to a fresh lease.
    method RegisterAgent(q: nat, agent: Agent, uuid: string, now: real, luck: Luck) returns (r: Result<Registration>)
      requires Valid() && agent.state.Some? && uuid != "" && q !in calls
      modifies this`calls, store
      ensures Valid()
      ensures r.Ok? <==>
        Admitted(old(View()), agent, luck) && (Known(old(View()), agent) || (luck.put && luck.lease && luck.putState))
      ensures !Admitted(old(View()), agent, luck) || Known(old(View()), agent) ==> View() == old(View())
      ensures r.Ok? && Known(old(View()), agent) ==> r.value == Registration(agent.id, cfg.id, -1)
      ensures Admitted(old(View()), agent, luck) && !Known(old(View()), agent) ==>
        var a := WithCertificate(agent, luck);
        && View() == Registered(Do(old(View()), Check(q, a, uuid)), q, a.(id := NewId(agent, uuid)), now, luck)
        && (r.Ok? ==> r.value == Registration(NewId(agent, uuid), cfg.id, old(store.nextLease)))
      ensures r.Err? ==> store.states == old(store.states)
      ensures r.Ok? && agent.id != "" && agent.id in old(store.settings) ==>
        store.settings == old(store.settings) && store.states == old(store.states)
      ensures r.Ok? && (agent.id == "" || agent.id !in old(store.settings)) ==>
        var id, lease := if agent.id == "" then uuid else agent.id, r.value.leaseId;
        && r.value.agentId == id && lease in store.leases && lease !in old(store.leases)
        && store.states == old(store.states)[id := Bound(agent.state.value.(lastReportTime := now), lease)]
        && (agent.roles.master ==> luck.certificate.Ok? && luck.certificate.value != "")
        && var certificate := if agent.roles.master then luck.certificate.value else agent.adminCertificate;
        && store.settings
             == old(store.settings)[id := agent.(id := id, adminCertificate := certificate, state := None)]
    {
      var checked := CheckRegistration(q, agent, uuid, luck);
      hide Do, WellFormed, FlightsOf, Admitted, ControlPlane.PutSettings, Bind, Registered;
      if checked.Err? {
        return Err(checked.error);
      }
      if checked.value.Some? {
        return Ok(checked.value.value);
      }
      r := SaveAgent(q, now, luck);
    }

    // ---------- queries ----------

    // Finds the cached record.
    method LookUpAgent(q: nat, id: string) returns (found: bool)
      requires Valid() && q !in calls
      modifies this`calls
      ensures Valid() && View() == Do(old(View()), LookUp(q, id))
      ensures found <==> old(View()).places.First(id).Some?
      ensures found ==>
        && q in calls && calls[q].Finds? && calls[q].agent.info.id == id
        && old(View()).places.First(id) == Some(calls[q].agent.number) && calls[q].agent in cache.made
        && calls == old(calls)[q := calls[q]]
      ensures !found ==> calls == old(calls)
    {
      hide Do, WellFormed, FlightsOf, Collections.First, Contents, NumbersOf, AllFiled;
      ghost var w := View();
      FlightsAt(calls, q);
      StepKeepsForm(w, LookUp(q, id));
      LookUpFinds(w, q, id);
      var agent := cache.Find(id);
      if agent == null {
        return false;
      }
      cache.NumberedRecord(agent);
      FlightsWith(calls, q, Finds(agent));
      calls := calls[q := Finds(agent)];
      Is(Do(w, LookUp(q, id)));
      return true;
    }

    method NotePhase(q: nat)
      requires Valid() && q in calls && calls[q].Finds?
      modifies this`calls
      ensures Valid() && View() == Do(old(View()), Note(q))
      ensures calls == old(calls)[q := Asks(old(calls[q].agent), old(calls[q].agent).phase)]
    {
      hide Do, WellFormed, FlightsOf, Contents, NumbersOf, AllFiled;
      ghost var w := View();
      var agent := calls[q].agent;
      cache.NumberedRecord(agent);
      FlightsAt(calls, q);
      StepKeepsForm(w, Note(q));
      NoteNotes(w, q);
      FlightsWith(calls, q, Asks(agent, agent.phase));
      calls := calls[q := Asks(agent, agent.phase)];
      Is(Do(w, Note(q)));
    }

    // Asks the scheduler; the phase it gives is written through the record, wherever that is still shared.
    method AnswerQuery(q: nat, out: Outside) returns (r: Answer)
      requires Valid() && q in calls && calls[q].Asks?
      modifies this`calls, calls[q].agent
      ensures Valid() && View() == Do(old(View()), Decide(q, Survey(old(cache.View()), out.now), out.failing))
      ensures r == NextJob(cfg, old(calls[q].agent.Value()), Survey(old(cache.View()), out.now), out.failing)
      ensures calls == old(calls)[q := HasAnswer(old(calls[q].agent), old(calls[q].before))]
      ensures calls[q].agent.phase == if r.phase.Some? then r.phase.value else old(calls[q].agent.phase)
    {
      hide Do, WellFormed, FlightsOf, NextJob, Survey, Contents, NumbersOf, AllFiled, Shown, AllOnline;
      ghost var w := View();
      var call := calls[q];
      ghost var facts := Survey(cache.View(), out.now);
      EveryoneOnline(w);
      assert CacheOf(w) == cache.View();
      cache.NumberedRecord(call.agent);
      r := scheduler.GetNextJob(cfg, call.agent.Value(), cache, out);
      FlightsAt(calls, q);
      StepKeepsForm(w, Decide(q, facts, out.failing));
      DecideWrites(w, q, facts, out.failing);
      FlightsWith(calls, q, HasAnswer(call.agent, call.before));
      if r.phase.Some? {
        cache.WritePhase(call.agent, r.phase.value);
      }
      calls := calls[q := HasAnswer(call.agent, call.before)];
      Is(Do(w, Decide(q, facts, out.failing)));
    }

    // A phase that went up is to be saved; otherwise the query is done.
    method ComparePhase(q: nat) returns (raised: bool)
      requires Valid() && q in calls && calls[q].HasAnswer?
      modifies this`calls
      ensures Valid() && View() == Do(old(View()), Compare(q))
      ensures raised <==> old(calls[q].agent).phase > old(calls[q].before)
      ensures calls == if raised then old(calls)[q := WentUp(old(calls[q].agent))] else old(calls) - {q}
    {
      hide Do, WellFormed, FlightsOf, Contents, NumbersOf, AllFiled;
      ghost var w := View();
      var call := calls[q];
      cache.NumberedRecord(call.agent);
      FlightsAt(calls, q);
      StepKeepsForm(w, Compare(q));
      CompareTells(w, q);
      raised := call.agent.phase > call.before;
      FlightsWith(calls, q, WentUp(call.agent));
      FlightsWithout(calls, q);
      calls := if raised then calls[q := WentUp(call.agent)] else calls - {q};
      Is(Do(w, Compare(q)));
    }

    // What is saved is the record as it is now, whoever wrote into it since the comparison.
    method EncodePhase(q: nat)
      requires Valid() && q in calls && calls[q].WentUp?
      modifies this`calls
      ensures Valid() && View() == Do(old(View()), Encode(q))
      ensures calls == old(calls)[q := Sends(old(calls[q].agent.Value()))]
    {
      hide Do, WellFormed, FlightsOf, Contents, NumbersOf, AllFiled;
      ghost var w := View();
      var agent := calls[q].agent;
      cache.NumberedRecord(agent);
      FlightsAt(calls, q);
      StepKeepsForm(w, Encode(q));
      EncodeSends(w, q);
      FlightsWith(calls, q, Sends(agent.Value()));
      calls := calls[q := Sends(agent.Value())];
      Is(Do(w, Encode(q)));
    }

    // The outcome of the save is only logged.
    method PutPhase(q: nat, putOk: bool)
      requires Valid() && q in calls && calls[q].Sends?
      modifies this`calls, store
      ensures Valid() && View() == Do(old(View()), Put(q, putOk)) && calls == old(calls) - {q}
      ensures var a := old(calls[q].message);
        store.settings == if putOk then old(store.settings)[a.id := a.(state := None)] else old(store.settings)
      ensures store.states == old(store.states) && store.leases == old(store.leases)
    {
      ghost var w := View();
      StepKeepsForm(w, Put(q, putOk));
      PutDelivers(w, q, putOk);
      FlightsWithout(calls, q);
      hide Do, WellFormed, FlightsOf, ControlPlane.PutSettings;
      var _ := store.PutSettings(calls[q].message, putOk, w.(flights := w.flights - {q}));
      calls := calls - {q};
      Is(Do(w, Put(q, putOk)));
    }

    // A query that nothing comes between.
    method QueryAgentNextWorkItem(q: nat, id: string, out: Outside, putOk: bool) returns (r: Result<Answer>)
      requires Valid() && q !in calls
      modifies this`calls, store, cache.made
      ensures Valid()
      ensures old(View()).places.First(id).None? ==> r == Err(AgentNotFound) && View() == old(View())
      ensures old(View()).places.First(id).Some? ==>
        var w := old(View());
        && View() == Run(w, Phases.QuerySteps(q, id, Survey(CacheOf(w), out.now), out.failing, putOk))
        && r == Ok(NextJob(cfg, Phases.Found(w, id), Survey(CacheOf(w), out.now), out.failing))
      ensures r.Ok? ==> old(View()).places.First(id).Some?
      ensures r.Ok? ==>
        var agent := Phases.Found(old(View()), id);
        var phase := if r.value.phase.Some? then r.value.phase.value else agent.phase;
        store.settings == if phase > agent.phase && putOk
          then old(store.settings)[id := agent.(phase := phase, state := None)] else old(store.settings)
      ensures store.states == old(store.states) && store.leases == old(store.leases)
    {
      hide Do, Run, WellFormed, FlightsOf, Survey, NextJob, Contents, Collections.First, Shown, NumbersOf, AllFiled;
      hide Phases.QuerySteps;
      ghost var w := View();
      ghost var facts := Survey(CacheOf(w), out.now);
      FlightsAt(calls, q);
      var found := LookUpAgent(q, id);
      if !found {
        NothingToAsk(w, q, id);
        return Err(AgentNotFound);
      }
      QueryIsSixSteps(w, q, id, facts, out.failing, putOk);
      LookUpKeeps(w, q, id);
      cache.NumberedRecord(calls[q].agent);
      NotePhase(q);
      var answer := AnswerQuery(q, out);
      var raised := ComparePhase(q);
      if raised {
        EncodePhase(q);
        PutPhase(q, putOk);
      } else {
        FlightsAt(calls, q);
        NothingToSend(View(), q, putOk);
      }
      return Ok(answer);
    }

    // ---------- reports ----------

    // Stores what an agent reports, bound to a live lease that is returned to the agent. An agent that is not cached is
    // looked for in the store and given a fresh lease.
    method AgentReportStatus(id: string, report: Report, now: real, luck: Luck)
      returns (lease: int, failure: Option<Failure>)
      requires Valid()
      modifies store
      ensures Valid()
      ensures failure.None? ==>
        && id in store.states && store.states[id].lease == lease && lease in store.leases
        && StateSays(store.states[id].state, report, now)
      ensures failure.None? && (report.leaseId == -1 || old(View()).places.First(id).None?) ==>
        lease == old(store.nextLease) && lease !in old(store.leases)
      ensures failure.None? && report.leaseId != -1 && old(View()).places.First(id).Some? ==> lease == report.leaseId
      ensures failure.None? <==>
        && luck.lease && luck.putState
        && if old(View()).places.First(id).Some? then report.leaseId == -1 || report.leaseId in old(store.leases)
           else id != "" && luck.read && luck.readState && id in old(store.settings)
      ensures failure.None? ==> store.states == old(store.states)[id := store.states[id]]
      ensures failure.Some? ==> store.states == old(store.states)
      ensures store.settings == old(store.settings)
    {
      hide WellFormed, Collections.First, Do, Bind, StateSays, Contents, FlightsOf, NumbersOf, AllFiled, Reported;
      var leaseId := report.leaseId;
      var cached := cache.Find(id);
      if cached == null {
        var found := store.GetAgent(id, luck);
        if found.Err? {
          return -1, Some(StoreUnreachable);
        }
        if found.value.None? {
          return -1, Some(AgentNotFound);
        }
        leaseId := -1;
      }
      var state := StateFrom(report, now);
      lease, failure := SaveStateOnly(id, leaseId, state, luck, View());
    }

    // A lease that is presented must be live; -1 asks for a fresh one.
    method SaveStateOnly(id: string, leaseId: int, state: AgentState, luck: Luck, ghost w: World)
      returns (lease: int, failure: Option<Failure>)
      requires Valid() && w == View()
      modifies store
      ensures Valid() && View() == Reported(w, id, leaseId, state, luck)
      ensures failure.None? <==> LeaseGot(w, leaseId, luck) && luck.putState
      ensures lease == if !LeaseGot(w, leaseId, luck) then -1 else if leaseId == -1 then w.nextLease else leaseId
      ensures leaseId == -1 && failure.None? ==> lease !in w.leases
      ensures failure.None? ==> store.states == w.states[id := Bound(state, lease)] && lease in store.leases
      ensures failure.Some? ==> store.states == w.states
      ensures store.settings == w.settings
    {
      FreshLease(w);
      ReportKeepsForm(w, id, leaseId, state, luck);
      ReportKeepsRest(w, id, leaseId, state, luck);
      hide WellFormed, Do, Bind, Reported;
      lease, failure := store.SaveAgentStateOnly(id, leaseId, state, luck, w);
      Is(Reported(w, id, leaseId, state, luck));
    }

    // ---------- removal ----------

    // The state goes first, so that the deletion takes the agent offline while its settings can still be read. The
    // third delete, of a key that holds nothing, only adds its failure.
    method RemoveAgentFromEtcd(id: string, stateOk: bool, settingsOk: bool, restOk: bool) returns (ok: bool)
      requires Valid()
      modifies store
      ensures ok == (stateOk && settingsOk && restOk)
      ensures View() == if !stateOk then old(View())
                        else if !settingsOk then Do(old(View()), RemoveState(id))
                        else Do(Do(old(View()), RemoveState(id)), RemoveSettings(id))
      ensures store.states == if stateOk then old(store.states) - {id} else old(store.states)
      ensures store.settings == if stateOk && settingsOk then old(store.settings) - {id} else old(store.settings)
      ensures store.leases == old(store.leases)
      ensures Valid()
    {
      ghost var w := View();
      ghost var w1 := Do(w, RemoveState(id));
      StepKeepsForm(w, RemoveState(id));
      StepKeepsForm(w1, RemoveSettings(id));
      RemovalKeepsRest(w, id);
      RemovalKeepsRest(w1, id);
      hide WellFormed, Do;
      if !stateOk {
        return false;
      }
      store.DeleteState(id, w);
      Is(w1);
      if !settingsOk {
        return false;
      }
      store.DeleteSettings(id, w1);
      Is(Do(w1, RemoveSettings(id)));
      return restOk;
    }

    // ---------- the watcher ----------

    method TakeEvent(readOk: bool)
      requires Valid()
      modifies this`hand, store`queue
      ensures Valid() && View() == Do(old(View()), Begin(readOk))
    {
      ghost var w := View();
      StepKeepsForm(w, Begin(readOk));
      Watching.BeginKeeps(w, Begin(readOk));
      hide WellFormed, Do, FlightsOf, Contents;
      if hand == Idle && store.queue != [] {
        var ev := store.queue[0];
        store.queue := store.queue[1..];
        if ev.rev > syncRev && readOk && ev.id in store.settings {
          hand := GotSettings(ev, store.settings[ev.id]);
        }
      }
      Is(Do(w, Begin(readOk)));
    }

    method ReadStateOfEvent(readOk: bool)
      requires Valid()
      modifies this`hand
      ensures Valid() && View() == Do(old(View()), ReadState(readOk))
    {
      ghost var w := View();
      StepKeepsForm(w, ReadState(readOk));
      hide WellFormed, FlightsOf, Contents;
      if hand.GotSettings? {
        if readOk {
          var state := if hand.agent.id in store.states then Some(store.states[hand.agent.id].state) else None;
          hand := GotAgent(hand.ev, hand.agent.(state := state));
        } else {
          hand := Idle;
        }
      }
      Is(Do(w, ReadState(readOk)));
    }

    method FinishEvent()
      requires Valid()
      modifies this`hand, cache
      ensures Valid() && View() == Do(old(View()), Finish)
    {
      hide WellFormed, FlightsOf, Contents, Do, NumbersOf, AllFiled, Collections.With, Collections.Without;
      ghost var w := View();
      StepKeepsForm(w, Finish);
      FinishChanges(w);
      if hand.GotAgent? {
        OnAgentChanged(hand.agent, hand.ev.isDelete, w);
        hand := Idle;
      }
      Is(Do(w, Finish));
    }

    method OnAgentChanged(agent: Agent, isDelete: bool, ghost w: World)
      requires cache.Valid() && w.places == cache.Places() && w.records == cache.Records()
      modifies cache
      ensures cache.Valid() && old(cache.made) <= cache.made
      ensures var next := ControlPlane.OnAgentChanged(w, agent, isDelete);
        cache.Places() == next.places && cache.Records() == next.records
    {
      hide Contents, Collections.With, Collections.Without, NumbersOf, Numbers, AllFiled;
      cache.FiledByNumber();
      if isDelete || agent.state.None? {
        cache.Offline(agent);
      } else {
        ghost var _ := cache.Online(agent);
      }
    }

    // One round of the loop over the watch stream; when a read fails the event is dropped.
    method HandleEvent(luck: Watching.Reads)
      requires Valid() && hand == Idle && store.queue != []
      modifies this`hand, store`queue, cache
      ensures Valid() && View() == Watching.Handled(old(View()), luck)
    {
      hide *;
      HandledSteps(View(), luck);
      TakeEvent(luck.settings);
      ReadStateOfEvent(luck.state);
      FinishEvent();
    }

    // Handles every event of the queue.
    method WatchChanges(luck: nat -> Watching.Reads)
      requires Valid() && hand == Idle
      modifies this`hand, store`queue, cache
      ensures Valid() && View() == Watching.Drained(old(View()), luck, 0)
    {
      hide *;
      ghost var w := View();
      Seen();
      var n := 0;
      while store.queue != []
        invariant Valid() && hand == Idle && Watching.Drained(View(), luck, n) == Watching.Drained(w, luck, 0)
        invariant View().queue == store.queue && View().hand == hand
        decreases |store.queue|
      {
        Seen();
        Watching.HandledKeeps(View(), luck(n));
        Watching.DrainedNext(View(), luck, n);
        HandleEvent(luck(n));
        Seen();
        n := n + 1;
      }
      DrainedAlready(View(), luck, n);
    }

    lemma Seen()
      ensures View().queue == store.queue && View().hand == hand
      ensures Valid() ==> WellFormed(View())
    {
    }
  }

  // The certificate a master agent is given.
  function WithCertificate(agent: Agent, luck: Luck): Agent {
    if agent.roles.master && luck.certificate.Ok? then agent.(adminCertificate := luck.certificate.value) else agent
  }

  predicate CertificateGiven(agent: Agent, luck: Luck) {
    agent.roles.master ==> luck.certificate.Ok? && luck.certificate.value != ""
  }

  ghost predicate Known(w: World, agent: Agent) {
    agent.id != "" && agent.id in w.settings
  }

  // Whether a registration is let in: a known agent must come back under its host name and address and not be deleted;
  // a new master agent needs its certificate.
  ghost predicate Admitted(w: World, agent: Agent, luck: Luck)
    requires agent.state.Some?
  {
    && agent.clusterId == w.cfg.id && agent.clusterId != "" && agent.hostname != ""
    && (agent.id == "" || (luck.read && (luck.readState || agent.id !in w.settings)))
    && if Known(w, agent) then
         && Text.ToLower(w.settings[agent.id].hostname) == Text.ToLower(agent.hostname)
         && (agent.id in w.states ==> w.states[agent.id].state.lastReportIP == agent.state.value.lastReportIP)
         && !w.settings[agent.id].isDelete
       else CertificateGiven(agent, luck)
  }

  // The agent is stored, and what is stored of it was read.
  ghost predicate IsFound(w: World, agent: Agent, luck: Luck) {
    && agent.clusterId == w.cfg.id && agent.clusterId != "" && agent.hostname != ""
    && agent.id != "" && agent.id in w.settings && luck.read && luck.readState
  }

  // The checks in their order: the first that fails tells why a registration is turned down.
  ghost predicate TurnedDown(why: Failure, w: World, agent: Agent, luck: Luck)
    requires agent.state.Some?
  {
    var sameHost := IsFound(w, agent, luck)
      && Text.ToLower(agent.hostname) == Text.ToLower(w.settings[agent.id].hostname);
    var moved := agent.id in w.states && w.states[agent.id].state.lastReportIP != agent.state.value.lastReportIP;
    match why
    case MissingField => agent.clusterId == "" || agent.hostname == ""
    case UnknownCluster => agent.clusterId != "" && agent.hostname != "" && agent.clusterId != w.cfg.id
    case StoreUnreachable =>
      && agent.clusterId == w.cfg.id && agent.clusterId != "" && agent.hostname != ""
      && agent.id != "" && (!luck.read || (agent.id in w.settings && !luck.readState))
    case HostnameDiffers => IsFound(w, agent, luck) && !sameHost
    case AddressDiffers => sameHost && moved
    case AgentDeleted => sameHost && !moved && w.settings[agent.id].isDelete
    case NoCertificate =>
      && agent.clusterId == w.cfg.id && agent.clusterId != "" && agent.hostname != ""
      && (agent.id == "" || (luck.read && agent.id !in w.settings))
      && agent.roles.master && (luck.certificate.Err? || luck.certificate.value == "")
    case _ => false
  }

  // After the settings of a registration were put, as far as that went, and the state was bound to a fresh lease.
  ghost function Registered(w: World, q: nat, message: Agent, now: real, luck: Luck): World
    requires message.state.Some?
  {
    var next := Do(w, Put(q, luck.put));
    if !luck.put || !luck.lease then next
    else if !luck.putState then Do(next, Grant)
    else Bind(next, message.id, message.state.value.(lastReportTime := now))
  }

  // A stored state tells what was reported: the address, the time, and of each component whether it is provisioned.
  // There is one reason for all components; the minion's goes first, then that of HA, master and ETCD.
  ghost predicate StateSays(state: AgentState, report: Report, now: real) {
    && state.lastReportIP == report.ip && state.lastReportTime == now
    && (state.provisionedETCD <==> ReportedProvisioned(report.items, ETCD))
    && (state.provisionedMaster <==> ReportedProvisioned(report.items, Master))
    && (state.provisionedMinion <==> ReportedProvisioned(report.items, Minion))
    && (state.provisionedHA <==> ReportedProvisioned(report.items, HA))
    && state.reason == if Minion in report.items then report.items[Minion].reason
                       else if HA in report.items then report.items[HA].reason
                       else if Master in report.items then report.items[Master].reason
                       else if ETCD in report.items then report.items[ETCD].reason else ""
  }

  method StateFrom(report: Report, now: real) returns (state: AgentState)
    ensures StateSays(state, report, now)
  {
    state := AgentState(report.ip, now, "", false, false, false, false);
    if ETCD in report.items {
      state := state.(provisionedETCD := report.items[ETCD].hasProvisioned, reason := report.items[ETCD].reason);
    }
    if Master in report.items {
      state := state.(provisionedMaster := report.items[Master].hasProvisioned, reason := report.items[Master].reason);
    }
    if HA in report.items {
      state := state.(provisionedHA := report.items[HA].hasProvisioned, reason := report.items[HA].reason);
    }
    if Minion in report.items {
      state := state.(provisionedMinion := report.items[Minion].hasProvisioned, reason := report.items[Minion].reason);
    }
  }

  // ---------- facts about the steps ----------

  lemma HandledSteps(w: World, r: Watching.Reads)
    ensures Watching.Handled(w, r) == Do(Do(Do(w, Begin(r.settings)), ReadState(r.state)), Finish)
  {
  }

  lemma DrainedAlready(w: World, luck: nat -> Watching.Reads, n: nat)
    requires w.queue == []
    ensures Watching.Drained(w, luck, n) == w
  {
  }

  lemma FlightsAt(calls: map<nat, Call>, q: nat)
    ensures q in FlightsOf(calls) <==> q in calls
    ensures q in calls ==> FlightsOf(calls)[q] == FlightOf(calls[q])
  {
  }

  lemma FlightsWith(calls: map<nat, Call>, q: nat, c: Call)
    ensures FlightsOf(calls[q := c]) == FlightsOf(calls)[q := FlightOf(c)]
  {
  }

  lemma FlightsWithout(calls: map<nat, Call>, q: nat)
    ensures FlightsOf(calls - {q}) == FlightsOf(calls) - {q}
  {
  }

  lemma CheckSends(w: World, q: nat, a: Agent, uuid: string)
    requires q !in w.flights && MayRegister(w, a, uuid)
    ensures Do(w, Check(q, a, uuid)) == w.(flights := w.flights[q := Sending(a.(id := NewId(a, uuid)))])
  {
  }

  lemma PutDelivers(w: World, q: nat, saved: bool)
    requires q in w.flights && w.flights[q].Sending?
    ensures var done := w.(flights := w.flights - {q});
      Do(w, Put(q, saved)) == if saved then ControlPlane.PutSettings(done, w.flights[q].message) else done
    ensures SameOutsideStore(w.(flights := w.flights - {q}), Do(w, Put(q, saved)))
    ensures Do(w, Put(q, saved)).nextLease == w.nextLease
  {
  }

  lemma NothingToSend(w: World, q: nat, saved: bool)
    requires q !in w.flights
    ensures Do(w, Encode(q)) == w && Do(Do(w, Encode(q)), Put(q, saved)) == w
  {
  }

  lemma NothingToAsk(w: World, q: nat, id: string)
    requires w.places.First(id).None?
    ensures Do(w, LookUp(q, id)) == w
  {
  }

  // Finding a record and noting its phase change nothing that the scheduler sees.
  lemma LookUpKeeps(w: World, q: nat, id: string)
    ensures var found := Do(w, LookUp(q, id)); var next := Do(found, Note(q));
      && found.places == w.places && found.records == w.records && CacheOf(found) == CacheOf(w)
      && next.places == w.places && next.records == w.records && CacheOf(next) == CacheOf(w)
  {
  }

  lemma QueryIsSixSteps(w: World, q: nat, id: string, facts: Facts, failing: set<nat>, saved: bool)
    ensures Run(w, Phases.QuerySteps(q, id, facts, failing, saved))
         == Do(Do(Do(Do(Do(Do(w, LookUp(q, id)), Note(q)), Decide(q, facts, failing)), Compare(q)), Encode(q)),
               Put(q, saved))
  {
    Phases.RunSix(w, LookUp(q, id), Note(q), Decide(q, facts, failing), Compare(q), Encode(q), Put(q, saved));
  }

  lemma FiledUnderItsId(w: World, id: string)
    requires WellFormed(w) && id in w.settings
    ensures w.settings[id].id == id && w.settings[id].clusterId == w.cfg.id
  {
  }

  lemma EveryoneOnline(w: World)
    requires WellFormed(w)
    ensures forall slot: Slot :: AllOnline(CacheOf(w).At(slot))
  {
    forall slot: Slot ensures AllOnline(CacheOf(w).At(slot)) {
      ShownAt(w.places, w.records, slot);
    }
  }

  lemma FreshLease(w: World)
    requires WellFormed(w)
    ensures w.nextLease !in w.leases && -1 !in w.leases && w.nextLease != -1
  {
  }

  lemma StateSteps(w: World, id: string, state: AgentState)
    requires WellFormed(w)
    ensures WellFormed(Do(w, Grant)) && WellFormed(Bind(w, id, state))
  {
    hide WellFormed, Do;
    StepKeepsForm(w, Grant);
    StepKeepsForm(Do(w, Grant), SaveState(id, state, w.nextLease));
  }

  ghost predicate SameOutsideStore(w: World, next: World) {
    && next.cfg == w.cfg && next.syncRev == w.syncRev && next.hand == w.hand && next.places == w.places
    && next.records == w.records && next.flights == w.flights
  }

  lemma BindKeepsRest(w: World, id: string, state: AgentState)
    ensures SameOutsideStore(w, Bind(w, id, state)) && SameOutsideStore(w, Do(w, Grant))
  {
  }

  lemma ReportKeepsForm(w: World, id: string, leaseId: int, state: AgentState, luck: Luck)
    requires WellFormed(w)
    ensures WellFormed(Reported(w, id, leaseId, state, luck))
  {
    StateSteps(w, id, state);
    StepKeepsForm(w, SaveState(id, state, leaseId));
    hide WellFormed, Do, Bind;
  }

  lemma ReportKeepsRest(w: World, id: string, leaseId: int, state: AgentState, luck: Luck)
    ensures var next := Reported(w, id, leaseId, state, luck);
      && SameOutsideStore(w, next) && next.settings == w.settings
      && if LeaseGot(w, leaseId, luck) && luck.putState then
           var lease := if leaseId == -1 then w.nextLease else leaseId;
           next.states == w.states[id := Bound(state, lease)] && lease in next.leases
         else next.states == w.states
  {
  }

  lemma RemovalKeepsRest(w: World, id: string)
    ensures SameOutsideStore(w, Do(w, RemoveState(id))) && SameOutsideStore(w, Do(w, RemoveSettings(id)))
  {
  }
}

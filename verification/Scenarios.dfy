/**
  Runs in which a promise fails, each of them one the code can take: what they violate are the conditions of the
  theorems of Watching and Phases.
 */
module Scenarios {
  import opened Entities
  import opened Caching
  import opened Scheduling
  import opened ControlPlane
  import opened Watching
  import opened Phases

  const BOTH_ROLES := Roles(true, true, false, false)

  // A cluster that wants one ETCD agent; an agent with the ETCD and master roles, registered and pending; a report that
  // says both are provisioned, and one that says ETCD is not.
  ghost predicate Cast(cfg: ClusterSettings, agent: Agent, good: AgentState, bad: AgentState) {
    && cfg.expectedETCDCount == 1 && cfg.ha == None && agent.clusterId == cfg.id && agent.id != ""
    && agent.phase == PHASE_PENDING && agent.roles == BOTH_ROLES && agent.state == None
    && good.provisionedETCD && good.provisionedMaster && !bad.provisionedETCD
  }

  function Lone(id: string, tag: nat): Collections<nat> {
    Collections(map[id := tag], map[id := tag], map[], map[], map[])
  }

  // The agent is stored and cached, and nothing is under way.
  function Scene(cfg: ClusterSettings, agent: Agent, good: AgentState): World {
    World(cfg, map[agent.id := agent], map[agent.id := Bound(good, 0)], {0}, 1, 0, 0, [], Idle,
          Lone(agent.id, 0), [agent.(state := Some(good))], map[])
  }

  lemma SceneIsSound(cfg: ClusterSettings, agent: Agent, good: AgentState, bad: AgentState)
    requires Cast(cfg, agent, good, bad)
    ensures var w := Scene(cfg, agent, good);
      WellFormed(w) && InStep(w) && PhaseBehind(w, agent.id)
  {
    SceneIsWellFormed(cfg, agent, good, bad);
    SceneIsInStep(cfg, agent, good);
    SceneIsBehind(cfg, agent, good, bad);
    hide *;
  }

  lemma SceneIsWellFormed(cfg: ClusterSettings, agent: Agent, good: AgentState, bad: AgentState)
    requires Cast(cfg, agent, good, bad)
    ensures WellFormed(Scene(cfg, agent, good))
  {
  }

  lemma SceneIsInStep(cfg: ClusterSettings, agent: Agent, good: AgentState)
    requires agent.roles == BOTH_ROLES
    ensures InStep(Scene(cfg, agent, good))
  {
    var w, cached := Scene(cfg, agent, good), agent.(state := Some(good));
    assert Joined(w) == map[agent.id := cached];
    LoneCache(w, agent.id, 0);
    LoneProject(cached);
    hide CacheOf, Joined, Project;
  }

  lemma LoneProject(agent: Agent)
    requires agent.roles == BOTH_ROLES
    ensures Project(map[agent.id := agent]) == LoneOf(agent)
  {
    var one := map[agent.id := agent];
    assert Slice(one, ETCD) == one && Slice(one, Master) == one;
    assert Slice(one, Minion) == map[] && Slice(one, HA) == map[] && Slice(one, Pool) == map[];
    hide Slice;
  }

  // A cache of this agent alone.
  function LoneOf(agent: Agent): Cache {
    Cache(map[agent.id := agent], map[agent.id := agent], map[], map[], map[])
  }

  lemma SceneIsBehind(cfg: ClusterSettings, agent: Agent, good: AgentState, bad: AgentState)
    requires Cast(cfg, agent, good, bad) && WellFormed(Scene(cfg, agent, good))
    ensures PhaseBehind(Scene(cfg, agent, good), agent.id)
  {
    hide PhaseBehind, WellFormed;
    InStepIsBehind(Scene(cfg, agent, good), agent.id);
  }

  lemma LoneCache(w: World, id: string, tag: nat)
    requires w.places == Lone(id, tag) && tag < |w.records|
    ensures w.records[tag].id == id ==> CacheOf(w) == LoneOf(w.records[tag])
    ensures w.places.First(id) == Some(tag)
  {
  }

  // What the scheduler finds for the agent when it is the only one cached.
  lemma LoneStage(w: World, id: string, tag: nat, now: real)
    requires w.places == Lone(id, tag) && tag < |w.records| && w.cfg.expectedETCDCount == 1 && w.cfg.ha == None
    requires w.records[tag].id == id && w.records[tag].roles == BOTH_ROLES && w.records[tag].state.Some?
    ensures var agent, facts := w.records[tag], Survey(CacheOf(w), now);
      && (agent.HasProvisioned(ETCD) && agent.HasProvisioned(Master) ==>
          PhaseAfter(w, agent, facts, {}) == PHASE_DEPLOYED)
      && (!agent.HasProvisioned(ETCD) ==> PhaseAfter(w, agent, facts, {}) == PHASE_DEPLOYING)
  {
    LoneCache(w, id, tag);
    var agent := w.records[tag];
    PhaseByStage(w, agent, Survey(CacheOf(w), now), {});
    LoneFacts(w.cfg, agent, now);
    hide PhaseAfter, CacheOf, Survey, Stage;
  }

  lemma LoneFacts(cfg: ClusterSettings, agent: Agent, now: real)
    requires cfg.expectedETCDCount == 1 && cfg.ha == None && agent.roles == BOTH_ROLES && agent.state.Some?
    ensures var facts := Survey(LoneOf(agent), now);
      && (agent.HasProvisioned(ETCD) && agent.HasProvisioned(Master) ==> Stage(cfg, agent, facts) == 4)
      && (!agent.HasProvisioned(ETCD) ==> Stage(cfg, agent, facts) == 0)
  {
    hide Addresses;
    var c := LoneOf(agent);
    assert ProvisionedIds(c, ETCD) == if agent.HasProvisioned(ETCD) then {agent.id} else {};
    assert ProvisionedIds(c, Master) == if agent.HasProvisioned(Master) then {agent.id} else {};
    hide ProvisionedIds;
  }

  lemma RunTwo(w: World, a: Step, b: Step)
    ensures Run(w, [a, b]) == Do(Do(w, a), b)
  {
    hide Do;
    assert [a, b][1..] == [b] && [b][1..] == [];
    assert Run(Do(w, a), [b]) == Run(Do(Do(w, a), b), []);
  }

  // ---------- a removed agent that stays cached, and what it does to its new registration ----------

  function Removal(id: string): seq<Step> {
    [RemoveState(id), RemoveSettings(id), Begin(true), Begin(true)]
  }

  // A query that nothing interrupts, answered from what the cache shows, and saved.
  ghost function AsksNow(w: World, q: nat, id: string): seq<Step> {
    QuerySteps(q, id, Survey(CacheOf(w), 0.0), {}, true)
  }

  // The part of a query up to the scheduler's answer.
  ghost function Asks(w: World, q: nat, id: string): seq<Step> {
    [LookUp(q, id), Note(q), Decide(q, Survey(CacheOf(w), 0.0), {})]
  }

  lemma AsksAndHolds(w: World, q: nat, id: string)
    requires MayQuery(w, q, id)
    ensures var agent, tag := Found(w, id), w.places.First(id).value;
      var phase := PhaseAfter(w, agent, Survey(CacheOf(w), 0.0), {});
      Run(w, Asks(w, q, id)) == w.(records := w.records[tag := agent.(phase := phase)],
                                   flights := w.flights[q := Answered(tag, agent.phase)])
  {
    hide Run, Do, Survey, CacheOf, WellFormed, PhaseAfter, Found, Collections.First;
    var facts := Survey(CacheOf(w), 0.0);
    QueryAsks(w, q, id, facts, {});
    RunThree(w, LookUp(q, id), Note(q), Decide(q, facts, {}));
  }

  // Its two deletions are handled when its settings are gone, so both are skipped.
  lemma RemovedAgentStaysCached(cfg: ClusterSettings, agent: Agent, good: AgentState, bad: AgentState)
    returns (end: World)
    requires Cast(cfg, agent, good, bad)
    ensures end == Run(Scene(cfg, agent, good),
        Removal(agent.id))
    ensures end.settings == map[] && end.states == map[] && end.queue == [] && end.hand == Idle && end.flights == map[]
    ensures end.cfg == cfg && end.places == Lone(agent.id, 0) && end.records == [agent.(state := Some(good))]
    ensures WellFormed(end) && Cached(end, agent.id)
  {
    var w := Scene(cfg, agent, good);
    SceneIsWellFormed(cfg, agent, good, bad);
    RunKeepsForm(w, Removal(agent.id));
    end := HandledTooLate(cfg, agent, good);
    hide *;
  }

  lemma HandledTooLate(cfg: ClusterSettings, agent: Agent, good: AgentState) returns (end: World)
    ensures end == Run(Scene(cfg, agent, good),
        Removal(agent.id))
    ensures end.settings == map[] && end.states == map[] && end.queue == [] && end.hand == Idle && end.flights == map[]
    ensures end.cfg == cfg && end.places == Lone(agent.id, 0) && end.records == [agent.(state := Some(good))]
    ensures Cached(end, agent.id)
  {
    var w := Scene(cfg, agent, good);
    RunFour(w, RemoveState(agent.id), RemoveSettings(agent.id), Begin(true), Begin(true));
    hide Run;
    var w1 := Do(w, RemoveState(agent.id));
    assert w1.states == map[] && w1.queue == [Event(agent.id, true, 1)];
    var w2 := Do(w1, RemoveSettings(agent.id));
    assert w2.settings == map[] && w2.queue == [Event(agent.id, true, 1), Event(agent.id, true, 2)];
    var w3 := Do(w2, Begin(true));
    assert w3 == w2.(queue := [Event(agent.id, true, 2)]);
    end := Do(w3, Begin(true));
    assert end == w2.(queue := []);
    assert agent.id in end.places.At(ETCD);
  }

  // The agent registers again, now as a minion; then it asks for work, and the query finds the old record, puts it into
  // the deployed phase and saves it, old roles and all, over the new registration.
  lemma GhostOverwritesRegistration(cfg: ClusterSettings, agent: Agent, good: AgentState, bad: AgentState)
    requires Cast(cfg, agent, good, bad)
    ensures var again := agent.(roles := Roles(false, false, true, false), state := Some(bad));
      var removed := Run(Scene(cfg, agent, good), Removal(agent.id));
      var registered := Run(removed, [Check(0, again, ""), Put(0, true)]);
      var asked := Run(registered, AsksNow(registered, 1, agent.id));
      && agent.id in registered.settings && registered.settings[agent.id].roles == Roles(false, false, true, false)
      && agent.id in asked.settings && asked.settings[agent.id].roles == BOTH_ROLES
  {
    hide Run, WellFormed, Do, Survey, PhaseAfter, QuerySteps, CacheOf, Collections.First, Removal;
    var removed := RemovedAgentStaysCached(cfg, agent, good, bad);
    var again := agent.(roles := Roles(false, false, true, false), state := Some(bad));
    RunTwo(removed, Check(0, again, ""), Put(0, true));
    RunKeepsForm(removed, [Check(0, again, ""), Put(0, true)]);
    Checked(removed, 0, again);
    Landed(Do(removed, Check(0, again, "")), 0, again);
    var registered := Do(Do(removed, Check(0, again, "")), Put(0, true));
    assert map[0 := Sending(again)] - {0} == map[];
    LoneCache(registered, agent.id, 0);
    LoneStage(registered, agent.id, 0, 0.0);
    QueryStores(registered, 1, agent.id, Survey(CacheOf(registered), 0.0), {}, true);
  }

  // Without registering again: a query finds the removed agent in the cache, still pending, and stores its settings.
  lemma RemovedAgentIsStoredAgain(cfg: ClusterSettings, agent: Agent, good: AgentState, bad: AgentState)
    requires Cast(cfg, agent, good, bad)
    ensures var removed := Run(Scene(cfg, agent, good), Removal(agent.id));
      var asked := Run(removed, AsksNow(removed, 0, agent.id));
      agent.id !in removed.settings && agent.id in asked.settings && asked.settings[agent.id].roles == agent.roles
  {
    hide Run, WellFormed, Survey, QuerySteps, CacheOf, Removal;
    var removed := RemovedAgentStaysCached(cfg, agent, good, bad);
    PendingAsks(removed, agent, good, bad, 0, good, 0);
  }

  // ---------- two registrations of one id ----------

  // Both find no settings; the second to land takes the place of the first, whatever it was told.
  lemma OvertakenRegistrationOverwrites(w: World, agent: Agent, other: Agent)
    requires w.flights == map[] && agent.id == other.id && agent.roles != other.roles
    requires agent.id != "" && agent.id !in w.settings && agent.state.Some? && other.state.Some?
    requires agent.clusterId == other.clusterId == w.cfg.id
    ensures var first := Run(w, [Check(0, agent, ""), Check(1, other, ""), Put(0, true)]);
      && agent.id in first.settings && first.settings[agent.id].roles == agent.roles
      && agent.id in Do(first, Put(1, true)).settings && Do(first, Put(1, true)).settings[agent.id].roles == other.roles
  {
    RunThree(w, Check(0, agent, ""), Check(1, other, ""), Put(0, true));
    var w1 := Do(w, Check(0, agent, ""));
    Checked(w, 0, agent);
    Checked(w1, 1, other);
    var w2 := Do(w1, Check(1, other, ""));
    Landed(w2, 0, agent);
    Landed(Do(w2, Put(0, true)), 1, other);
    hide Run, Do;
    assert w2.flights - {0} == map[1 := Sending(other)];
  }

  lemma Checked(w: World, q: nat, agent: Agent)
    requires q !in w.flights && MayRegister(w, agent, "") && agent.id != ""
    ensures Do(w, Check(q, agent, "")) == w.(flights := w.flights[q := Sending(agent)])
  {
  }

  lemma Landed(w: World, q: nat, message: Agent)
    ensures q in w.flights && w.flights[q] == Sending(message) ==>
      Do(w, Put(q, true)) == PutSettings(w.(flights := w.flights - {q}), message)
  {
  }

  // ---------- a lost event ----------

  // The agent reports, the read of its state fails, and the watcher goes on: nothing is queued, and the cache is stale.
  lemma LostEventLeavesCacheStale(cfg: ClusterSettings, agent: Agent, good: AgentState, bad: AgentState)
    returns (end: World)
    requires Cast(cfg, agent, good, bad)
    ensures end == Run(Scene(cfg, agent, good), [SaveState(agent.id, bad, 0), Begin(true), ReadState(false), Finish])
    ensures end.queue == [] && end.hand == Idle && CacheOf(end) != Project(Joined(end))
  {
    var w := Scene(cfg, agent, good);
    RunFour(w, SaveState(agent.id, bad, 0), Begin(true), ReadState(false), Finish);
    hide Run;
    var w1 := Do(w, SaveState(agent.id, bad, 0));
    assert w1.queue == [Event(agent.id, false, 1)];
    var w2 := Do(w1, Begin(true));
    assert w2.queue == [] && w2.hand == GotSettings(Event(agent.id, false, 1), agent);
    end := Do(w2, ReadState(false));
    assert end == w1.(queue := []) && Do(end, Finish) == end;
    hide Do;
    LoneCache(end, agent.id, 0);
    var reported := agent.(state := Some(bad));
    assert Joined(end) == map[agent.id := reported];
    LoneProject(reported);
    hide CacheOf, Joined, Project;
    assert CacheOf(end).etcd[agent.id] == agent.(state := Some(good));
  }

  // ---------- lowering the stored phase ----------

  // The agent is cached alone, in one record, still pending.
  ghost predicate Pending(w: World, agent: Agent, tag: nat, state: AgentState) {
    && WellFormed(w) && w.cfg.expectedETCDCount == 1 && w.cfg.ha == None && w.places == Lone(agent.id, tag)
    && w.flights == map[] && tag < |w.records| && w.records[tag] == agent.(state := Some(state))
  }

  lemma PendingAsks(w: World, agent: Agent, good: AgentState, bad: AgentState, tag: nat, state: AgentState, q: nat)
    requires Pending(w, agent, tag, state) && Cast(w.cfg, agent, good, bad)
    requires (state.provisionedETCD && state.provisionedMaster) || !state.provisionedETCD
    ensures var phase := if state.provisionedETCD then PHASE_DEPLOYED else PHASE_DEPLOYING;
      var record := agent.(state := Some(state), phase := phase);
      Run(w, QuerySteps(q, agent.id, Survey(CacheOf(w), 0.0), {}, true))
        == PutSettings(w.(records := w.records[tag := record]), record)
  {
    hide Run, QuerySteps, Survey, CacheOf, PhaseAfter, WellFormed, Collections.First;
    LoneCache(w, agent.id, tag);
    LoneStage(w, agent.id, tag, 0.0);
    QueryStores(w, q, agent.id, Survey(CacheOf(w), 0.0), {}, true);
  }

  // A pending agent that is found deployed has that stored; one that is found deploying has that stored.
  lemma AsksAndStores(w: World, agent: Agent, good: AgentState, bad: AgentState, tag: nat, deployed: bool, q: nat)
    returns (end: World)
    requires Pending(w, agent, tag, if deployed then good else bad) && Cast(w.cfg, agent, good, bad)
    ensures end == Run(w, AsksNow(w, q, agent.id))
    ensures WellFormed(end) && end.cfg == w.cfg && end.places == w.places && |end.records| == |w.records|
    ensures end.flights == map[] && end.leases == w.leases && end.hand == w.hand && agent.id in end.settings
    ensures end.settings[agent.id].phase == if deployed then PHASE_DEPLOYED else PHASE_DEPLOYING
  {
    PendingAsks(w, agent, good, bad, tag, if deployed then good else bad, q);
    RunKeepsForm(w, QuerySteps(q, agent.id, Survey(CacheOf(w), 0.0), {}, true));
    end := Run(w, QuerySteps(q, agent.id, Survey(CacheOf(w), 0.0), {}, true));
    hide Run, QuerySteps, Survey, CacheOf, WellFormed;
  }

  // The watcher reads the settings of the pending agent; the agent asks, is found deployed, and that is saved. Then a
  // component goes down, the watcher caches what it read, and the next query finds the agent pending: the deploying
  // phase is saved over the deployed one. (The save lands while the watcher holds the agent.)
  lemma OvertakenRefreshLowersPhase(cfg: ClusterSettings, agent: Agent, good: AgentState, bad: AgentState)
    requires Cast(cfg, agent, good, bad)
    ensures var read := Run(Scene(cfg, agent, good), [SaveState(agent.id, good, 0), Begin(true)]);
      var saved := Run(read, AsksNow(read, 0, agent.id));
      var cached := Run(saved, [SaveState(agent.id, bad, 0), ReadState(true), Finish]);
      var asked := Run(cached, AsksNow(cached, 1, agent.id));
      && agent.id in saved.settings && saved.settings[agent.id].phase == PHASE_DEPLOYED
      && agent.id in asked.settings && asked.settings[agent.id].phase == PHASE_DEPLOYING
  {
    hide Run, AsksNow, Pending, Scene;
    var read := HalfRefreshed(cfg, agent, good, bad);
    var saved := AsksAndStores(read, agent, good, bad, 0, true, 0);
    var cached := OldReadIsCached(saved, agent, good, bad);
    var asked := AsksAndStores(cached, agent, good, bad, 1, false, 1);
  }

  lemma HalfRefreshed(cfg: ClusterSettings, agent: Agent, good: AgentState, bad: AgentState) returns (read: World)
    requires Cast(cfg, agent, good, bad)
    ensures read == Run(Scene(cfg, agent, good), [SaveState(agent.id, good, 0), Begin(true)])
    ensures Pending(read, agent, 0, good) && read.cfg == cfg && read.leases == {0} && |read.records| == 1
    ensures read.places == Lone(agent.id, 0) && read.hand == GotSettings(Event(agent.id, false, 1), agent)
  {
    var w := Scene(cfg, agent, good);
    SceneIsWellFormed(cfg, agent, good, bad);
    RunTwo(w, SaveState(agent.id, good, 0), Begin(true));
    StepKeepsForm(w, SaveState(agent.id, good, 0));
    StepKeepsForm(Do(w, SaveState(agent.id, good, 0)), Begin(true));
    hide Run, WellFormed;
    assert Do(w, SaveState(agent.id, good, 0)).queue == [Event(agent.id, false, 1)];
    read := Do(Do(w, SaveState(agent.id, good, 0)), Begin(true));
  }

  lemma RunThree(w: World, a: Step, b: Step, c: Step)
    ensures Run(w, [a, b, c]) == Do(Do(Do(w, a), b), c)
  {
    hide Do;
    assert [a, b, c][1..] == [b, c];
    RunTwo(Do(w, a), b, c);
  }

  lemma OldReadIsCached(w: World, agent: Agent, good: AgentState, bad: AgentState) returns (end: World)
    requires WellFormed(w) && Cast(w.cfg, agent, good, bad) && w.places == Lone(agent.id, 0) && |w.records| == 1
    requires w.flights == map[] && 0 in w.leases && w.hand == GotSettings(Event(agent.id, false, 1), agent)
    ensures end == Run(w, [SaveState(agent.id, bad, 0), ReadState(true), Finish])
    ensures Pending(end, agent, 1, bad) && end.cfg == w.cfg && end.settings == w.settings
  {
    RunKeepsForm(w, [SaveState(agent.id, bad, 0), ReadState(true), Finish]);
    RunThree(w, SaveState(agent.id, bad, 0), ReadState(true), Finish);
    end := Run(w, [SaveState(agent.id, bad, 0), ReadState(true), Finish]);
    hide Run, WellFormed, Do;
    var w1 := Do(w, SaveState(agent.id, bad, 0));
    Reported(w, agent.id, bad);
    ReadIsCached(w1, agent, bad);
  }

  lemma Reported(w: World, id: string, state: AgentState)
    requires 0 in w.leases
    ensures var next := Do(w, SaveState(id, state, 0));
      && next == w.(states := w.states[id := Bound(state, 0)], rev := next.rev,
          queue := w.queue + [Event(id, false, w.rev + 1)])
  {
  }

  lemma ReadIsCached(w: World, agent: Agent, state: AgentState)
    requires w.places == Lone(agent.id, 0) && |w.records| == 1 && agent.roles == BOTH_ROLES
    requires agent.id in w.states && w.states[agent.id].state == state
    requires w.hand == GotSettings(Event(agent.id, false, 1), agent)
    ensures var end, cached := Do(Do(w, ReadState(true)), Finish), agent.(state := Some(state));
      end == w.(hand := Idle, places := Lone(agent.id, 1), records := w.records + [cached])
  {
    assert Do(w, ReadState(true)).hand == GotAgent(Event(agent.id, false, 1), agent.(state := Some(state)));
    assert Lone(agent.id, 0).With(BOTH_ROLES, agent.id, 1) == Lone(agent.id, 1);
  }

  // The same without any save landing during a refresh: a query holds its record while a whole refresh replaces it;
  // the deployed phase is then saved from the old record, and the next query finds the new one, still pending.
  // (The refresh completes during the query.)
  lemma ReplacedRecordLowersPhase(cfg: ClusterSettings, agent: Agent, good: AgentState, bad: AgentState)
    requires Cast(cfg, agent, good, bad)
    ensures var w := Scene(cfg, agent, good);
      var asking := Run(w, Asks(w, 0, agent.id));
      var refreshed := Run(asking, [SaveState(agent.id, bad, 0), Begin(true), ReadState(true), Finish]);
      var saved := Run(refreshed, [Compare(0), Encode(0), Put(0, true)]);
      var asked := Run(saved, AsksNow(saved, 1, agent.id));
      && agent.id in saved.settings && saved.settings[agent.id].phase == PHASE_DEPLOYED && saved.hand == Idle
      && agent.id in asked.settings && asked.settings[agent.id].phase == PHASE_DEPLOYING
  {
    hide Run, AsksNow, Asks, Scene, WellFormed;
    var asking := Decided(cfg, agent, good, bad);
    var refreshed := RefreshedMeanwhile(asking, agent, good, bad);
    var saved := OldRecordIsSaved(refreshed, agent, good, bad);
    var asked := AsksAndStores(saved, agent, good, bad, 1, false, 1);
  }

  // A query found the agent deployed, in the record it holds.
  ghost predicate Deciding(w: World, agent: Agent, good: AgentState) {
    && WellFormed(w) && w.cfg.expectedETCDCount == 1 && w.cfg.ha == None && w.leases == {0} && w.hand == Idle
    && w.flights == map[0 := Answered(0, PHASE_PENDING)] && agent.id in w.settings
    && |w.records| > 0 && w.records[0] == agent.(state := Some(good), phase := PHASE_DEPLOYED)
  }

  lemma Decided(cfg: ClusterSettings, agent: Agent, good: AgentState, bad: AgentState) returns (end: World)
    requires Cast(cfg, agent, good, bad)
    ensures end == Run(Scene(cfg, agent, good), Asks(Scene(cfg, agent, good), 0, agent.id))
    ensures Deciding(end, agent, good) && end.cfg == cfg && end.settings == map[agent.id := agent]
    ensures end.places == Lone(agent.id, 0) && |end.records| == 1 && end.queue == [] && end.rev == 0 && end.syncRev == 0
  {
    hide Run, Asks, Survey, CacheOf, WellFormed, PhaseAfter, Collections.First;
    var w := Scene(cfg, agent, good);
    SceneIsWellFormed(cfg, agent, good, bad);
    LoneCache(w, agent.id, 0);
    LoneStage(w, agent.id, 0, 0.0);
    AsksAndHolds(w, 0, agent.id);
    RunKeepsForm(w, Asks(w, 0, agent.id));
    end := Run(w, Asks(w, 0, agent.id));
  }

  lemma RefreshedMeanwhile(w: World, agent: Agent, good: AgentState, bad: AgentState) returns (end: World)
    requires Deciding(w, agent, good) && Cast(w.cfg, agent, good, bad) && w.settings == map[agent.id := agent]
    requires w.places == Lone(agent.id, 0) && |w.records| == 1 && w.queue == [] && w.rev == 0 && w.syncRev == 0
    ensures end == Run(w, [SaveState(agent.id, bad, 0), Begin(true), ReadState(true), Finish])
    ensures Deciding(end, agent, good) && end.cfg == w.cfg && end.places == Lone(agent.id, 1)
    ensures |end.records| == 2 && end.records[1] == agent.(state := Some(bad))
  {
    RunKeepsForm(w, [SaveState(agent.id, bad, 0), Begin(true), ReadState(true), Finish]);
    RunFour(w, SaveState(agent.id, bad, 0), Begin(true), ReadState(true), Finish);
    end := Run(w, [SaveState(agent.id, bad, 0), Begin(true), ReadState(true), Finish]);
    Reported(w, agent.id, bad);
    var w1 := Do(w, SaveState(agent.id, bad, 0));
    BeginKeeps(w1, Begin(true));
    hide Run, WellFormed, Do;
    assert w1.queue == [Event(agent.id, false, 1)];
    var w2 := Do(w1, Begin(true));
    assert w2.hand == GotSettings(Event(agent.id, false, 1), agent);
    ReadIsCached(w2, agent, bad);
  }

  lemma OldRecordIsSaved(w: World, agent: Agent, good: AgentState, bad: AgentState) returns (end: World)
    requires Deciding(w, agent, good) && Cast(w.cfg, agent, good, bad) && w.places == Lone(agent.id, 1)
    requires |w.records| == 2 && w.records[1] == agent.(state := Some(bad))
    ensures end == Run(w, [Compare(0), Encode(0), Put(0, true)])
    ensures Pending(end, agent, 1, bad) && end.cfg == w.cfg && end.hand == Idle
    ensures agent.id in end.settings && end.settings[agent.id].phase == PHASE_DEPLOYED
  {
    hide Run, WellFormed, Do;
    RunKeepsForm(w, [Compare(0), Encode(0), Put(0, true)]);
    RunThree(w, Compare(0), Encode(0), Put(0, true));
    end := Run(w, [Compare(0), Encode(0), Put(0, true)]);
    var alone := w.(flights := map[]);
    assert w == alone.(flights := alone.flights[0 := Answered(0, PHASE_PENDING)]);
    QuerySends(alone, 0, 0, PHASE_PENDING, true);
  }

  // ---------- two queries that overlap ----------

  // An ETCD agent that is provisioned, and the only master.
  ghost predicate Couple(cfg: ClusterSettings, x: Agent, y: Agent, atX: AgentState) {
    && cfg.expectedETCDCount == 1 && cfg.ha == None && x.clusterId == cfg.id && y.clusterId == cfg.id
    && x.id != y.id && x.state == None && y.state == None && atX.provisionedETCD
    && x.roles == Roles(true, false, false, false) && y.roles == Roles(false, true, false, false)
  }

  function CouplePlaces(x: string, y: string, tag: nat): Collections<nat> {
    Collections(map[x := 0], map[y := tag], map[], map[], map[])
  }

  // Both are stored and cached, the ETCD agent with a phase of its own in the cache.
  function CoupleScene(cfg: ClusterSettings, x: Agent, y: Agent, atX: AgentState, atY: AgentState, phase: int): World {
    World(cfg, map[x.id := x, y.id := y], map[x.id := Bound(atX, 0), y.id := Bound(atY, 0)], {0}, 1, 0, 0, [], Idle,
          CouplePlaces(x.id, y.id, 1), [x.(state := Some(atX), phase := phase), y.(state := Some(atY))], map[])
  }

  // The ETCD agent is cached in this record, and the master is or is not provisioned in its.
  ghost predicate CoupleAt(w: World, x: Agent, y: Agent, atX: AgentState, phase: int, master: bool, tag: nat) {
    && WellFormed(w) && Couple(w.cfg, x, y, atX) && w.places == CouplePlaces(x.id, y.id, tag) && 0 < tag < |w.records|
    && w.records[0] == x.(state := Some(atX), phase := phase) && w.records[tag].HasProvisioned(Master) == master
    && y.id in w.settings && w.settings[y.id] == y && w.hand == Idle && w.queue == [] && 0 in w.leases
  }

  lemma CoupleStarts(cfg: ClusterSettings, x: Agent, y: Agent, atX: AgentState, atY: AgentState, phase: int)
    requires Couple(cfg, x, y, atX)
    ensures CoupleAt(CoupleScene(cfg, x, y, atX, atY, phase), x, y, atX, phase, atY.provisionedMaster, 1)
  {
  }

  lemma CoupleCache(w: World, x: string, y: string, tag: nat)
    requires w.places == CouplePlaces(x, y, tag) && tag < |w.records|
    ensures CacheOf(w) == Cache(map[x := w.records[0]], map[y := w.records[tag]], map[], map[], map[])
    ensures w.places.First(x) == Some(0)
  {
  }

  lemma CoupleStage(cfg: ClusterSettings, a: Agent, b: Agent, x: string, y: string, now: real)
    requires cfg.expectedETCDCount == 1 && cfg.ha == None
    requires a.roles == Roles(true, false, false, false) && a.HasProvisioned(ETCD)
    ensures var facts := Survey(Cache(map[x := a], map[y := b], map[], map[], map[]), now);
      Stage(cfg, a, facts) == if b.HasProvisioned(Master) then 4 else 1
  {
    hide Addresses;
    var c := Cache(map[x := a], map[y := b], map[], map[], map[]);
    assert ProvisionedIds(c, ETCD) == {x};
    assert ProvisionedIds(c, Master) == if b.HasProvisioned(Master) then {y} else {};
    hide ProvisionedIds;
  }

  function PhaseIf(master: bool): int {
    if master then PHASE_DEPLOYED else PHASE_DEPLOYING
  }

  // The scheduler puts the ETCD agent in the deployed phase exactly when the master is provisioned.
  lemma CouplePhase(w: World, x: Agent, y: Agent, atX: AgentState, phase: int, master: bool, tag: nat)
    requires CoupleAt(w, x, y, atX, phase, master, tag)
    ensures w.places.First(x.id) == Some(0)
    ensures PhaseAfter(w, w.records[0], Survey(CacheOf(w), 0.0), {}) == PhaseIf(master)
  {
    hide PhaseAfter, CacheOf, Survey, Stage, WellFormed;
    CoupleCache(w, x.id, y.id, tag);
    PhaseByStage(w, w.records[0], Survey(CacheOf(w), 0.0), {});
    CoupleStage(w.cfg, w.records[0], w.records[tag], x.id, y.id, 0.0);
  }

  lemma CoupleAsks(w: World, x: Agent, y: Agent, atX: AgentState, phase: int, master: bool, tag: nat, q: nat)
    returns (end: World)
    requires CoupleAt(w, x, y, atX, phase, master, tag) && q !in w.flights
    ensures end == Run(w, Asks(w, q, x.id)) && CoupleAt(end, x, y, atX, PhaseIf(master), master, tag)
    ensures end.flights == w.flights[q := Answered(0, phase)] && end.settings == w.settings && end.cfg == w.cfg
    ensures |end.records| == |w.records|
  {
    hide Run, Asks, Survey, CacheOf, PhaseAfter, WellFormed, Collections.First;
    CouplePhase(w, x, y, atX, phase, master, tag);
    AsksAndHolds(w, q, x.id);
    RunKeepsForm(w, Asks(w, q, x.id));
    end := Run(w, Asks(w, q, x.id));
  }

  // The agent reports, and the watcher caches that.
  function Reporting(id: string, state: AgentState): seq<Step> {
    [SaveState(id, state, 0), Begin(true), ReadState(true), Finish]
  }

  lemma MasterReports(w: World, x: Agent, y: Agent, atX: AgentState, phase: int, master: bool, tag: nat,
                      state: AgentState)
    returns (end: World)
    requires CoupleAt(w, x, y, atX, phase, master, tag)
    ensures end == Run(w, Reporting(y.id, state))
    ensures CoupleAt(end, x, y, atX, phase, state.provisionedMaster, |w.records|)
    ensures end.flights == w.flights && end.settings == w.settings && end.cfg == w.cfg
  {
    hide Run, WellFormed, Do;
    RunKeepsForm(w, Reporting(y.id, state));
    RunFour(w, SaveState(y.id, state, 0), Begin(true), ReadState(true), Finish);
    end := Run(w, Reporting(y.id, state));
    Reported(w, y.id, state);
    var w1 := Do(w, SaveState(y.id, state, 0));
    BeginKeeps(w1, Begin(true));
    StampOf(w);
    assert w1.queue == [Event(y.id, false, w.rev + 1)];
    var w2 := Do(w1, Begin(true));
    assert w2.hand == GotSettings(Event(y.id, false, w.rev + 1), y);
    MasterReadIsCached(w2, x.id, y, tag, w.rev + 1, state);
  }

  lemma StampOf(w: World)
    requires WellFormed(w)
    ensures w.syncRev <= w.rev
  {
  }

  lemma MasterReadIsCached(w: World, x: string, y: Agent, tag: nat, rev: nat, state: AgentState)
    requires w.places == CouplePlaces(x, y.id, tag) && y.roles == Roles(false, true, false, false)
    requires y.id in w.states && w.states[y.id].state == state && w.hand == GotSettings(Event(y.id, false, rev), y)
    ensures var end, cached := Do(Do(w, ReadState(true)), Finish), y.(state := Some(state));
      end == w.(hand := Idle, places := CouplePlaces(x, y.id, |w.records|), records := w.records + [cached])
  {
    assert Do(w, ReadState(true)).hand == GotAgent(Event(y.id, false, rev), y.(state := Some(state)));
    assert CouplePlaces(x, y.id, tag).With(y.roles, y.id, |w.records|) == CouplePlaces(x, y.id, |w.records|);
  }

  // One query finds the ETCD agent deploying and is on its way to save that; the master reports and is cached; a second
  // query finds the agent deployed, and that is saved; then the first save lands. (A save of another request about the
  // agent landed while this one was under way.)
  lemma OverlappingQueriesLowerPhase(cfg: ClusterSettings, x: Agent, y: Agent, atX: AgentState, atY: AgentState)
    requires Couple(cfg, x, y, atX) && x.phase == PHASE_PENDING && !atY.provisionedMaster
    ensures var w := CoupleScene(cfg, x, y, atX, atY, PHASE_PENDING);
      var sending := Run(Run(w, Asks(w, 0, x.id)), [Compare(0), Encode(0)]);
      var refreshed := Run(sending, Reporting(y.id, atY.(provisionedMaster := true)));
      var saved := Run(refreshed, AsksNow(refreshed, 1, x.id));
      var end := Do(saved, Put(0, true));
      && x.id in saved.settings && saved.settings[x.id].phase == PHASE_DEPLOYED
      && x.id in end.settings && end.settings[x.id].phase == PHASE_DEPLOYING
  {
    hide Run, Do, Asks, AsksNow, CoupleScene, WellFormed, Reporting, CoupleAt;
    var w := CoupleScene(cfg, x, y, atX, atY, PHASE_PENDING);
    CoupleStarts(cfg, x, y, atX, atY, PHASE_PENDING);
    CoupleStartsQuietly(cfg, x, y, atX, atY, PHASE_PENDING);
    var asked := CoupleAsks(w, x, y, atX, PHASE_PENDING, false, 1, 0);
    var sending := CoupleSends(asked, x, y, atX);
    var refreshed := MasterReports(sending, x, y, atX, PHASE_DEPLOYING, false, 1, atY.(provisionedMaster := true));
    var saved := SecondIsSaved(refreshed, x, y, atX, |sending.records|);
    Landed(saved, 0, x.(state := Some(atX), phase := PHASE_DEPLOYING));
  }

  lemma CoupleStartsQuietly(cfg: ClusterSettings, x: Agent, y: Agent, atX: AgentState, atY: AgentState, phase: int)
    ensures var w := CoupleScene(cfg, x, y, atX, atY, phase);
      w.flights == map[] && x.id in w.settings && (x.id != y.id ==> w.settings[x.id] == x)
  {
  }

  lemma CoupleSends(w: World, x: Agent, y: Agent, atX: AgentState) returns (end: World)
    requires CoupleAt(w, x, y, atX, PHASE_DEPLOYING, false, 1) && w.flights == map[0 := Answered(0, PHASE_PENDING)]
    ensures end == Run(w, [Compare(0), Encode(0)]) && CoupleAt(end, x, y, atX, PHASE_DEPLOYING, false, 1)
    ensures end.flights == map[0 := Sending(x.(state := Some(atX), phase := PHASE_DEPLOYING))]
    ensures end.settings == w.settings
  {
    hide Run, Do, WellFormed;
    RunTwo(w, Compare(0), Encode(0));
    RunKeepsForm(w, [Compare(0), Encode(0)]);
    end := Run(w, [Compare(0), Encode(0)]);
    CompareTells(w, 0);
    assert Do(w, Compare(0)) == w.(flights := map[0 := Raised(0)]);
    EncodeSends(Do(w, Compare(0)), 0);
  }

  lemma SecondIsSaved(w: World, x: Agent, y: Agent, atX: AgentState, tag: nat) returns (end: World)
    requires CoupleAt(w, x, y, atX, PHASE_DEPLOYING, true, tag) && 1 !in w.flights
    ensures end == Run(w, AsksNow(w, 1, x.id))
    ensures x.id in end.settings && end.settings[x.id].phase == PHASE_DEPLOYED && end.flights == w.flights
  {
    hide Run, QuerySteps, Survey, CacheOf, PhaseAfter, WellFormed, Collections.First;
    CouplePhase(w, x, y, atX, PHASE_DEPLOYING, true, tag);
    QueryStores(w, 1, x.id, Survey(CacheOf(w), 0.0), {}, true);
    end := Run(w, AsksNow(w, 1, x.id));
  }

  // A query finds the agent deployed, compares, and has still to encode the record; the master goes down and that is
  // cached; a second query finds the agent deploying, writes that into the shared record, and has nothing to save; then
  // the first query encodes the record as it is now and saves the deploying phase over the deployed one.
  // (The second query decides between the comparison and the encoding of the first.)
  lemma EncodedLateLowersPhase(cfg: ClusterSettings, x: Agent, y: Agent, atX: AgentState, atY: AgentState)
    requires Couple(cfg, x, y, atX) && x.phase == PHASE_DEPLOYED && atY.provisionedMaster
    ensures var w := CoupleScene(cfg, x, y, atX, atY, PHASE_DEPLOYING);
      var asked := Run(w, Asks(w, 0, x.id));
      var raised := Do(asked, Compare(0));
      var refreshed := Run(raised, Reporting(y.id, atY.(provisionedMaster := false)));
      var overtaken := Run(refreshed, Asks(refreshed, 1, x.id));
      var over := Do(overtaken, Compare(1));
      var end := Run(over, [Encode(0), Put(0, true)]);
      && PhaseBehind(w, x.id) && x.id in w.settings && w.settings[x.id].phase == PHASE_DEPLOYED
      && over.flights == map[0 := Raised(0)] && over.hand == Idle
      && x.id in end.settings && end.settings[x.id].phase == PHASE_DEPLOYING
  {
    hide Run, Do, Asks, CoupleScene, WellFormed, Reporting, PhaseBehind;
    var w := CoupleScene(cfg, x, y, atX, atY, PHASE_DEPLOYING);
    CoupleStarts(cfg, x, y, atX, atY, PHASE_DEPLOYING);
    CoupleStartsQuietly(cfg, x, y, atX, atY, PHASE_DEPLOYING);
    CoupleIsBehind(cfg, x, y, atX, atY);
    var asked := CoupleAsks(w, x, y, atX, PHASE_DEPLOYING, true, 1, 0);
    CompareTells(asked, 0);
    StepKeepsForm(asked, Compare(0));
    var raised := Do(asked, Compare(0));
    assert raised.flights == map[0 := Raised(0)];
    var refreshed := MasterReports(raised, x, y, atX, PHASE_DEPLOYED, true, 1, atY.(provisionedMaster := false));
    var overtaken := CoupleAsks(refreshed, x, y, atX, PHASE_DEPLOYED, false, |raised.records|, 1);
    CompareTells(overtaken, 1);
    var over := Do(overtaken, Compare(1));
    assert overtaken.flights - {1} == map[0 := Raised(0)];
    EncodesAndSaves(over, x.(state := Some(atX), phase := PHASE_DEPLOYING));
  }

  lemma CoupleIsBehind(cfg: ClusterSettings, x: Agent, y: Agent, atX: AgentState, atY: AgentState)
    requires Couple(cfg, x, y, atX) && x.phase == PHASE_DEPLOYED
    ensures PhaseBehind(CoupleScene(cfg, x, y, atX, atY, PHASE_DEPLOYING), x.id)
  {
  }

  lemma EncodesAndSaves(w: World, record: Agent)
    requires w.flights == map[0 := Raised(0)] && |w.records| > 0 && w.records[0] == record
    ensures var end := Run(w, [Encode(0), Put(0, true)]);
      record.id in end.settings && end.settings[record.id] == record.(state := None)
  {
    hide Run, Do;
    RunTwo(w, Encode(0), Put(0, true));
    EncodeSends(w, 0);
    Landed(Do(w, Encode(0)), 0, record);
  }
}

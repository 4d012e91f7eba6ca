/**
  Filling a new cluster's cache from the store before the watch starts (doRegister in pkg/cache/cluster_manager.go):
  one pass over the key-ordered snapshot joins settings and states.
 */
module Snapshot {
  import opened Entities
  import opened Caching
  import opened ControlPlane
  import opened Watching
  import opened Phases
  import Keys
  import Text

  // A stored value; one that cannot be decoded as what its key says is skipped.
  datatype Content = Record(agent: Agent) | Report(state: AgentState) | Garbled

  function SettingsKey(c: string, a: string): string {
    Keys.Format(Keys.Settings(c, a))
  }

  function StateKey(c: string, a: string): string {
    Keys.Format(Keys.State(c, a))
  }

  // The keys under the agents' prefix are the settings and states of agents with plain ids.
  ghost predicate AgentKeys(keys: seq<string>, c: string) {
    forall k :: k in keys ==> exists a :: Keys.Plain(a) && (k == SettingsKey(c, a) || k == StateKey(c, a))
  }

  // etcd returns keys in increasing order.
  ghost predicate InKeyOrder(keys: seq<string>) {
    forall i, j :: 0 <= i < j < |keys| ==> Text.Less(keys[i], keys[j])
  }

  function RecordAt(store: map<string, Content>, k: string): Option<Agent> {
    if k in store && store[k].Record? then Some(store[k].agent) else None
  }

  function ReportAt(store: map<string, Content>, k: string): Option<AgentState> {
    if k in store && store[k].Report? then Some(store[k].state) else None
  }

  // What a snapshot says of an agent: its settings, with its state if it has one; nothing without settings.
  function Expected(store: map<string, Content>, c: string, a: string): Option<Agent> {
    match RecordAt(store, SettingsKey(c, a))
    case None => None
    case Some(agent) => Some(agent.(state := ReportAt(store, StateKey(c, a))))
  }

  // The same of the first n keys.
  function Seen(store: map<string, Content>, keys: seq<string>, c: string, a: string): Option<Agent> {
    if SettingsKey(c, a) !in keys || RecordAt(store, SettingsKey(c, a)).None? then None
    else Some(RecordAt(store, SettingsKey(c, a)).value.(
      state := if StateKey(c, a) in keys then ReportAt(store, StateKey(c, a)) else None))
  }

  ghost predicate JoinedSoFar(agents: map<string, Agent>, store: map<string, Content>, keys: seq<string>, c: string) {
    && (forall a :: a in agents ==> Keys.Plain(a))
    && (forall a :: Keys.Plain(a) ==> Get(agents, a) == Seen(store, keys, c, a))
  }

  lemma KeysOf(c: string, a: string, b: string)
    requires Keys.Plain(c) && Keys.Plain(a) && Keys.Plain(b)
    ensures SettingsKey(c, a) != StateKey(c, b)
    ensures (SettingsKey(c, a) == SettingsKey(c, b) || StateKey(c, a) == StateKey(c, b) ==> a == b)
  {
    hide Keys.Format;
    if SettingsKey(c, a) == StateKey(c, b) { Keys.FormatIsInjective(Keys.Settings(c, a), Keys.State(c, b)); }
    if SettingsKey(c, a) == SettingsKey(c, b) { Keys.FormatIsInjective(Keys.Settings(c, a), Keys.Settings(c, b)); }
    if StateKey(c, a) == StateKey(c, b) { Keys.FormatIsInjective(Keys.State(c, a), Keys.State(c, b)); }
  }

  lemma Segments(c: string, a: string)
    requires Keys.Plain(c) && Keys.Plain(a)
    ensures Keys.SubKeys(SettingsKey(c, a)) == [Keys.ROOT, Keys.CLUSTERS, c, Keys.AGENTS, a, Keys.SETTINGS]
    ensures Keys.SubKeys(StateKey(c, a)) == [Keys.ROOT, Keys.CLUSTERS, c, Keys.AGENTS, a, Keys.STATE]
    ensures Keys.SETTINGS != Keys.STATE
  {
    hide Keys.Format, Keys.SubKeys;
    Keys.WordsDiffer();
    Keys.SplitsBackExactlyWhen(Keys.Settings(c, a));
    Keys.SplitsBackExactlyWhen(Keys.State(c, a));
  }

  lemma NoKeyTwice(keys: seq<string>, i: nat)
    requires i < |keys| && InKeyOrder(keys)
    ensures keys[i] !in keys[..i]
  {
    hide Text.Less;
    Text.LessIsTotal(keys[i], keys[i]);
  }

  // In key order no state comes before the settings it belongs to, and no key comes twice.
  lemma SettingsComeFirst(keys: seq<string>, i: nat, c: string, a: string)
    requires i < |keys| && InKeyOrder(keys)
    ensures keys[i] == StateKey(c, a) && SettingsKey(c, a) in keys ==> SettingsKey(c, a) in keys[..i]
    ensures keys[i] == SettingsKey(c, a) ==> StateKey(c, a) !in keys[..i]
  {
    hide Keys.Format, Text.Less;
    Keys.SettingsBeforeState(c, a);
    if keys[i] == StateKey(c, a) && SettingsKey(c, a) in keys {
      var j :| 0 <= j < |keys| && keys[j] == SettingsKey(c, a);
      Text.LessIsTotal(keys[i], keys[j]);
      Text.LessIsTotal(keys[i], keys[i]);
      assert j < i && keys[..i][j] == keys[j];
    }
    if keys[i] == SettingsKey(c, a) {
      Text.LessIsTotal(SettingsKey(c, a), StateKey(c, a));
      forall j | 0 <= j < i ensures keys[j] != StateKey(c, a) {
        assert Text.Less(keys[j], keys[i]);
      }
    }
  }

  // One more key in the order of the snapshot.
  lemma SeenNext(store: map<string, Content>, keys: seq<string>, i: nat, c: string, at: string, a: string)
    requires i < |keys| && Keys.Plain(c) && Keys.Plain(at) && Keys.Plain(a)
    requires keys[i] == SettingsKey(c, at) || keys[i] == StateKey(c, at)
    requires InKeyOrder(keys)
    ensures Seen(store, keys[..i + 1], c, a) ==
      if a != at then Seen(store, keys[..i], c, a)
      else if keys[i] == SettingsKey(c, a) then
        match RecordAt(store, keys[i]) case None => None case Some(agent) => Some(agent.(state := None))
      else match Seen(store, keys[..i], c, a)
        case None => None
        case Some(agent) => Some(agent.(state := ReportAt(store, keys[i])))
    ensures keys[i] == SettingsKey(c, a) ==> Seen(store, keys[..i], c, a) == None
    ensures keys[i] == StateKey(c, a) && Seen(store, keys[..i], c, a).Some? ==>
        Seen(store, keys[..i], c, a).value.state == None
  {
    hide Keys.Format, SettingsKey, StateKey;
    KeysOf(c, at, a);
    KeysOf(c, a, at);
    KeysOf(c, a, a);
    assert keys[..i + 1] == keys[..i] + [keys[i]];
    SettingsComeFirst(keys, i, c, a);
    NoKeyTwice(keys, i);
  }

  lemma SeenNothing(store: map<string, Content>, c: string)
    ensures JoinedSoFar(map[], store, [], c)
  {
    hide SettingsKey, StateKey;
  }

  lemma SeenAll(store: map<string, Content>, keys: seq<string>, c: string, a: string)
    requires forall k :: k in keys <==> k in store
    ensures Seen(store, keys, c, a) == Expected(store, c, a)
  {
    hide SettingsKey, StateKey;
  }

  // What the loop does with one key.
  function Next(agents: map<string, Agent>, isSettings: bool, at: string, content: Content): map<string, Agent> {
    if isSettings then
      if content.Record? then agents[at := content.agent.(state := None)] else agents
    else if content.Report? && at in agents then agents[at := agents[at].(state := Some(content.state))]
    else agents
  }

  lemma OneAgentKey(keys: seq<string>, i: nat, c: string) returns (at: string)
    requires i < |keys| && Keys.Plain(c) && AgentKeys(keys, c)
    ensures Keys.Plain(at) && (keys[i] == SettingsKey(c, at) || keys[i] == StateKey(c, at))
    ensures SettingsKey(c, at) != StateKey(c, at)
    ensures Keys.SubKeys(keys[i]) == [Keys.ROOT, Keys.CLUSTERS, c, Keys.AGENTS, at,
                                      if keys[i] == SettingsKey(c, at) then Keys.SETTINGS else Keys.STATE]
    ensures Keys.SETTINGS != Keys.STATE
  {
    hide SettingsKey, StateKey, Keys.ROOT, Keys.CLUSTERS, Keys.AGENTS, Keys.SETTINGS, Keys.STATE, Keys.SubKeys;
    assert keys[i] in keys;
    at :| Keys.Plain(at) && (keys[i] == SettingsKey(c, at) || keys[i] == StateKey(c, at));
    KeysOf(c, at, at);
    Segments(c, at);
  }

  lemma JoinedNext(agents: map<string, Agent>, store: map<string, Content>, keys: seq<string>, i: nat, c: string,
                   at: string)
    requires i < |keys| && keys[i] in store && Keys.Plain(c) && Keys.Plain(at) && InKeyOrder(keys)
    requires keys[i] == SettingsKey(c, at) || keys[i] == StateKey(c, at)
    requires JoinedSoFar(agents, store, keys[..i], c)
    ensures JoinedSoFar(Next(agents, keys[i] == SettingsKey(c, at), at, store[keys[i]]), store, keys[..i + 1], c)
  {
    hide SettingsKey, StateKey, InKeyOrder, Seen, Keys.Plain;
    var next := Next(agents, keys[i] == SettingsKey(c, at), at, store[keys[i]]);
    KeysOf(c, at, at);
    forall a | Keys.Plain(a) ensures Get(next, a) == Seen(store, keys[..i + 1], c, a) {
      SeenNext(store, keys, i, c, at, a);
    }
  }

  // The loop of the registration: settings make an agent, a state goes to the agent it finds, orphans are dropped.
  method JoinSnapshot(store: map<string, Content>, keys: seq<string>, c: string) returns (agents: map<string, Agent>)
    requires Keys.Plain(c) && AgentKeys(keys, c) && InKeyOrder(keys) && forall k :: k in keys <==> k in store
    ensures forall a :: a in agents ==> Keys.Plain(a)
    ensures forall a :: Keys.Plain(a) ==> Get(agents, a) == Expected(store, c, a)
  {
    hide SettingsKey, StateKey, AgentKeys, InKeyOrder, Seen, Expected, Keys.Plain, Keys.SubKeys, Keys.ROOT;
    hide Keys.CLUSTERS, Keys.AGENTS, Keys.SETTINGS, Keys.STATE;
    agents := map[];
    SeenNothing(store, c);
    for i := 0 to |keys|
      invariant JoinedSoFar(agents, store, keys[..i], c)
    {
      hide JoinedSoFar;
      ghost var at := OneAgentKey(keys, i, c);
      ghost var before := agents;
      var subKeys := Keys.SubKeys(keys[i]);
      if subKeys[0] == Keys.ROOT && subKeys[1] == Keys.CLUSTERS && subKeys[3] == Keys.AGENTS {
        if subKeys[|subKeys| - 1] == Keys.SETTINGS {
          if store[keys[i]].Record? {
            agents := agents[subKeys[4] := store[keys[i]].agent.(state := None)];
          }
        } else if subKeys[|subKeys| - 1] == Keys.STATE {
          if store[keys[i]].Report? && subKeys[4] in agents {
            agents := agents[subKeys[4] := agents[subKeys[4]].(state := Some(store[keys[i]].state))];
          }
        }
      }
      JoinedNext(before, store, keys, i, c, at);
    }
    assert keys[..|keys|] == keys;
    forall a | Keys.Plain(a) ensures Get(agents, a) == Expected(store, c, a) {
      SeenAll(store, keys, c, a);
    }
  }

  // The agents with a state, of those that were handed to the cache already.
  function Online(agents: map<string, Agent>, done: set<string>): map<string, Agent> {
    map id | id in agents && id in done && agents[id].state.Some? :: agents[id]
  }

  ghost predicate FromCluster(agents: map<string, Agent>, clusterId: string) {
    forall id :: id in agents ==> agents[id].id == id && agents[id].clusterId == clusterId
  }

  // Every record was made for an online agent of the cluster, and the collections share one per agent.
  ghost predicate FilledWell(places: Collections<nat>, records: seq<Agent>, clusterId: string) {
    && (forall i :: 0 <= i < |records| ==> records[i].state.Some? && records[i].clusterId == clusterId)
    && (forall x :: Single(places, x))
  }

  // Hands the agents to the cache in whatever order the runtime walks them.
  method FillCache(agents: map<string, Agent>, cache: AgentCache, ghost clusterId: string)
    requires cache.Valid() && cache.made == [] && cache.View() == EMPTY_CACHE && FromCluster(agents, clusterId)
    modifies cache
    ensures cache.Valid() && cache.View() == Project(Online(agents, agents.Keys))
    ensures FilledWell(cache.Places(), cache.Records(), clusterId)
  {
    hide Admit, Evict, Project, Contents, NumbersOf, AllFiled, Shown, Collections.With, Collections.Without, FilledWell;
    var rest := agents.Keys;
    EmptyProject(agents);
    NothingFiled(cache, clusterId);
    while rest != {}
      invariant rest <= agents.Keys
      invariant cache.Valid() && cache.View() == Project(Online(agents, agents.Keys - rest))
      invariant FilledWell(cache.Places(), cache.Records(), clusterId)
      decreases rest
    {
      hide Online;
      var id :| id in rest;
      OnlineNext(agents, rest, id);
      cache.FiledByNumber();
      Newcomer(cache.Places(), cache.Records(), agents, rest, id, clusterId);
      if agents[id].state.None? {
        cache.Offline(agents[id]);
      } else {
        var _ := cache.Online(agents[id]);
      }
      rest := rest - {id};
    }
    assert agents.Keys - rest == agents.Keys;
  }

  lemma EmptyProject(agents: map<string, Agent>)
    ensures EMPTY_CACHE == Project(Online(agents, agents.Keys - agents.Keys))
  {
    assert Online(agents, agents.Keys - agents.Keys) == map[];
  }

  lemma NothingFiled(cache: AgentCache, clusterId: string)
    requires cache.Valid() && cache.made == []
    ensures FilledWell(cache.Places(), cache.Records(), clusterId)
  {
    cache.FiledByNumber();
    forall x, slot: Slot ensures x !in cache.Places().At(slot) {
      if x in cache.Places().At(slot) { FiledAt(cache.Places(), cache.Records(), slot, x); }
    }
  }

  // An agent that was not handed over yet is in no collection.
  lemma Newcomer(places: Collections<nat>, records: seq<Agent>, agents: map<string, Agent>, rest: set<string>,
                 id: string,
                 clusterId: string)
    requires id in rest && rest <= agents.Keys && FromCluster(agents, clusterId) && AllFiledRight(places, records)
    requires Shown(places, records) == Project(Online(agents, agents.Keys - rest))
    requires FilledWell(places, records, clusterId)
    ensures var agent := agents[id];
      && FilledWell(places.Without(agent.roles, id), records, clusterId)
      && (agent.state.Some? ==> FilledWell(places.With(agent.roles, id, |records|), records + [agent], clusterId))
  {
    hide Collections.With, Collections.Without, Collections.At, Shown, Project, AllFiledRight, Single, Read;
    forall slot: Slot ensures id !in places.At(slot) {
      ShownAt(places, records, slot);
      ProjectedAt(Online(agents, agents.Keys - rest), slot, id);
      if id in places.At(slot) {
        FiledAt(places, records, slot, id);
        ReadHas(places.At(slot), records, id);
      }
    }
    forall x ensures Single(places.With(agents[id].roles, id, |records|), x)
      && Single(places.Without(agents[id].roles, id), x) {
      SingleWith(places, agents[id].roles, id, |records|, x);
    }
  }

  lemma ReadHas(m: map<string, nat>, records: seq<Agent>, id: string)
    requires id in m && m[id] < |records|
    ensures id in Read(m, records)
  {
  }

  lemma ProjectedAt(one: map<string, Agent>, slot: Slot, id: string)
    ensures id !in one ==> id !in Project(one).At(slot)
  {
    assert Project(one).At(slot) == Slice(one, slot);
  }

  lemma OnlineNext(agents: map<string, Agent>, rest: set<string>, id: string)
    requires rest <= agents.Keys && id in rest && agents[id].id == id
    ensures var done, next := Online(agents, agents.Keys - rest), Online(agents, agents.Keys - (rest - {id}));
      Project(next)
        == if agents[id].state.None? then Evict(Project(done), agents[id]) else Admit(Project(done), agents[id])
  {
    hide Project, Admit, Evict;
    var done, next := Online(agents, agents.Keys - rest), Online(agents, agents.Keys - (rest - {id}));
    assert agents.Keys - (rest - {id}) == (agents.Keys - rest) + {id};
    OneUpdateIff(done, agents[id]);
    if agents[id].state.None? {
      assert next == done == done - {id};
    } else {
      assert next == done[id := agents[id]];
    }
  }

  // ---------- a registered cluster is in step with the store ----------

  // The snapshot is that of this world, and agent ids survive in keys.
  ghost predicate Depicts(store: map<string, Content>, w: World) {
    && (forall a :: a in w.settings || a in w.states ==> Keys.Plain(a))
    && (forall a :: Keys.Plain(a) ==>
         && RecordAt(store, SettingsKey(w.cfg.id, a)) == Get(w.settings, a)
         && ReportAt(store, StateKey(w.cfg.id, a)) == if a in w.states then Some(w.states[a].state) else None)
  }

  // The world as the watch starts: its revision filter is set, and nothing was written since the snapshot.
  ghost function Registered(w: World, places: Collections<nat>, records: seq<Agent>): World {
    w.(places := places, records := records, hand := Idle, queue := [], syncRev := w.rev, flights := map[])
  }

  lemma RegisteredIsInStep(w: World, places: Collections<nat>, records: seq<Agent>)
    requires WellFormed(w) && AllFiledRight(places, records) && FilledWell(places, records, w.cfg.id)
    requires Shown(places, records) == Project(Joined(w))
    ensures WellFormed(Registered(w, places, records)) && InStep(Registered(w, places, records))
  {
    hide AllFiledRight, Shown, Project, Single;
    SameJoined(w, Registered(w, places, records));
  }

  // Registration leaves the cache as the watch assumes it: the projections of the agents with both keys.
  method DoRegister(store: map<string, Content>, keys: seq<string>, clusterId: string, cache: AgentCache,
                    ghost w: World)
    requires cache.Valid() && cache.made == [] && cache.View() == EMPTY_CACHE
    requires clusterId == w.cfg.id && Keys.Plain(clusterId) && AgentKeys(keys, clusterId) && InKeyOrder(keys)
    requires forall k :: k in keys <==> k in store
    requires WellFormed(w) && Depicts(store, w)
    modifies cache
    ensures cache.Valid()
    ensures var start := Registered(w, cache.Places(), cache.Records());
      WellFormed(start) && InStep(start) && forall x :: Single(start.places, x)
  {
    hide AgentKeys, InKeyOrder, Depicts, Project, Expected, WellFormed, Contents, NumbersOf, AllFiled, Single;
    hide FromCluster;
    var agents := JoinSnapshot(store, keys, clusterId);
    JoinedInStep(store, w, agents);
    FillCache(agents, cache, clusterId);
    cache.FiledByNumber();
    RegisteredIsInStep(w, cache.Places(), cache.Records());
  }

  // From there on stored roles and phases are as the theorems about runs assume.
  lemma InStepStarts(w: World, id: string)
    requires WellFormed(w) && InStep(w) && id in w.settings && Single(w.places, id)
    ensures Alike(w, id) && (w.settings[id].phase <= PHASE_DEPLOYED ==> PhaseBehind(w, id))
  {
    InStepTracks(w, id);
    forall slot: Slot | id in w.places.At(slot)
      ensures w.settings[id].roles.In(slot) && Held(w, slot, id).Some?
      ensures Held(w, slot, id).value.roles == w.settings[id].roles
      ensures Held(w, slot, id).value.phase == w.settings[id].phase
    {
      FiledIsHeld(w, slot, id);
      assert Right(true, w, id);
    }
    hide WellFormed, Held, Collections.At, CacheOf, Joined;
    if w.settings[id].phase <= PHASE_DEPLOYED { InStepIsBehind(w, id); }
  }

  lemma JoinedInStep(store: map<string, Content>, w: World, agents: map<string, Agent>)
    requires WellFormed(w) && Depicts(store, w)
    requires forall a :: a in agents ==> Keys.Plain(a)
    requires forall a :: Keys.Plain(a) ==> Get(agents, a) == Expected(store, w.cfg.id, a)
    ensures FromCluster(agents, w.cfg.id)
    ensures Online(agents, agents.Keys) == Joined(w)
  {
    hide Keys.Plain, SettingsKey, StateKey, RecordAt, ReportAt, Recorded, Flying, LeasesLive, Stamped;
    forall a
      ensures Get(Online(agents, agents.Keys), a) == Get(Joined(w), a)
      ensures a in agents ==> agents[a].id == a && agents[a].clusterId == w.cfg.id
    {
      if Keys.Plain(a) {
        assert Get(agents, a) == Expected(store, w.cfg.id, a);
      }
    }
    SameMaps(Online(agents, agents.Keys), Joined(w));
  }

  lemma SameMaps(m: map<string, Agent>, n: map<string, Agent>)
    requires forall a :: Get(m, a) == Get(n, a)
    ensures m == n
  {
    forall a ensures a in m <==> a in n ensures a in m ==> m[a] == n[a] {
      assert Get(m, a) == Get(n, a);
    }
  }
}

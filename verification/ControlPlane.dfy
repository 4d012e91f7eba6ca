/**
  One cluster as a state machine: the etcd keys of its agents, their leases, the watch
  stream, and the API server that answers agents and keeps the hot cache up to date
  (pkg/managers/agent_mgmt.go, pkg/common/common.go, pkg/cache/cluster_manager.go).
  Whatever other requests and the watcher can come between is a step of its own: a registration
  checks the store before it writes, a query finds a record, notes its phase, writes through it,
  compares and encodes it before it is saved, and the watcher reads two keys before it updates
  the cache.
 */
module ControlPlane {
  import opened Entities
  import opened Caching
  import opened Scheduling

  // A change of an agent's settings or state key. The watcher re-reads both keys, so which of them changed is not kept.
  datatype Event = Event(id: string, isDelete: bool, rev: nat)

  // The watcher between its steps: it reads the settings, then the state, then updates the cache.
  datatype Handler =
    | Idle
    | GotSettings(ev: Event, agent: Agent)
    | GotAgent(ev: Event, agent: Agent)

  // A request between its steps. A query holds a cached record, which may be replaced in the cache meanwhile.
  datatype Flight =
    | Holding(tag: nat)                 // the cached record is found
    | Asking(tag: nat, before: int)     // its phase is noted
    | Answered(tag: nat, before: int)   // the scheduler has answered and written the phase
    | Raised(tag: nat)                  // the phase was found to be above the noted one
    | Sending(message: Agent)           // settings are on their way to the store

  // A stored state and the lease that keeps it.
  datatype Bound = Bound(state: AgentState, lease: int)

  // The collections file numbers of records; records that were replaced are kept, queries may still hold them.
  datatype World = World(
    cfg: ClusterSettings,
    settings: map<string, Agent>,
    states: map<string, Bound>,
    leases: set<int>,
    nextLease: int,
    rev: nat,
    syncRev: nat,
    queue: seq<Event>,
    hand: Handler,
    places: Collections<nat>,
    records: seq<Agent>,
    flights: map<nat, Flight>)

  datatype Step =
    | Check(q: nat, agent: Agent, uuid: string)      // a registration finds no settings of its agent
    | Grant                                          // grants a lease
    | SaveState(id: string, state: AgentState, lease: int)
    | Expire(lease: int, order: seq<string>)         // a lease runs out; its keys go, in some order
    | RemoveState(id: string)
    | RemoveSettings(id: string)
    | LookUp(q: nat, id: string)                     // a query finds a cached record
    | Note(q: nat)                                   // it notes its phase
    // The scheduler answers; the facts are what its strategies counted, each at its own moment.
    | Decide(q: nat, facts: Facts, failing: set<nat>)
    | Compare(q: nat)                                // the record's phase is compared with the noted one
    | Encode(q: nat)                                 // the record is read once more, to be saved
    | Put(q: nat, saved: bool)                       // settings reach the store, or do not
    | Begin(read: bool)                              // the watcher takes an event and reads the settings, if it can
    | ReadState(read: bool)
    | Finish                                         // the watcher updates the cache

  // What the collections show.
  function CacheOf(w: World): Cache {
    Shown(w.places, w.records)
  }

  // What one collection has under an id.
  function Held(w: World, slot: Slot, id: string): Option<Agent> {
    var m := w.places.At(slot);
    if id in m && m[id] < |w.records| then Some(w.records[m[id]]) else None
  }

  // ---------- the steps ----------

  function Emit(w: World, id: string, isDelete: bool): World {
    w.(rev := w.rev + 1, queue := w.queue + [Event(id, isDelete, w.rev + 1)])
  }

  // The state has a key of its own and is not part of the stored settings.
  function PutSettings(w: World, agent: Agent): World {
    Emit(w.(settings := w.settings[agent.id := agent.(state := None)]), agent.id, false)
  }

  function NewId(agent: Agent, uuid: string): string {
    if agent.id == "" then uuid else agent.id
  }

  // An agent that brings an id must not be stored; a new identifier is taken on trust.
  predicate MayRegister(w: World, agent: Agent, uuid: string) {
    && NewId(agent, uuid) != "" && (agent.id == "" || agent.id !in w.settings)
    && agent.clusterId == w.cfg.id && agent.state.Some?
  }

  function Deletions(order: seq<string>, rev: nat): seq<Event> {
    seq(|order|, i requires 0 <= i < |order| => Event(order[i], true, rev))
  }

  predicate ExpiryOrder(w: World, lease: int, order: seq<string>) {
    && (forall id :: id in order ==> id in w.states && w.states[id].lease == lease)
    && (forall id :: id in w.states && w.states[id].lease == lease ==> id in order)
  }

  function ExpireLease(w: World, lease: int, order: seq<string>): World {
    w.(leases := w.leases - {lease},
       states := map id | id in w.states && w.states[id].lease != lease :: w.states[id],
       rev := w.rev + 1,
       queue := w.queue + Deletions(order, w.rev + 1))
  }

  // What GetAgentFromETCD reads, once both keys are read.
  function WithState(w: World, agent: Agent): Agent {
    agent.(state := if agent.id in w.states then Some(w.states[agent.id].state) else None)
  }

  function OnAgentChanged(w: World, agent: Agent, isDelete: bool): World {
    if isDelete || agent.state.None? then w.(places := w.places.Without(agent.roles, agent.id))
    else w.(places := w.places.With(agent.roles, agent.id, |w.records|), records := w.records + [agent])
  }

  // The phase is written through the record that the query holds.
  function WritePhase(w: World, tag: nat, phase: Option<int>): World {
    if phase.None? || tag >= |w.records| then w
    else w.(records := w.records[tag := w.records[tag].(phase := phase.value)])
  }

  function Ask(w: World, q: nat, facts: Facts, failing: set<nat>): World {
    if q in w.flights && w.flights[q].Asking? && w.flights[q].tag < |w.records| then
      var f := w.flights[q];
      WritePhase(w.(flights := w.flights[q := Answered(f.tag, f.before)]), f.tag,
                 NextJob(w.cfg, w.records[f.tag], facts, failing).phase)
    else w
  }

  function TakeNote(w: World, q: nat): World {
    if q in w.flights && w.flights[q].Holding? && w.flights[q].tag < |w.records| then
      w.(flights := w.flights[q := Asking(w.flights[q].tag, w.records[w.flights[q].tag].phase)])
    else w
  }

  function TellRaised(w: World, q: nat): World {
    if q in w.flights && w.flights[q].Answered? && w.flights[q].tag < |w.records| then
      var f := w.flights[q];
      w.(flights := if w.records[f.tag].phase > f.before then w.flights[q := Raised(f.tag)] else w.flights - {q})
    else w
  }

  function StartSending(w: World, q: nat): World {
    if q in w.flights && w.flights[q].Raised? && w.flights[q].tag < |w.records| then
      w.(flights := w.flights[q := Sending(w.records[w.flights[q].tag])])
    else w
  }

  function Deliver(w: World, q: nat, saved: bool): World {
    if q in w.flights && w.flights[q].Sending? then
      var done := w.(flights := w.flights - {q});
      if saved then PutSettings(done, w.flights[q].message) else done
    else w
  }

  // A step that is not possible changes nothing.
  ghost function Do(w: World, step: Step): World {
    match step
    case Check(q, agent, uuid) =>
      if q !in w.flights && MayRegister(w, agent, uuid) then
        w.(flights := w.flights[q := Sending(agent.(id := NewId(agent, uuid)))])
      else w
    case Grant => w.(leases := w.leases + {w.nextLease}, nextLease := w.nextLease + 1)
    case SaveState(id, state, lease) =>
      if lease in w.leases then Emit(w.(states := w.states[id := Bound(state, lease)]), id, false) else w
    case Expire(lease, order) =>
      if lease in w.leases && ExpiryOrder(w, lease, order) then ExpireLease(w, lease, order) else w
    case RemoveState(id) => if id in w.states then Emit(w.(states := w.states - {id}), id, true) else w
    case RemoveSettings(id) => if id in w.settings then Emit(w.(settings := w.settings - {id}), id, true) else w
    case LookUp(q, id) =>
      var found := w.places.First(id);
      if q !in w.flights && found.Some? && found.value < |w.records| then
        w.(flights := w.flights[q := Holding(found.value)])
      else w
    case Note(q) => TakeNote(w, q)
    case Decide(q, facts, failing) => Ask(w, q, facts, failing)
    case Compare(q) => TellRaised(w, q)
    case Encode(q) => StartSending(w, q)
    case Put(q, saved) => Deliver(w, q, saved)
    case Begin(read) =>
      if w.hand != Idle || w.queue == [] then w
      else
        var ev, rest := w.queue[0], w.(queue := w.queue[1..]);
        if ev.rev <= w.syncRev || !read || ev.id !in w.settings then rest
        else rest.(hand := GotSettings(ev, w.settings[ev.id]))
    case ReadState(read) =>
      if !w.hand.GotSettings? then w
      else w.(hand := if read then GotAgent(w.hand.ev, WithState(w, w.hand.agent)) else Idle)
    case Finish =>
      if w.hand.GotAgent? then OnAgentChanged(w.(hand := Idle), w.hand.agent, w.hand.ev.isDelete) else w
  }

  ghost function Run(w: World, steps: seq<Step>): World
    decreases |steps|
  {
    if steps == [] then w else Run(Do(w, steps[0]), steps[1..])
  }

  // ---------- what every step keeps ----------

  ghost predicate Filed(w: World) {
    && (forall id :: id in w.settings ==>
         w.settings[id].id == id && w.settings[id].state == None && w.settings[id].clusterId == w.cfg.id)
    && (w.hand.GotSettings? || w.hand.GotAgent? ==>
        w.hand.agent.id == w.hand.ev.id && w.hand.agent.clusterId == w.cfg.id)
  }

  // No record lacks a state or belongs elsewhere, and every one that is cached is filed under its own id.
  ghost predicate Recorded(w: World) {
    && (forall i :: 0 <= i < |w.records| ==> w.records[i].state.Some? && w.records[i].clusterId == w.cfg.id)
    && AllFiledRight(w.places, w.records)
  }

  ghost predicate Flying(w: World) {
    forall q :: q in w.flights ==>
      if w.flights[q].Sending? then w.flights[q].message.clusterId == w.cfg.id else w.flights[q].tag < |w.records|
  }

  ghost predicate LeasesLive(w: World) {
    && (forall id :: id in w.states ==> w.states[id].lease in w.leases)
    && (forall l :: l in w.leases ==> 0 <= l < w.nextLease) && 0 <= w.nextLease
  }

  ghost predicate Stamped(w: World) {
    w.syncRev <= w.rev && forall i :: 0 <= i < |w.queue| ==> w.syncRev < w.queue[i].rev <= w.rev
  }

  ghost predicate WellFormed(w: World) {
    Filed(w) && Recorded(w) && Flying(w) && LeasesLive(w) && Stamped(w)
  }

  // Two worlds that differ in requests and in the phases of records only.
  ghost predicate SameButPhases(w: World, next: World) {
    && next == w.(records := next.records, flights := next.flights) && |next.records| == |w.records|
    && forall i :: 0 <= i < |w.records| ==> next.records[i] == w.records[i].(phase := next.records[i].phase)
  }

  // The scheduler's answer changes nothing but a phase.
  lemma AnswerKeepsRest(w: World, step: Step)
    requires step.Decide?
    ensures SameButPhases(w, Do(w, step)) && Do(w, step).flights.Keys == w.flights.Keys
    ensures forall q :: q in w.flights ==> SameRequest(w.flights[q], Do(w, step).flights[q])
  {
    hide NextJob;
  }

  predicate SameRequest(f: Flight, g: Flight) {
    f == g || (f.Asking? && g == Answered(f.tag, f.before))
  }

  lemma FilesRight(w: World)
    requires WellFormed(w)
    ensures AllFiledRight(w.places, w.records)
  {
  }

  lemma FiledKept(w: World, step: Step)
    requires WellFormed(w)
    ensures Filed(Do(w, step)) && Do(w, step).cfg == w.cfg
  {
    match step
    case Decide(_, _, _) => AnswerKeepsRest(w, step); hide Do, AllFiledRight;
    case _ => hide AllFiledRight;
  }

  lemma FilingKept(w: World, agent: Agent)
    requires AllFiledRight(w.places, w.records)
    ensures forall isDelete ::
        AllFiledRight(OnAgentChanged(w, agent, isDelete).places, OnAgentChanged(w, agent, isDelete).records)
    ensures forall isDelete :: (CacheOf(OnAgentChanged(w, agent, isDelete))
      == if isDelete || agent.state.None? then Evict(CacheOf(w), agent) else Admit(CacheOf(w), agent))
  {
    hide AllFiledRight, Shown, Admit, Evict;
    WithShows(w.places, w.records, agent);
    WithoutShows(w.places, w.records, agent);
  }

  lemma RewriteKept(places: Collections<nat>, records: seq<Agent>, tag: nat, phase: int)
    requires AllFiledRight(places, records) && tag < |records|
    ensures AllFiledRight(places, records[tag := records[tag].(phase := phase)])
  {
  }

  lemma RecordedKept(w: World, step: Step)
    requires WellFormed(w)
    ensures Recorded(Do(w, step))
  {
    hide NextJob, AllFiledRight;
    match step
    case Finish =>
      if w.hand.GotAgent? { FilingKept(w.(hand := Idle), w.hand.agent); }
    case Decide(q, facts, failing) =>
      if q in w.flights && w.flights[q].Asking? && w.flights[q].tag < |w.records| {
        var phase := NextJob(w.cfg, w.records[w.flights[q].tag], facts, failing).phase;
        if phase.Some? { RewriteKept(w.places, w.records, w.flights[q].tag, phase.value); }
      }
    case _ =>
  }

  lemma FlyingKept(w: World, step: Step)
    requires WellFormed(w)
    ensures Flying(Do(w, step))
  {
    match step
    case Decide(_, _, _) => AnswerKeepsRest(w, step); hide Do, AllFiledRight;
    case _ => hide AllFiledRight;
  }

  lemma LeasesKept(w: World, step: Step)
    requires WellFormed(w)
    ensures LeasesLive(Do(w, step))
  {
    match step
    case Decide(_, _, _) => AnswerKeepsRest(w, step); hide Do, AllFiledRight;
    case _ => hide AllFiledRight;
  }

  lemma StampsKept(w: World, step: Step)
    requires WellFormed(w)
    ensures Stamped(Do(w, step)) && Do(w, step).syncRev == w.syncRev
  {
    hide NextJob, AllFiledRight, Filed, Recorded, Flying, LeasesLive;
  }

  lemma StepKeepsForm(w: World, step: Step)
    requires WellFormed(w)
    ensures WellFormed(Do(w, step)) && Do(w, step).cfg == w.cfg
  {
    hide Do, Filed, Recorded, Flying, LeasesLive, Stamped;
    RecordedKept(w, step);
    FlyingKept(w, step);
    FiledKept(w, step);
    LeasesKept(w, step);
    StampsKept(w, step);
  }

  // In every run: keys are filed under their ids; no cached agent lacks a state, so its address can be read;
  // every stored state is held by a live lease; and no event reaches the watcher that its revision filter drops.
  lemma {:induction false} RunKeepsForm(w: World, steps: seq<Step>)
    requires WellFormed(w)
    ensures WellFormed(Run(w, steps))
    decreases |steps|
  {
    hide Do, WellFormed;
    if steps != [] {
      StepKeepsForm(w, steps[0]);
      RunKeepsForm(Do(w, steps[0]), steps[1..]);
    }
  }

  // ---------- the steps of a query ----------

  lemma LookUpFinds(w: World, q: nat, id: string)
    requires WellFormed(w) && q !in w.flights
    ensures match w.places.First(id)
      case None => Do(w, LookUp(q, id)) == w
      case Some(tag) =>
        && tag < |w.records|
        && Do(w, LookUp(q, id)) == w.(flights := w.flights[q := Holding(tag)])
  {
    FirstShows(w.places, w.records, id);
    hide Collections.First, AllFiledRight;
  }

  lemma DecideWrites(w: World, q: nat, facts: Facts, failing: set<nat>)
    requires q in w.flights && w.flights[q].Asking? && w.flights[q].tag < |w.records|
    ensures var f := w.flights[q];
      var phase := NextJob(w.cfg, w.records[f.tag], facts, failing).phase;
      Do(w, Decide(q, facts, failing))
        == w.(flights := w.flights[q := Answered(f.tag, f.before)],
              records := if phase.Some? then w.records[f.tag := w.records[f.tag].(phase := phase.value)] else w.records)
  {
    hide NextJob;
  }

  lemma NoteNotes(w: World, q: nat)
    requires q in w.flights && w.flights[q].Holding? && w.flights[q].tag < |w.records|
    ensures var tag := w.flights[q].tag;
      Do(w, Note(q)) == w.(flights := w.flights[q := Asking(tag, w.records[tag].phase)])
  {
  }

  lemma CompareTells(w: World, q: nat)
    requires q in w.flights && w.flights[q].Answered? && w.flights[q].tag < |w.records|
    ensures var f := w.flights[q];
      var raised := w.records[f.tag].phase > f.before;
      Do(w, Compare(q)) == w.(flights := if raised then w.flights[q := Raised(f.tag)] else w.flights - {q})
  {
  }

  lemma EncodeSends(w: World, q: nat)
    requires q in w.flights && w.flights[q].Raised? && w.flights[q].tag < |w.records|
    ensures Do(w, Encode(q)) == w.(flights := w.flights[q := Sending(w.records[w.flights[q].tag])])
  {
  }

  // ---------- who changes stored settings ----------

  // This request is about this id.
  predicate About(w: World, f: Flight, id: string) {
    if f.Sending? then f.message.id == id else f.tag < |w.records| && w.records[f.tag].id == id
  }

  // Settings of the id reach the store.
  predicate Lands(w: World, step: Step, id: string) {
    step.Put? && step.saved && step.q in w.flights && w.flights[step.q].Sending? && w.flights[step.q].message.id == id
  }

  lemma OnlyPutsChangeSettings(w: World, step: Step, id: string)
    requires step != RemoveSettings(id)
    ensures Get(Do(w, step).settings, id)
         == if Lands(w, step, id) then Some(w.flights[step.q].message.(state := None)) else Get(w.settings, id)
  {
    hide NextJob;
  }

  // Settings with other roles reach the store over stored ones.
  predicate Overwrites(w: World, step: Step, id: string) {
    Lands(w, step, id) && id in w.settings && w.flights[step.q].message.roles != w.settings[id].roles
  }

  // As long as the settings of an id exist, their roles change exactly when a message with other roles lands: that of
  // a query whose record is not the one that was registered last, or that of an overtaken registration.
  lemma RolesChangeExactlyWhen(w: World, step: Step, id: string)
    requires id in w.settings && id in Do(w, step).settings
    ensures Do(w, step).settings[id].roles != w.settings[id].roles <==> Overwrites(w, step, id)
  {
    if step != RemoveSettings(id) {
      OnlyPutsChangeSettings(w, step, id);
    }
  }

  // No step of the run changes the stored roles of the id; removals and new registrations are no changes.
  ghost predicate RolesHold(w: World, steps: seq<Step>, id: string)
    decreases |steps|
  {
    steps == [] ||
    (var next := Do(w, steps[0]);
     && (id in w.settings && id in next.settings ==> next.settings[id].roles == w.settings[id].roles)
     && RolesHold(next, steps[1..], id))
  }

  ghost predicate Overwritten(w: World, steps: seq<Step>, id: string)
    decreases |steps|
  {
    steps != [] && (Overwrites(w, steps[0], id) || Overwritten(Do(w, steps[0]), steps[1..], id))
  }

  // In any run, removals and new registrations included, stored roles hold exactly when nothing overwrites them.
  lemma {:induction false} RolesHoldExactlyWhen(w: World, steps: seq<Step>, id: string)
    ensures RolesHold(w, steps, id) <==> !Overwritten(w, steps, id)
    decreases |steps|
  {
    hide Do, Overwrites;
    if steps != [] {
      var next := Do(w, steps[0]);
      if id in w.settings && id in next.settings {
        RolesChangeExactlyWhen(w, steps[0], id);
      } else {
        OverwritingKeepsSettings(w, steps[0], id);
      }
      RolesHoldExactlyWhen(next, steps[1..], id);
    }
  }

  lemma OverwritingKeepsSettings(w: World, step: Step, id: string)
    ensures Overwrites(w, step, id) ==> id in w.settings && id in Do(w, step).settings
  {
  }

  // What the collections and the watcher have under the id has the stored roles.
  ghost predicate PlacesAlike(w: World, id: string) {
    && id in w.settings
    && (forall slot: Slot :: id in w.places.At(slot) ==>
         && w.settings[id].roles.In(slot)
         && Held(w, slot, id).Some? && Held(w, slot, id).value.roles == w.settings[id].roles)
    && (Holds(w.hand, id) ==> w.hand.agent.roles == w.settings[id].roles)
  }

  // Every request about the id would store the roles that are stored.
  ghost predicate FlightsAlike(w: World, id: string) {
    && id in w.settings
    && forall q :: q in w.flights && About(w, w.flights[q], id) ==> RolesOf(w, w.flights[q]) == w.settings[id].roles
  }

  // Everything that is known of the id outside the store, cached, held or on its way, has the stored roles.
  ghost predicate Alike(w: World, id: string) {
    PlacesAlike(w, id) && FlightsAlike(w, id)
  }

  function RolesOf(w: World, f: Flight): Roles {
    if f.Sending? then f.message.roles
    else if f.tag < |w.records| then w.records[f.tag].roles else Roles(false, false, false, false)
  }

  predicate Holds(hand: Handler, id: string) {
    hand != Idle && hand.ev.id == id
  }

  // No registration draws the id as its new identifier.
  predicate Unclaimed(step: Step, id: string) {
    step.Check? && step.agent.id == "" ==> step.uuid != id
  }

  lemma FinishChanges(w: World)
    ensures Do(w, Finish) ==
      if w.hand.GotAgent? then OnAgentChanged(w.(hand := Idle), w.hand.agent, w.hand.ev.isDelete) else w
  {
  }

  // What the watcher's update does to one collection under one id.
  lemma FinishHeld(w: World, id: string, slot: Slot)
    requires AllFiledRight(w.places, w.records) && w.hand.GotAgent?
    ensures var next, agent := Do(w, Finish), w.hand.agent;
      var admits, reached := !w.hand.ev.isDelete && agent.state.Some?, agent.id == id && agent.roles.In(slot);
      && Held(next, slot, id) == (if !reached then Held(w, slot, id) else if admits then Some(agent) else None)
      && (id in next.places.At(slot) <==> if reached then admits else id in w.places.At(slot))
  {
    hide Do, Collections.At, Collections.With, Collections.Without, Roles.In, AllFiledRight;
    FinishChanges(w);
    PlacedAt(w.places, w.hand.agent.roles, w.hand.agent.id, |w.records|, slot);
    if id in w.places.At(slot) { FiledAt(w.places, w.records, slot, id); }
  }

  lemma FirstIsPlaced(places: Collections<nat>, id: string) returns (slot: Slot)
    requires places.First(id).Some?
    ensures id in places.At(slot) && places.At(slot)[id] == places.First(id).value
  {
    slot := if id in places.etcd then ETCD else if id in places.master then Master
      else if id in places.minion then Minion else if id in places.ha then HA else Pool;
  }

  lemma FiledAt(places: Collections<nat>, records: seq<Agent>, slot: Slot, id: string)
    requires AllFiledRight(places, records) && id in places.At(slot)
    ensures places.At(slot)[id] < |records| && records[places.At(slot)[id]].id == id
  {
  }

  lemma PlacesAlikeKept(w: World, next: World, id: string)
    requires PlacesAlike(w, id) && SameButPhases(w, next)
    ensures PlacesAlike(next, id)
  {
    hide Roles.In, Collections.At;
  }

  lemma FlightsAlikeKept(w: World, next: World, id: string)
    requires FlightsAlike(w, id) && SameButPhases(w, next) && next.flights.Keys == w.flights.Keys
    requires forall q :: q in w.flights ==> SameRequest(w.flights[q], next.flights[q])
    ensures FlightsAlike(next, id)
  {
    forall q | q in next.flights && About(next, next.flights[q], id)
      ensures RolesOf(next, next.flights[q]) == next.settings[id].roles
    {
      assert SameRequest(w.flights[q], next.flights[q]);
      assert About(w, w.flights[q], id);
    }
  }

  lemma AlikeAnswer(w: World, step: Step, id: string)
    requires WellFormed(w) && Alike(w, id) && step.Decide?
    ensures Alike(Do(w, step), id) && Do(w, step).settings[id].roles == w.settings[id].roles
  {
    AnswerKeepsRest(w, step);
    hide Do, WellFormed, About, RolesOf, Held, SameRequest;
    PlacesAlikeKept(w, Do(w, step), id);
    FlightsAlikeKept(w, Do(w, step), id);
  }

  lemma AlikeLookUp(w: World, step: Step, id: string)
    requires WellFormed(w) && Alike(w, id) && step.LookUp?
    ensures Alike(Do(w, step), id) && Do(w, step).settings[id].roles == w.settings[id].roles
  {
    hide AllFiledRight, LeasesLive, Stamped, Filed, Collections.First;
    if w.places.First(step.id).Some? {
      var slot := FirstIsPlaced(w.places, step.id);
      FiledAt(w.places, w.records, slot, step.id);
    }
  }

  lemma AlikeFinish(w: World, id: string)
    requires WellFormed(w) && Alike(w, id)
    ensures Alike(Do(w, Finish), id) && Do(w, Finish).settings[id].roles == w.settings[id].roles
  {
    if w.hand.GotAgent? {
      var next := Do(w, Finish);
      forall slot: Slot
        ensures id in next.places.At(slot) ==>
          && w.settings[id].roles.In(slot)
          && Held(next, slot, id).Some? && Held(next, slot, id).value.roles == w.settings[id].roles
      {
        FinishHeld(w, id, slot);
      }
      hide Held, Collections.At, AllFiledRight, LeasesLive, Stamped;
    }
  }

  predicate MovesRequest(step: Step) {
    step.Check? || step.Note? || step.Compare? || step.Encode? || step.Put?
  }

  lemma AlikeRequest(w: World, step: Step, id: string)
    requires WellFormed(w) && Alike(w, id) && Unclaimed(step, id) && MovesRequest(step)
    ensures Alike(Do(w, step), id) && Do(w, step).settings[id].roles == w.settings[id].roles
  {
    hide AllFiledRight, LeasesLive, Stamped, Collections.At, Held, Filed, PlacesAlike;
    PlacesAlikeRequest(w, step, id);
  }

  lemma PlacesAlikeRequest(w: World, step: Step, id: string)
    requires Alike(w, id) && MovesRequest(step)
    ensures PlacesAlike(Do(w, step), id) && Do(w, step).settings[id].roles == w.settings[id].roles && PlacesAlike(w, id)
  {
    hide Collections.At, Roles.In;
  }

  lemma AlikeStep(w: World, step: Step, id: string)
    requires WellFormed(w) && Alike(w, id) && step != RemoveSettings(id) && Unclaimed(step, id)
    ensures Alike(Do(w, step), id) && Do(w, step).settings[id].roles == w.settings[id].roles
  {
    match step
    case Decide(_, _, _) => hide *; AlikeAnswer(w, step, id);
    case LookUp(_, _) => hide *; AlikeLookUp(w, step, id);
    case Finish => hide *; AlikeFinish(w, id);
    case Note(_) => hide *; AlikeRequest(w, step, id);
    case Compare(_) => hide *; AlikeRequest(w, step, id);
    case Encode(_) => hide *; AlikeRequest(w, step, id);
    case Check(_, _, _) => hide *; AlikeRequest(w, step, id);
    case Put(_, _) => hide *; AlikeRequest(w, step, id);
    case _ => hide NextJob, AllFiledRight, LeasesLive, Stamped, Recorded;
  }

  predicate KeepsSettings(steps: seq<Step>, id: string) {
    RemoveSettings(id) !in steps
  }

  ghost predicate NeverDrawn(steps: seq<Step>, id: string) {
    forall step :: step in steps ==> Unclaimed(step, id)
  }

  // From settings that everything known of the id agrees with, roles never change in a run that neither removes the
  // settings nor draws the id as a new identifier, whatever queries and overlapping registrations it has.
  lemma {:induction false} RolesStayFixed(w: World, steps: seq<Step>, id: string)
    requires WellFormed(w) && Alike(w, id) && KeepsSettings(steps, id) && NeverDrawn(steps, id)
    ensures Alike(Run(w, steps), id) && Run(w, steps).settings[id].roles == w.settings[id].roles
    ensures RolesHold(w, steps, id)
    decreases |steps|
  {
    hide Do, WellFormed, Alike, Unclaimed;
    AlikeHas(w, id);
    if steps != [] {
      assert steps[0] in steps;
      AlikeStep(w, steps[0], id);
      AlikeHas(Do(w, steps[0]), id);
      StepKeepsForm(w, steps[0]);
      RolesStayFixed(Do(w, steps[0]), steps[1..], id);
    }
  }

  lemma AlikeHas(w: World, id: string)
    requires Alike(w, id)
    ensures id in w.settings
  {
  }

  // Nothing is known of the id but one registration on its way.
  ghost predicate Forgotten(w: World, id: string, q: nat) {
    && id !in w.settings && (forall slot: Slot :: id !in w.places.At(slot)) && !Holds(w.hand, id)
    && (forall other :: other in w.flights && other != q ==> !About(w, w.flights[other], id))
  }

  // An id that was removed and is known nowhere starts over with whatever roles it registers.
  lemma ForgottenStartsOver(w: World, q: nat, id: string)
    requires WellFormed(w) && Forgotten(w, id, q) && Lands(w, Put(q, true), id)
    ensures Alike(Do(w, Put(q, true)), id)
  {
    hide AllFiledRight, LeasesLive, Stamped;
  }

  // ---------- leases ----------

  // An expiry takes away exactly the states bound to the expired lease.
  lemma ExpiryTakesExactlyItsOwn(w: World, lease: int, order: seq<string>, id: string)
    requires WellFormed(w) && lease in w.leases && ExpiryOrder(w, lease, order) && id in w.states
    ensures var next := Do(w, Expire(lease, order));
      && (id !in next.states <==> w.states[id].lease == lease)
      && (id in next.states ==> next.states[id] == w.states[id])
      && next.leases == w.leases - {lease} && next.settings == w.settings && next.places == w.places
  {
  }

  // No step of the run removes the state or runs out the lease it is bound to at that moment.
  ghost predicate KeptAlive(w: World, steps: seq<Step>, id: string)
    decreases |steps|
  {
    steps != [] ==>
      && steps[0] != RemoveState(id)
      && !(steps[0].Expire? && id in w.states && steps[0].lease == w.states[id].lease)
      && KeptAlive(Do(w, steps[0]), steps[1..], id)
  }

  // A state stays stored, on a live lease, until the lease of its latest report runs out or it is removed;
  // the expiry of any other lease, older ones of the same agent included, cannot take it away.
  lemma {:induction false} StateOutlivesOtherLeases(w: World, steps: seq<Step>, id: string)
    requires WellFormed(w) && id in w.states && KeptAlive(w, steps, id)
    ensures var end := Run(w, steps);
      id in end.states && end.states[id].lease in end.leases
    ensures (forall step :: step in steps ==> !(step.SaveState? && step.id == id)) ==>
        Run(w, steps).states[id] == w.states[id]
    decreases |steps|
  {
    hide Do, Filed, Recorded, Flying, Stamped;
    if steps != [] {
      StateStep(w, steps[0], id);
      StepKeepsForm(w, steps[0]);
      StateOutlivesOtherLeases(Do(w, steps[0]), steps[1..], id);
      assert steps[0] in steps;
    }
  }

  lemma StateStep(w: World, step: Step, id: string)
    requires id in w.states && step != RemoveState(id) && !(step.Expire? && step.lease == w.states[id].lease)
    ensures id in Do(w, step).states
    ensures !(step.SaveState? && step.id == id) ==> Do(w, step).states[id] == w.states[id]
  {
    hide NextJob;
  }
}

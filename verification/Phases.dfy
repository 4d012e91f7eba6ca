/**
  The deployment phase and the roles that queries store (QueryAgentNextWorkItem in pkg/managers/agent_mgmt.go):
  what one query does, and when the stored phase never goes down although queries, refreshes and saves overlap.
 */
module Phases {
  import opened Entities
  import opened Caching
  import opened Scheduling
  import opened ControlPlane

  // ---------- one query that nothing interrupts ----------

  function QuerySteps(q: nat, id: string, facts: Facts, failing: set<nat>, saved: bool): seq<Step> {
    [LookUp(q, id), Note(q), Decide(q, facts, failing), Compare(q), Encode(q), Put(q, saved)]
  }

  ghost predicate MayQuery(w: World, q: nat, id: string) {
    WellFormed(w) && q !in w.flights && w.places.First(id).Some?
  }

  // The record that the query finds.
  ghost function Found(w: World, id: string): Agent
    requires WellFormed(w) && w.places.First(id).Some?
  {
    FirstShows(w.places, w.records, id);
    w.records[w.places.First(id).value]
  }

  // The phase the query leaves in it.
  ghost function PhaseAfter(w: World, agent: Agent, facts: Facts, failing: set<nat>): int {
    var phase := NextJob(w.cfg, agent, facts, failing).phase;
    if phase.Some? then phase.value else agent.phase
  }

  lemma RunFour(w: World, a: Step, b: Step, c: Step, d: Step)
    ensures Run(w, [a, b, c, d]) == Do(Do(Do(Do(w, a), b), c), d)
  {
    hide Do;
    assert [a, b, c, d][1..] == [b, c, d] && [b, c, d][1..] == [c, d] && [c, d][1..] == [d] && [d][1..] == [];
    assert Run(Do(Do(Do(w, a), b), c), [d]) == Run(Do(Do(Do(Do(w, a), b), c), d), []);
    assert Run(Do(Do(w, a), b), [c, d]) == Run(Do(Do(Do(w, a), b), c), [d]);
    assert Run(Do(w, a), [b, c, d]) == Run(Do(Do(w, a), b), [c, d]);
  }

  // A query writes the phase into the record it found, and stores that record, roles and all, exactly when the phase
  // went up and the store takes it.
  lemma QueryStores(w: World, q: nat, id: string, facts: Facts, failing: set<nat>, saved: bool)
    requires MayQuery(w, q, id)
    ensures var agent, tag := Found(w, id), w.places.First(id).value;
      var phase := PhaseAfter(w, agent, facts, failing);
      var written := w.(records := w.records[tag := agent.(phase := phase)]);
      Run(w, QuerySteps(q, id, facts, failing, saved))
        == if phase > agent.phase && saved then PutSettings(written, agent.(phase := phase)) else written
  {
    FirstShows(w.places, w.records, id);
    RunSix(w, LookUp(q, id), Note(q), Decide(q, facts, failing), Compare(q), Encode(q), Put(q, saved));
    QueryAsks(w, q, id, facts, failing);
    var tag := w.places.First(id).value;
    var agent, phase := Found(w, id), PhaseAfter(w, Found(w, id), facts, failing);
    var written := w.(records := w.records[tag := agent.(phase := phase)]);
    QuerySends(written, q, tag, agent.phase, saved);
    hide Do, Run, PhaseAfter, Found, Collections.First, WellFormed;
  }

  lemma RunSix(w: World, a: Step, b: Step, c: Step, d: Step, e: Step, f: Step)
    ensures Run(w, [a, b, c, d, e, f]) == Do(Do(Do(Do(Do(Do(w, a), b), c), d), e), f)
  {
    hide Do;
    assert [a, b, c, d, e, f][1..] == [b, c, d, e, f] && [b, c, d, e, f][1..] == [c, d, e, f];
    RunFour(Do(Do(w, a), b), c, d, e, f);
    assert Run(w, [a, b, c, d, e, f]) == Run(Do(w, a), [b, c, d, e, f]);
  }

  lemma QueryAsks(w: World, q: nat, id: string, facts: Facts, failing: set<nat>)
    requires MayQuery(w, q, id)
    ensures var agent, tag := Found(w, id), w.places.First(id).value;
      Do(Do(Do(w, LookUp(q, id)), Note(q)), Decide(q, facts, failing))
        == w.(records := w.records[tag := agent.(phase := PhaseAfter(w, agent, facts, failing))],
              flights := w.flights[q := Answered(tag, agent.phase)])
  {
    hide Do, NextJob, Collections.First, WellFormed, AllFiledRight, Shown;
    FilesRight(w);
    FirstShows(w.places, w.records, id);
    var tag := w.places.First(id).value;
    LookUpFinds(w, q, id);
    var w1 := Do(w, LookUp(q, id));
    assert w1 == w.(flights := w.flights[q := Holding(tag)]);
    NoteNotes(w1, q);
    assert Do(w1, Note(q)) == w.(flights := w.flights[q := Asking(tag, w.records[tag].phase)]);
    DecideWrites(Do(w1, Note(q)), q, facts, failing);
    assert w.flights[q := Asking(tag, w.records[tag].phase)][q := Answered(tag, w.records[tag].phase)]
        == w.flights[q := Answered(tag, w.records[tag].phase)];
  }

  lemma QuerySends(w: World, q: nat, tag: nat, before: int, saved: bool)
    requires q !in w.flights && tag < |w.records|
    ensures Do(Do(Do(w.(flights := w.flights[q := Answered(tag, before)]), Compare(q)), Encode(q)), Put(q, saved))
      == if w.records[tag].phase > before && saved then PutSettings(w, w.records[tag]) else w
  {
    var w0 := w.(flights := w.flights[q := Answered(tag, before)]);
    CompareTells(w0, q);
    var w1 := Do(w0, Compare(q));
    if w.records[tag].phase > before {
      assert w1 == w.(flights := w.flights[q := Raised(tag)]);
      EncodeSends(w1, q);
      assert Do(w1, Encode(q)) == w.(flights := w.flights[q := Sending(w.records[tag])]);
      assert w.flights[q := Sending(w.records[tag])] - {q} == w.flights;
    } else {
      assert w1 == w by { assert w.flights[q := Answered(tag, before)] - {q} == w.flights; }
    }
  }

  // Whether the scheduler's answer raises this phase, in terms of the stage of the deployment.
  ghost predicate Raises(w: World, agent: Agent, facts: Facts, failing: set<nat>) {
    var stage := Stage(w.cfg, agent, facts);
    || (stage < 4 && agent.phase < PHASE_DEPLOYING)
    || (stage == 4 && !Broken(failing) && agent.phase < PHASE_DEPLOYED)
  }

  // One of the five server-side strategies fails.
  ghost predicate Broken(failing: set<nat>) {
    exists n: nat :: n < 5 && n in failing
  }

  lemma PhaseByStage(w: World, agent: Agent, facts: Facts, failing: set<nat>)
    requires agent.state.Some?
    ensures var stage := Stage(w.cfg, agent, facts);
      PhaseAfter(w, agent, facts, failing)
        == if stage < 4 then PHASE_DEPLOYING else if Broken(failing) then agent.phase else PHASE_DEPLOYED
  {
    hide NextJob, Stage;
    DeployedExactlyWhen(w.cfg, agent, facts, failing);
    StageIsSmall(w.cfg, agent, facts);
  }

  lemma StageIsSmall(cfg: ClusterSettings, agent: Agent, facts: Facts)
    ensures Stage(cfg, agent, facts) <= 4
  {
  }

  // A query lowers the stored phase exactly when it finds an agent still pending in the cache while the store has it
  // deployed, the deployment has fallen back for it, and the store takes the save.
  lemma QueryLowersPhaseExactlyWhen(w: World, q: nat, id: string, facts: Facts, failing: set<nat>, saved: bool)
    requires MayQuery(w, q, id) && id in w.settings && w.settings[id].phase <= PHASE_DEPLOYED
    ensures var end := Run(w, QuerySteps(q, id, facts, failing, saved));
      && id in end.settings
      && (end.settings[id].phase < w.settings[id].phase
          <==> (saved && Found(w, id).phase < PHASE_DEPLOYING && w.settings[id].phase == PHASE_DEPLOYED
                && Stage(w.cfg, Found(w, id), facts) < 4))
  {
    hide Run, NextJob, Stage, PhaseAfter, LeasesLive, Stamped, Filed, Broken;
    FirstShows(w.places, w.records, id);
    QueryStores(w, q, id, facts, failing, saved);
    PhaseByStage(w, Found(w, id), facts, failing);
    hide AllFiledRight, Collections.First;
  }

  // A query changes the stored roles exactly when the record it finds has other roles, its phase goes up and the store
  // takes the save.
  lemma QueryOverwritesRolesExactlyWhen(w: World, q: nat, id: string, facts: Facts, failing: set<nat>, saved: bool)
    requires MayQuery(w, q, id) && id in w.settings
    ensures var end := Run(w, QuerySteps(q, id, facts, failing, saved));
      && id in end.settings
      && (end.settings[id].roles != w.settings[id].roles
          <==> (saved && Found(w, id).roles != w.settings[id].roles && Raises(w, Found(w, id), facts, failing)))
  {
    hide Run, NextJob, Stage, PhaseAfter, LeasesLive, Stamped, Filed, Broken;
    FirstShows(w.places, w.records, id);
    StageIsSmall(w.cfg, Found(w, id), facts);
    QueryStores(w, q, id, facts, failing, saved);
    PhaseByStage(w, Found(w, id), facts, failing);
    hide AllFiledRight, Collections.First;
  }

  // ---------- queries, refreshes and saves that overlap ----------

  // Of any one step: the stored phase goes down exactly when a message with a lower phase lands.
  lemma StepLowersPhaseExactlyWhen(w: World, step: Step, id: string)
    requires id in w.settings && id in Do(w, step).settings
    ensures Do(w, step).settings[id].phase < w.settings[id].phase
       <==> (Lands(w, step, id) && w.flights[step.q].message.phase < w.settings[id].phase)
  {
    if step != RemoveSettings(id) { OnlyPutsChangeSettings(w, step, id); }
    hide NextJob;
  }

  predicate Lowers(w: World, step: Step, id: string) {
    Lands(w, step, id) && id in w.settings && w.flights[step.q].message.phase < w.settings[id].phase
  }

  // No step of the run lowers the stored phase of the id; removals and new registrations do not count.
  ghost predicate PhaseHolds(w: World, steps: seq<Step>, id: string)
    decreases |steps|
  {
    steps == [] ||
    (var next := Do(w, steps[0]);
     && (id in w.settings && id in next.settings ==> w.settings[id].phase <= next.settings[id].phase)
     && PhaseHolds(next, steps[1..], id))
  }

  ghost predicate SomeLowers(w: World, steps: seq<Step>, id: string)
    decreases |steps|
  {
    steps != [] && (Lowers(w, steps[0], id) || SomeLowers(Do(w, steps[0]), steps[1..], id))
  }

  // Of any run: the stored phase never goes down exactly when no message with a lower phase than the stored one lands.
  lemma {:induction false} PhaseHoldsExactlyWhen(w: World, steps: seq<Step>, id: string)
    ensures PhaseHolds(w, steps, id) <==> !SomeLowers(w, steps, id)
    decreases |steps|
  {
    hide Do, Lowers;
    if steps != [] {
      LoweringStep(w, steps[0], id);
      PhaseHoldsExactlyWhen(Do(w, steps[0]), steps[1..], id);
    }
  }

  lemma LoweringStep(w: World, step: Step, id: string)
    ensures Lowers(w, step, id) <==>
        id in w.settings && id in Do(w, step).settings && Do(w, step).settings[id].phase < w.settings[id].phase
  {
    hide NextJob;
    if id in w.settings && id in Do(w, step).settings { StepLowersPhaseExactlyWhen(w, step, id); }
    if step != RemoveSettings(id) { OnlyPutsChangeSettings(w, step, id); }
  }

  // All collections that know the id share one record.
  ghost predicate Single(places: Collections<nat>, id: string) {
    forall s: Slot, t: Slot :: id in places.At(s) && id in places.At(t) ==> places.At(s)[id] == places.At(t)[id]
  }

  // A phase below Deploying means that the stored one is below it too.
  predicate Behind(w: World, id: string, phase: int) {
    id in w.settings && (phase < PHASE_DEPLOYING ==> w.settings[id].phase < PHASE_DEPLOYING)
  }

  // The cached record and what the watcher holds.
  ghost predicate PlacesBehind(w: World, id: string) {
    && id in w.settings && w.settings[id].phase <= PHASE_DEPLOYED
    && Single(w.places, id)
    && (forall slot: Slot :: id in w.places.At(slot) ==>
        Held(w, slot, id).Some? && Behind(w, id, Held(w, slot, id).value.phase))
    && (Holds(w.hand, id) ==> Behind(w, id, w.hand.agent.phase))
  }

  ghost predicate AllRaised(w: World, id: string) {
    forall slot: Slot :: id in w.places.At(slot) ==>
      Held(w, slot, id).Some? && Held(w, slot, id).value.phase >= PHASE_DEPLOYING
  }

  // A request about the id: a query still holds the cached record, and no message would lower the stored phase.
  ghost predicate FlightBehind(w: World, f: Flight, id: string) {
    id in w.settings &&
    match f
    case Sending(m) =>
      PHASE_DEPLOYING <= m.phase && w.settings[id].phase <= m.phase <= PHASE_DEPLOYED && AllRaised(w, id)
    case Holding(tag) => tag < |w.records| && w.places.First(id) == Some(tag)
    case Raised(tag) =>
      && tag < |w.records| && w.places.First(id) == Some(tag) && PHASE_DEPLOYING <= w.records[tag].phase
      && w.settings[id].phase <= w.records[tag].phase <= PHASE_DEPLOYED
    case _ =>
      && f.tag < |w.records| && w.places.First(id) == Some(f.tag) && Behind(w, id, f.before)
      && (w.records[f.tag].phase > f.before ==> PHASE_DEPLOYING <= w.records[f.tag].phase <= PHASE_DEPLOYED)
  }

  ghost predicate FlightsBehind(w: World, id: string) {
    forall q :: q in w.flights && About(w, w.flights[q], id) ==> FlightBehind(w, w.flights[q], id)
  }

  ghost predicate PhaseBehind(w: World, id: string) {
    Alike(w, id) && PlacesBehind(w, id) && FlightsBehind(w, id)
  }

  predicate NoneAbout(w: World, id: string) {
    forall q :: q in w.flights ==> !About(w, w.flights[q], id)
  }

  predicate NoOtherAbout(w: World, id: string, q: nat) {
    forall other :: other in w.flights && other != q ==> !About(w, w.flights[other], id)
  }

  // A query writes the phase of a record of the id.
  predicate DecidesOn(w: World, step: Step, id: string) {
    step.Decide? && step.q in w.flights && w.flights[step.q].Asking? && About(w, w.flights[step.q], id)
  }

  // No query of the id is between the comparison and the encoding of its record.
  predicate NoneRaised(w: World, id: string) {
    forall q :: q in w.flights && w.flights[q].Raised? ==> !About(w, w.flights[q], id)
  }

  // No save of the id lands while the watcher holds it or another request about it is under way, no refresh of it
  // completes while one is, and no query of it decides while another has compared but not encoded.
  predicate Undisturbed(w: World, step: Step, id: string) {
    && (Lands(w, step, id) ==> !Holds(w.hand, id) && NoOtherAbout(w, id, step.q))
    && (step.Finish? && w.hand.GotAgent? && Holds(w.hand, id) ==> NoneAbout(w, id))
    && (DecidesOn(w, step, id) ==> NoneRaised(w, id))
    && Unclaimed(step, id)
  }

  ghost predicate AllUndisturbed(w: World, steps: seq<Step>, id: string)
    decreases |steps|
  {
    steps != [] ==> Undisturbed(w, steps[0], id) && AllUndisturbed(Do(w, steps[0]), steps[1..], id)
  }

  lemma PlacesQuiet(w: World, next: World, id: string)
    requires PlacesBehind(w, id) && id in next.settings && next.settings[id].phase == w.settings[id].phase
    requires next.places == w.places && next.records == w.records
    requires Holds(next.hand, id) ==> Behind(next, id, next.hand.agent.phase)
    ensures PlacesBehind(next, id)
  {
    hide Collections.At, Single;
    forall slot: Slot | id in next.places.At(slot) ensures Held(next, slot, id) == Held(w, slot, id) {}
  }

  // Every request of the second world about the id is one of the first.
  ghost predicate NoNewRequest(w: World, next: World, id: string) {
    forall q :: q in next.flights && About(next, next.flights[q], id) ==>
      q in w.flights && next.flights[q] == w.flights[q]
  }

  lemma FlightsQuiet(w: World, next: World, id: string)
    requires FlightsBehind(w, id) && id in w.settings && id in next.settings
    requires next.settings[id].phase == w.settings[id].phase
    requires next.places == w.places && next.records == w.records && NoNewRequest(w, next, id)
    ensures FlightsBehind(next, id)
  {
    forall q | q in next.flights && About(next, next.flights[q], id) ensures FlightBehind(next, next.flights[q], id) {
      SameAbout(w, next, next.flights[q], id);
      assert FlightBehind(w, w.flights[q], id);
      RaisedQuiet(w, next, id);
      hide Collections.First, AllRaised;
    }
  }

  lemma SameAbout(w: World, next: World, f: Flight, id: string)
    requires next.records == w.records
    ensures About(next, f, id) <==> About(w, f, id)
  {
  }

  lemma RaisedQuiet(w: World, next: World, id: string)
    requires next.places == w.places && next.records == w.records
    ensures AllRaised(w, id) ==> AllRaised(next, id)
  {
    hide Collections.At;
    forall slot: Slot ensures Held(next, slot, id) == Held(w, slot, id) {}
  }

  // Steps that have nothing to do with records and requests.
  lemma StoreStepBehind(w: World, step: Step, id: string)
    requires WellFormed(w) && PhaseBehind(w, id) && step != RemoveSettings(id)
    requires step.Grant? || step.SaveState? || step.Expire? || step.RemoveState? || step.RemoveSettings?
    ensures PlacesBehind(Do(w, step), id) && FlightsBehind(Do(w, step), id)
  {
    assert Do(w, step).places == w.places && Do(w, step).records == w.records && Do(w, step).flights == w.flights;
    assert Do(w, step).hand == w.hand && id in Do(w, step).settings && Do(w, step).settings[id] == w.settings[id];
    hide Do, WellFormed, Alike, FlightBehind, About, Single, Held;
    PlacesQuiet(w, Do(w, step), id);
    FlightsQuiet(w, Do(w, step), id);
  }

  lemma WatchStepBehind(w: World, step: Step, id: string)
    requires WellFormed(w) && PhaseBehind(w, id) && (step.Begin? || step.ReadState?)
    ensures PlacesBehind(Do(w, step), id) && FlightsBehind(Do(w, step), id)
  {
    hide Alike, FlightBehind, About, Single, Held, LeasesLive, Stamped, Recorded, Flying;
    PlacesQuiet(w, Do(w, step), id);
    FlightsQuiet(w, Do(w, step), id);
  }

  lemma CheckBehind(w: World, step: Step, id: string)
    requires WellFormed(w) && PhaseBehind(w, id) && step.Check? && Unclaimed(step, id)
    ensures PlacesBehind(Do(w, step), id) && FlightsBehind(Do(w, step), id)
  {
    hide Alike, FlightBehind, Single, Held, WellFormed;
    PlacesQuiet(w, Do(w, step), id);
    FlightsQuiet(w, Do(w, step), id);
  }

  lemma LookUpBehind(w: World, step: Step, id: string)
    requires WellFormed(w) && PhaseBehind(w, id) && step.LookUp?
    ensures PlacesBehind(Do(w, step), id) && FlightsBehind(Do(w, step), id)
  {
    var next := Do(w, step);
    if next != w {
      FirstShows(w.places, w.records, step.id);
      hide Alike, FlightBehind, Single, Held, WellFormed, Collections.At;
      PlacesQuiet(w, next, id);
      forall q | q in next.flights && About(next, next.flights[q], id) ensures FlightBehind(next, next.flights[q], id) {
        if q == step.q {
          FreshQuery(w, next, w.places.First(step.id).value, id);
        } else {
          OldFlight(w, next, w.flights[q], id);
        }
      }
    }
  }

  lemma FreshQuery(w: World, next: World, tag: nat, id: string)
    requires id in w.settings && tag < |w.records| && w.places.First(id) == Some(tag)
    requires next.places == w.places && next.records == w.records && next.settings == w.settings
    ensures FlightBehind(next, Holding(tag), id)
  {
  }

  // One request about the id moves on, and nothing else changes.
  lemma RequestBehind(w: World, next: World, q: nat, id: string)
    requires PlacesBehind(w, id) && FlightsBehind(w, id)
    requires next == w.(flights := next.flights)
    requires forall other :: other in next.flights && other != q ==>
        other in w.flights && next.flights[other] == w.flights[other]
    requires q in next.flights && About(next, next.flights[q], id) ==> FlightBehind(next, next.flights[q], id)
    ensures PlacesBehind(next, id) && FlightsBehind(next, id)
  {
    hide FlightBehind, Single, Held, Collections.At, Collections.First, AllRaised;
    PlacesQuiet(w, next, id);
    forall other | other in next.flights && About(next, next.flights[other], id)
      ensures FlightBehind(next, next.flights[other], id)
    {
      if other != q {
        SameAbout(w, next, w.flights[other], id);
        OldFlight(w, next, w.flights[other], id);
      }
    }
  }

  lemma NoteBehind(w: World, step: Step, id: string)
    requires WellFormed(w) && PhaseBehind(w, id) && step.Note?
    ensures PlacesBehind(Do(w, step), id) && FlightsBehind(Do(w, step), id)
  {
    hide Do, WellFormed, Alike, PlacesBehind, FlightBehind, About;
    if step.q in w.flights && w.flights[step.q].Holding? && w.flights[step.q].tag < |w.records| {
      NoteNotes(w, step.q);
      if About(w, w.flights[step.q], id) {
        assert FlightBehind(w, w.flights[step.q], id);
        NotedIsBehind(w, Do(w, step), w.flights[step.q].tag, id);
      }
      SameAboutBy(w, Do(w, step), w.flights[step.q], Do(w, step).flights[step.q], id);
      RequestBehind(w, Do(w, step), step.q, id);
    } else {
      NoSuchRequest(w, step);
    }
  }

  lemma NotedIsBehind(w: World, next: World, tag: nat, id: string)
    requires PlacesBehind(w, id) && FlightBehind(w, Holding(tag), id) && next == w.(flights := next.flights)
    ensures FlightBehind(next, Asking(tag, w.records[tag].phase), id)
  {
    var slot := FirstIsPlaced(w.places, id);
    assert Held(w, slot, id) == Some(w.records[tag]);
    hide Collections.First, Collections.At, Held, Single;
  }

  lemma SameAboutBy(w: World, next: World, f: Flight, g: Flight, id: string)
    requires next == w.(flights := next.flights) && !f.Sending?
    requires if g.Sending? then f.tag < |w.records| && g.message.id == w.records[f.tag].id else g.tag == f.tag
    ensures About(next, g, id) <==> About(w, f, id)
  {
  }

  lemma NoSuchRequest(w: World, step: Step)
    requires match step
      case Note(q) => !(q in w.flights && w.flights[q].Holding? && w.flights[q].tag < |w.records|)
      case Compare(q) => !(q in w.flights && w.flights[q].Answered? && w.flights[q].tag < |w.records|)
      case Encode(q) => !(q in w.flights && w.flights[q].Raised? && w.flights[q].tag < |w.records|)
      case _ => false
    ensures Do(w, step) == w
  {
  }

  lemma OldFlight(w: World, next: World, f: Flight, id: string)
    requires FlightBehind(w, f, id) && id in next.settings && next.settings[id].phase == w.settings[id].phase
    requires next.places == w.places && next.records == w.records
    ensures FlightBehind(next, f, id)
  {
    RaisedQuiet(w, next, id);
    hide AllRaised, Collections.First;
  }

  // The scheduler's answer gives the record of the query a phase of at least Deploying, if it gives it any.
  lemma DecisionRaises(w: World, step: Step)
    requires WellFormed(w) && step.Decide?
    ensures var next := Do(w, step);
      && next == w.(records := next.records, flights := next.flights) && |next.records| == |w.records|
      && (forall i :: 0 <= i < |w.records| ==>
           && next.records[i].id == w.records[i].id
           && (next.records[i] == w.records[i]
               || (PHASE_DEPLOYING <= next.records[i].phase <= PHASE_DEPLOYED
                   && DecidesOn(w, step, w.records[i].id))))
  {
    if step.q in w.flights && w.flights[step.q].Asking? && w.flights[step.q].tag < |w.records| {
      PhaseByStage(w, w.records[w.flights[step.q].tag], step.facts, step.failing);
    }
    hide NextJob, Stage;
  }

  lemma DecideBehind(w: World, step: Step, id: string)
    requires WellFormed(w) && PhaseBehind(w, id) && step.Decide? && (DecidesOn(w, step, id) ==> NoneRaised(w, id))
    ensures PlacesBehind(Do(w, step), id) && FlightsBehind(Do(w, step), id)
  {
    hide Do, WellFormed, Alike, PlacesBehind, FlightBehind, About, DecidesOn, SameRequest;
    var next := Do(w, step);
    DecisionRaises(w, step);
    AnswerKeepsRest(w, step);
    HeldRaised(w, next, id);
    forall q | q in next.flights && About(next, next.flights[q], id) ensures FlightBehind(next, next.flights[q], id) {
      assert SameRequest(w.flights[q], next.flights[q]);
      StillAbout(w, next, w.flights[q], next.flights[q], id);
      assert FlightBehind(w, w.flights[q], id);
      DecidedFlight(w, next, step, w.flights[q], next.flights[q], id);
    }
  }

  lemma StillAbout(w: World, next: World, f: Flight, g: Flight, id: string)
    requires SameRequest(f, g) && |next.records| == |w.records|
    requires forall i :: 0 <= i < |w.records| ==> next.records[i].id == w.records[i].id
    ensures About(next, g, id) <==> About(w, f, id)
  {
  }

  // A request about the id after some query decided.
  lemma DecidedFlight(w: World, next: World, step: Step, f: Flight, g: Flight, id: string)
    requires FlightBehind(w, f, id) && About(w, f, id) && SameRequest(f, g)
    requires next == w.(records := next.records, flights := next.flights) && |next.records| == |w.records|
    requires forall i :: 0 <= i < |w.records| && w.records[i].id == id ==>
      next.records[i] == w.records[i]
      || (PHASE_DEPLOYING <= next.records[i].phase <= PHASE_DEPLOYED && DecidesOn(w, step, id))
    requires f.Raised? ==> !DecidesOn(w, step, id)
    requires AllRaised(w, id) ==> AllRaised(next, id)
    ensures FlightBehind(next, g, id)
  {
    hide AllRaised, Collections.First, DecidesOn;
  }

  lemma HeldRaised(w: World, next: World, id: string)
    requires PlacesBehind(w, id)
    requires next == w.(records := next.records, flights := next.flights) && |next.records| == |w.records|
    requires forall i :: 0 <= i < |w.records| ==>
      next.records[i] == w.records[i] || PHASE_DEPLOYING <= next.records[i].phase <= PHASE_DEPLOYED
    ensures PlacesBehind(next, id) && (AllRaised(w, id) ==> AllRaised(next, id))
  {
    hide Single, Collections.At;
    forall slot: Slot | id in w.places.At(slot)
      ensures Held(next, slot, id).Some? && Behind(next, id, Held(next, slot, id).value.phase)
      ensures Held(w, slot, id).value.phase >= PHASE_DEPLOYING ==> Held(next, slot, id).value.phase >= PHASE_DEPLOYING
    {
      assert Held(w, slot, id).Some?;
    }
  }

  // The record a query holds is the one in every collection.
  lemma SentRecordIsRaised(w: World, tag: nat, id: string)
    requires Single(w.places, id) && w.places.First(id) == Some(tag) && tag < |w.records|
    requires w.records[tag].phase >= PHASE_DEPLOYING
    ensures AllRaised(w, id)
  {
    var first := FirstIsPlaced(w.places, id);
    hide Collections.First, Collections.At;
    forall slot: Slot | id in w.places.At(slot) ensures Held(w, slot, id) == Some(w.records[tag]) {
      assert w.places.At(slot)[id] == w.places.At(first)[id];
    }
  }

  lemma CompareBehind(w: World, step: Step, id: string)
    requires WellFormed(w) && PhaseBehind(w, id) && step.Compare?
    ensures PlacesBehind(Do(w, step), id) && FlightsBehind(Do(w, step), id)
  {
    hide Do, WellFormed, Alike, PlacesBehind, FlightBehind, About;
    if step.q in w.flights && w.flights[step.q].Answered? && w.flights[step.q].tag < |w.records| {
      CompareTells(w, step.q);
      var next := Do(w, step);
      if About(w, w.flights[step.q], id) {
        assert FlightBehind(w, w.flights[step.q], id);
        if step.q in next.flights { RaisedIsBehind(w, next, w.flights[step.q], id); }
      }
      if step.q in next.flights { SameAboutBy(w, next, w.flights[step.q], next.flights[step.q], id); }
      RequestBehind(w, next, step.q, id);
    } else {
      NoSuchRequest(w, step);
    }
  }

  lemma RaisedIsBehind(w: World, next: World, f: Flight, id: string)
    requires PlacesBehind(w, id) && f.Answered? && FlightBehind(w, f, id) && next == w.(flights := next.flights)
    ensures w.records[f.tag].phase > f.before ==> FlightBehind(next, Raised(f.tag), id)
  {
    hide Collections.First, Collections.At, Held, Single;
  }

  lemma EncodeBehind(w: World, step: Step, id: string)
    requires WellFormed(w) && PhaseBehind(w, id) && step.Encode?
    ensures PlacesBehind(Do(w, step), id) && FlightsBehind(Do(w, step), id)
  {
    hide Do, WellFormed, Alike, PlacesBehind, FlightBehind, About;
    if step.q in w.flights && w.flights[step.q].Raised? && w.flights[step.q].tag < |w.records| {
      EncodeSends(w, step.q);
      var next, tag := Do(w, step), w.flights[step.q].tag;
      if About(w, w.flights[step.q], id) {
        assert FlightBehind(w, w.flights[step.q], id);
        EncodedIsBehind(w, next, tag, id);
      }
      SameAboutBy(w, next, w.flights[step.q], next.flights[step.q], id);
      RequestBehind(w, next, step.q, id);
    } else {
      NoSuchRequest(w, step);
    }
  }

  lemma EncodedIsBehind(w: World, next: World, tag: nat, id: string)
    requires PlacesBehind(w, id) && FlightBehind(w, Raised(tag), id) && next == w.(flights := next.flights)
    ensures FlightBehind(next, Sending(w.records[tag]), id)
  {
    SentRecordIsRaised(w, tag, id);
    RaisedQuiet(w, next, id);
    hide Collections.First, Collections.At, Held, Single, AllRaised;
  }

  lemma PutBehind(w: World, step: Step, id: string)
    requires WellFormed(w) && PhaseBehind(w, id) && step.Put? && Undisturbed(w, step, id)
    ensures PlacesBehind(Do(w, step), id) && FlightsBehind(Do(w, step), id)
  {
    var next := Do(w, step);
    OnlyPutsChangeSettings(w, step, id);
    PutKeeps(w, step);
    if Lands(w, step, id) {
      assert FlightBehind(w, w.flights[step.q], id);
      RaisedQuiet(w, next, id);
      hide Do, WellFormed, Alike, Single, Collections.First, Held, Collections.At;
    } else {
      hide Do, WellFormed, Alike, Single, Collections.First, Held, Collections.At, AllRaised, FlightBehind;
      PlacesQuiet(w, next, id);
      FlightsQuiet(w, next, id);
    }
  }

  lemma PutKeeps(w: World, step: Step)
    requires step.Put?
    ensures var next := Do(w, step);
      && next.places == w.places && next.records == w.records && next.hand == w.hand
      && next.flights == if step.q in w.flights && w.flights[step.q].Sending? then w.flights - {step.q} else w.flights
  {
  }

  lemma FinishBehind(w: World, id: string)
    requires WellFormed(w) && PhaseBehind(w, id) && Undisturbed(w, Finish, id)
    ensures PlacesBehind(Do(w, Finish), id) && FlightsBehind(Do(w, Finish), id)
  {
    var next := Do(w, Finish);
    if w.hand.GotAgent? {
      forall slot: Slot { FinishHeld(w, id, slot); }
      FinishKeeps(w);
      FinishSingle(w, id);
      if Holds(w.hand, id) {
        FinishOwn(w, id);
      } else {
        FinishOther(w, id);
      }
    }
  }

  lemma FinishKeeps(w: World)
    requires WellFormed(w) && w.hand.GotAgent?
    ensures var next := Do(w, Finish);
      && next.settings == w.settings && next.flights == w.flights && next.hand == Idle && |next.records| >= |w.records|
      && forall i :: 0 <= i < |w.records| ==> next.records[i] == w.records[i]
  {
    hide WellFormed, Collections.With, Collections.Without;
  }

  lemma FinishSingle(w: World, id: string)
    requires WellFormed(w) && w.hand.GotAgent? && PhaseBehind(w, id)
    ensures Single(Do(w, Finish).places, id)
  {
    SingleOf(w, id);
    SingleWith(w.places, w.hand.agent.roles, w.hand.agent.id, |w.records|, id);
    hide LeasesLive, Stamped, AllFiledRight, Held, PlacesBehind, FlightsBehind, FlightsAlike, Single, Collections.At,
         Collections.With, Collections.Without;
  }

  lemma SingleWith(places: Collections<nat>, roles: Roles, at: string, tag: nat, id: string)
    requires Single(places, id)
    requires at == id ==> forall slot: Slot :: id in places.At(slot) ==> roles.In(slot)
    ensures Single(places.With(roles, at, tag), id) && Single(places.Without(roles, at), id)
  {
    forall slot: Slot { PlacedAt(places, roles, at, tag, slot); }
    hide Collections.At, Collections.With, Collections.Without, Roles.In;
  }

  lemma SingleOf(w: World, id: string)
    requires PlacesBehind(w, id)
    ensures Single(w.places, id)
  {
  }

  lemma FinishOwn(w: World, id: string)
    requires WellFormed(w) && w.hand.GotAgent? && PhaseBehind(w, id) && Holds(w.hand, id) && NoneAbout(w, id)
    requires Single(Do(w, Finish).places, id)
    ensures PlacesBehind(Do(w, Finish), id) && FlightsBehind(Do(w, Finish), id)
  {
    var next := Do(w, Finish);
    FinishKeeps(w);
    forall slot: Slot | id in next.places.At(slot)
      ensures Held(next, slot, id).Some? && Behind(next, id, Held(next, slot, id).value.phase)
    {
      FinishHeld(w, id, slot);
    }
    NoneAboutStays(w, next, id);
    hide Do, WellFormed, Held, Collections.At, Single, FlightBehind, Alike;
  }

  // Requests hold records that were made before.
  lemma NoneAboutStays(w: World, next: World, id: string)
    requires Flying(w) && NoneAbout(w, id) && next.flights == w.flights && |next.records| >= |w.records|
    requires forall i :: 0 <= i < |w.records| ==> next.records[i] == w.records[i]
    ensures FlightsBehind(next, id)
  {
    forall q | q in next.flights ensures !About(next, next.flights[q], id) {
      assert !About(w, w.flights[q], id);
    }
  }

  lemma FinishOther(w: World, id: string)
    requires WellFormed(w) && w.hand.GotAgent? && PhaseBehind(w, id) && !Holds(w.hand, id)
    requires Single(Do(w, Finish).places, id)
    ensures PlacesBehind(Do(w, Finish), id) && FlightsBehind(Do(w, Finish), id)
  {
    var next := Do(w, Finish);
    FinishKeeps(w);
    forall slot: Slot ensures Held(next, slot, id) == Held(w, slot, id)
      ensures id in next.places.At(slot) <==> id in w.places.At(slot)
    {
      FinishHeld(w, id, slot);
    }
    FirstStays(w, id);
    hide Do, WellFormed, Held, Collections.At, Single, Alike, Collections.First;
    forall q | q in next.flights && About(next, next.flights[q], id) ensures FlightBehind(next, next.flights[q], id) {
      assert FlightBehind(w, w.flights[q], id);
    }
  }

  lemma FirstStays(w: World, id: string)
    requires Filed(w) && w.hand.GotAgent? && !Holds(w.hand, id)
    ensures Do(w, Finish).places.First(id) == w.places.First(id)
  {
    FirstElsewhere(w.places, w.hand.agent.roles, w.hand.agent.id, |w.records|, id);
    hide Collections.First, Collections.With, Collections.Without;
  }

  lemma FirstElsewhere(places: Collections<nat>, roles: Roles, at: string, tag: nat, id: string)
    requires at != id
    ensures places.With(roles, at, tag).First(id) == places.First(id) == places.Without(roles, at).First(id)
  {
    hide Roles.In;
  }

  lemma DecideUndisturbed(w: World, step: Step, id: string)
    requires Undisturbed(w, step, id)
    ensures DecidesOn(w, step, id) ==> NoneRaised(w, id)
  {
  }

  lemma PhaseStep(w: World, step: Step, id: string)
    requires WellFormed(w) && PhaseBehind(w, id) && step != RemoveSettings(id) && Undisturbed(w, step, id)
    ensures PhaseBehind(Do(w, step), id)
  {
    AlikeStep(w, step, id);
    match step
    case LookUp(_, _) => hide *; LookUpBehind(w, step, id);
    case Note(_) => hide *; NoteBehind(w, step, id);
    case Decide(_, _, _) => DecideUndisturbed(w, step, id); hide *; DecideBehind(w, step, id);
    case Compare(_) => hide *; CompareBehind(w, step, id);
    case Encode(_) => hide *; EncodeBehind(w, step, id);
    case Put(_, _) => hide *; PutBehind(w, step, id);
    case Check(_, _, _) => hide *; CheckBehind(w, step, id);
    case Finish => hide *; FinishBehind(w, id);
    case Begin(_) => hide *; WatchStepBehind(w, step, id);
    case ReadState(_) => hide *; WatchStepBehind(w, step, id);
    case _ => hide *; StoreStepBehind(w, step, id);
  }

  // No message that would lower the phase is on its way.
  lemma NothingLowers(w: World, step: Step, id: string)
    requires PhaseBehind(w, id) && step != RemoveSettings(id)
    ensures id in w.settings && id in Do(w, step).settings && Do(w, step).settings[id].phase >= w.settings[id].phase
  {
    OnlyPutsChangeSettings(w, step, id);
    if Lands(w, step, id) {
      assert FlightBehind(w, w.flights[step.q], id);
    }
    hide Do, PlacesBehind;
  }

  // The stored phase never goes down while the settings exist, whatever queries, refreshes and failed saves there are
  // and however they overlap, as long as no refresh of the agent completes during one of its queries, no save of it
  // lands during one of its refreshes or another request about it, and no query of it decides between the comparison
  // and the encoding of another. (The cached phase does go down.)
  lemma {:induction false} StoredPhaseIsMonotone(w: World, steps: seq<Step>, id: string)
    requires WellFormed(w) && PhaseBehind(w, id) && KeepsSettings(steps, id) && AllUndisturbed(w, steps, id)
    ensures PhaseBehind(Run(w, steps), id) && id in w.settings && id in Run(w, steps).settings
    ensures Run(w, steps).settings[id].phase >= w.settings[id].phase
    decreases |steps|
  {
    hide Do, WellFormed, PhaseBehind, Undisturbed;
    if steps != [] {
      assert steps[0] in steps;
      PhaseStep(w, steps[0], id);
      NothingLowers(w, steps[0], id);
      StepKeepsForm(w, steps[0]);
      StoredPhaseIsMonotone(Do(w, steps[0]), steps[1..], id);
    } else {
      NothingLowers(w, Grant, id);
    }
  }

  // It starts like that when the cache is in step with the store and nothing is under way.
  lemma InStepIsBehind(w: World, id: string)
    requires WellFormed(w) && w.flights == map[] && w.hand == Idle && id in w.settings && Single(w.places, id)
    requires w.settings[id].phase <= PHASE_DEPLOYED
    requires forall slot: Slot :: id in w.places.At(slot) ==>
      w.settings[id].roles.In(slot) && Held(w, slot, id).Some?
      && Held(w, slot, id).value.roles == w.settings[id].roles && Held(w, slot, id).value.phase == w.settings[id].phase
    ensures PhaseBehind(w, id)
  {
  }

  // So it does for an agent that registers later, once its settings land while nothing else is known of it.
  lemma RegisteredIsBehind(w: World, q: nat, id: string)
    requires WellFormed(w) && Forgotten(w, id, q) && Lands(w, Put(q, true), id)
    requires w.flights[q].message.phase <= PHASE_DEPLOYED
    ensures PhaseBehind(Do(w, Put(q, true)), id)
  {
    ForgottenStartsOver(w, q, id);
    hide WellFormed, Alike;
  }
}

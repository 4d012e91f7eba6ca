/**
  The cache follows the store (watchChanges in pkg/cache/cluster_manager.go, OnAgentChanged and GetAgentFromETCD
  in pkg/cache/cluster_controller.go): convergence whatever the interleaving, what an event repairs and what a lost one
  leaves behind, and what the removal of an agent leaves in the cache.
 */
module Watching {
  import opened Entities
  import opened Caching
  import opened Scheduling
  import opened ControlPlane

  // ---------- the event queue, one id at a time ----------

  // The last queued event of an id.
  function Last(queue: seq<Event>, id: string): Option<Event> {
    if queue == [] then None
    else if queue[|queue| - 1].id == id then Some(queue[|queue| - 1])
    else Last(queue[..|queue| - 1], id)
  }

  lemma {:induction false} LastOfBoth(a: seq<Event>, b: seq<Event>, id: string)
    ensures Last(a + b, id) == if Last(b, id).Some? then Last(b, id) else Last(a, id)
  {
    if b == [] {
      assert a + b == a;
    } else {
      assert (a + b)[..|a + b| - 1] == a + b[..|b| - 1];
      LastOfBoth(a, b[..|b| - 1], id);
    }
  }

  lemma LastOfRest(queue: seq<Event>, id: string)
    requires queue != []
    ensures Last(queue, id) == if Last(queue[1..], id).Some? then Last(queue[1..], id)
                               else if queue[0].id == id then Some(queue[0]) else None
  {
    LastOfBoth([queue[0]], queue[1..], id);
    assert [queue[0]] + queue[1..] == queue && [queue[0]][..0] == [];
  }

  lemma {:induction false} LastOfDeletions(order: seq<string>, rev: nat, id: string)
    ensures Last(Deletions(order, rev), id) == if id in order then Some(Event(id, true, rev)) else None
  {
    if order != [] {
      var n := |order| - 1;
      assert Deletions(order, rev)[..n] == Deletions(order[..n], rev);
      LastOfDeletions(order[..n], rev, id);
      assert order == order[..n] + [order[n]];
    }
  }

  // ---------- what the cache should show ----------

  // The agent as both keys of the store describe it, if both exist.
  function Stored(w: World, id: string): Option<Agent> {
    if id in w.settings && id in w.states then Some(w.settings[id].(state := Some(w.states[id].state))) else None
  }

  function Joined(w: World): map<string, Agent> {
    map id | id in w.settings && id in w.states :: w.settings[id].(state := Some(w.states[id].state))
  }

  function Wanted(w: World, slot: Slot, id: string): Option<Agent> {
    match Stored(w, id)
    case None => None
    case Some(a) => if a.roles.In(slot) then Some(a) else None
  }

  // Queries move the cached phase ahead of and behind the stored one; exact says whether that is excluded.
  predicate Same(exact: bool, cached: Option<Agent>, stored: Option<Agent>) {
    match (cached, stored)
    case (None, None) => true
    case (Some(c), Some(s)) => c == if exact then s else s.(phase := c.phase)
    case _ => false
  }

  // Every collection has the stored agent under the id if its roles are among the agent's, and nothing otherwise.
  ghost predicate Right(exact: bool, w: World, id: string) {
    forall slot: Slot :: Same(exact, Held(w, slot, id), Wanted(w, slot, id))
  }

  // No collection knows the id that an update for its stored roles would not reach.
  ghost predicate NoStray(w: World, id: string) {
    forall slot: Slot :: id in w.places.At(slot) ==> id in w.settings && w.settings[id].roles.In(slot)
  }

  // Whatever the watcher holds does not go where an update for the stored roles would not reach it.
  ghost predicate Fits(w: World, id: string) {
    NoStray(w, id) && (Holds(w.hand, id) ==> id in w.settings && Covers(w.hand.agent.roles, w.settings[id].roles))
  }

  // Either an event that will repair the cache is on its way, or what was read is current, or the cache is right.
  ghost predicate Fresh(exact: bool, w: World, id: string) {
    var last := Last(w.queue, id);
    if last.Some? then last.value.isDelete ==> id !in w.states
    else if !Holds(w.hand, id) then Right(exact, w, id)
    else
      && (w.hand.ev.isDelete ==> id !in w.states)
      && id in w.settings
      && w.hand.agent == if w.hand.GotSettings? then w.settings[id] else WithState(w, w.settings[id])
  }

  ghost predicate Tracks(exact: bool, w: World, id: string) {
    Fits(w, id) && Fresh(exact, w, id)
  }

  // The step writes to a key of the id, or a lease takes one away.
  ghost predicate Emits(w: World, step: Step, id: string) {
    |Do(w, step).queue| > |w.queue| && Last(Do(w, step).queue[|w.queue|..], id).Some?
  }

  // The watcher fails to read for the last event of the id and goes on to the next one.
  predicate Discards(w: World, step: Step, id: string) {
    || (step == Begin(false) && w.hand == Idle && w.queue != [] && w.queue[0].id == id && w.queue[0].rev > w.syncRev
        && Last(w.queue[1..], id).None?)
    || (step == ReadState(false) && w.hand.GotSettings? && Holds(w.hand, id) && Last(w.queue, id).None?)
  }

  // ---------- one step ----------

  lemma QueueGrows(w: World, step: Step)
    requires !step.Begin?
    ensures |Do(w, step).queue| >= |w.queue| && Do(w, step).queue == w.queue + Do(w, step).queue[|w.queue|..]
  {
    hide NextJob;
  }

  predicate SameKeys(w: World, next: World, id: string) {
    && Get(next.settings, id) == Get(w.settings, id)
    && (id in next.states <==> id in w.states) && (id in w.states ==> next.states[id] == w.states[id])
  }

  // A step that is no event of the id leaves its keys as they are.
  lemma NoEventSameKeys(w: World, step: Step, id: string)
    requires !Emits(w, step, id)
    ensures SameKeys(w, Do(w, step), id)
  {
    match step
    case Expire(_, _) => ExpiryTells(w, step, id);
    case Decide(_, _, _) => AnswerKeepsRest(w, step); hide Do;
    case SaveState(_, _, _) => WriteTells(w, step, id); hide Do, Last;
    case RemoveState(_) => WriteTells(w, step, id); hide Do, Last;
    case RemoveSettings(_) => WriteTells(w, step, id); hide Do, Last;
    case Put(_, _) => WriteTells(w, step, id); hide Do, Last;
    case _ =>
  }

  lemma ExpiryTells(w: World, step: Step, id: string)
    requires !Emits(w, step, id) && step.Expire?
    ensures SameKeys(w, Do(w, step), id)
  {
    LastOfDeletions(step.order, w.rev + 1, id);
    hide Last;
  }

  lemma WriteTells(w: World, step: Step, id: string)
    requires !Emits(w, step, id) && (step.SaveState? || step.RemoveState? || step.RemoveSettings? || step.Put?)
    ensures SameKeys(w, Do(w, step), id)
  {
    var next := Do(w, step);
    if |next.queue| > |w.queue| {
      var ev := next.queue[|w.queue|];
      assert next.queue[|w.queue|..] == [ev];
      LastOfOne(ev, id);
    }
    hide Last;
  }

  lemma RightKept(exact: bool, w: World, next: World, id: string)
    requires Right(exact, w, id) && next.places == w.places && next.records == w.records && SameKeys(w, next, id)
    ensures Right(exact, next, id)
  {
    forall slot: Slot ensures Same(exact, Held(next, slot, id), Wanted(next, slot, id)) {
      hide Same, Roles.In, Collections.At;
      assert Same(exact, Held(w, slot, id), Wanted(w, slot, id));
    }
  }

  lemma LastOfOne(ev: Event, id: string)
    ensures Last([ev], id) == if ev.id == id then Some(ev) else None
  {
  }

  lemma ExpiryEvent(w: World, step: Step, id: string)
    requires Emits(w, step, id) && step.Expire?
    ensures id !in Do(w, step).states
  {
    LastOfDeletions(step.order, w.rev + 1, id);
    hide Last;
  }

  lemma WriteEvent(w: World, step: Step, id: string)
    requires Emits(w, step, id) && (step.SaveState? || step.RemoveState? || step.Put?)
    ensures Last(Do(w, step).queue[|w.queue|..], id).value.isDelete ==> id !in Do(w, step).states
  {
    var next := Do(w, step);
    var ev := next.queue[|w.queue|];
    assert next.queue[|w.queue|..] == [ev];
    LastOfOne(ev, id);
    hide Last;
  }

  lemma OnlyWritesEmit(w: World, step: Step, id: string)
    ensures Emits(w, step, id) ==>
        step.Expire? || step.SaveState? || step.RemoveState? || step.RemoveSettings? || step.Put?
  {
    hide NextJob, Last;
  }

  // After an event of the id, that event is on its way, and a deletion tells that the state is gone.
  lemma EventIsOnItsWay(exact: bool, w: World, step: Step, id: string)
    requires Emits(w, step, id) && step != RemoveSettings(id)
    ensures Last(Do(w, step).queue, id).Some? && Fresh(exact, Do(w, step), id)
  {
    OnlyWritesEmit(w, step, id);
    if step.Expire? { ExpiryEvent(w, step, id); }
    if step.SaveState? || step.RemoveState? || step.Put? { WriteEvent(w, step, id); }
    if step.RemoveSettings? { OtherRemoval(w, step, id); }
    QueueGrows(w, step);
    hide Do;
    LastOfBoth(w.queue, Do(w, step).queue[|w.queue|..], id);
    hide Last;
  }

  lemma OtherRemoval(w: World, step: Step, id: string)
    requires step.RemoveSettings? && step.id != id
    ensures !Emits(w, step, id)
  {
    if Do(w, step) != w {
      var ev := Do(w, step).queue[|w.queue|];
      assert Do(w, step).queue[|w.queue|..] == [ev];
      LastOfOne(ev, id);
    }
    hide Last;
  }

  lemma StrayStep(w: World, step: Step, id: string)
    requires WellFormed(w) && Fits(w, id) && step != RemoveSettings(id) && !Overwrites(w, step, id)
    requires !step.Finish? && !step.Decide?
    ensures Fits(Do(w, step), id)
  {
    hide Collections.At, Roles.In, LeasesLive, Stamped, AllFiledRight;
    assert Do(w, step).places == w.places;
    OnlyPutsChangeSettings(w, step, id);
    CoversItself(w, id);
  }

  lemma CoversItself(w: World, id: string)
    ensures id in w.settings ==> Covers(w.settings[id].roles, w.settings[id].roles)
  {
  }

  lemma StrayFinish(w: World, id: string)
    requires WellFormed(w) && Fits(w, id)
    ensures Fits(Do(w, Finish), id)
  {
    hide Collections.At, LeasesLive, Stamped, AllFiledRight, Collections.With, Collections.Without;
    if w.hand.GotAgent? {
      forall slot: Slot | id in Do(w, Finish).places.At(slot)
        ensures id in w.settings && w.settings[id].roles.In(slot) {
        FinishHeld(w, id, slot);
      }
    }
  }

  // A step that changes no roles leaves no stray.
  lemma FitsStep(w: World, step: Step, id: string)
    requires WellFormed(w) && Fits(w, id) && step != RemoveSettings(id) && !Overwrites(w, step, id)
    ensures Fits(Do(w, step), id)
  {
    match step
    case Finish => hide *; StrayFinish(w, id);
    case Decide(_, _, _) => AnswerKeepsRest(w, step); hide Do, WellFormed, Covers, Collections.At, Roles.In;
    case _ => hide *; StrayStep(w, step, id);
  }

  // Caching what is current repairs whatever is there, as long as nothing is where it does not reach.
  lemma FinishRepairs(w: World, id: string)
    requires WellFormed(w) && NoStray(w, id) && w.hand.GotAgent? && Holds(w.hand, id) && id in w.settings
    requires w.hand.agent == WithState(w, w.settings[id]) && (w.hand.ev.isDelete ==> id !in w.states)
    ensures Right(true, Do(w, Finish), id) && Right(false, Do(w, Finish), id)
  {
    hide LeasesLive, Stamped, AllFiledRight, Held, Collections.At;
    forall slot: Slot ensures Held(Do(w, Finish), slot, id) == Wanted(w, slot, id) {
      FinishHeld(w, id, slot);
      HeldNowhere(w, slot, id);
    }
  }

  lemma HeldNowhere(w: World, slot: Slot, id: string)
    ensures id !in w.places.At(slot) ==> Held(w, slot, id) == None
  {
  }

  lemma FinishElsewhere(exact: bool, w: World, id: string)
    requires WellFormed(w) && Right(exact, w, id) && !Holds(w.hand, id)
    ensures Right(exact, Do(w, Finish), id)
  {
    hide LeasesLive, Stamped, AllFiledRight, Held, Collections.At;
    if w.hand.GotAgent? {
      forall slot: Slot ensures Held(Do(w, Finish), slot, id) == Held(w, slot, id) {
        FinishHeld(w, id, slot);
      }
    }
  }

  lemma AnswerHeld(w: World, step: Step, id: string, slot: Slot)
    requires WellFormed(w) && step.Decide?
    ensures match Held(w, slot, id)
      case None => Held(Do(w, step), slot, id) == None
      case Some(a) =>
        && Held(Do(w, step), slot, id).Some?
        && Held(Do(w, step), slot, id).value == a.(phase := Held(Do(w, step), slot, id).value.phase)
        && (!(step.q in w.flights && w.flights[step.q].Asking? && About(w, w.flights[step.q], id)) ==>
             Held(Do(w, step), slot, id) == Some(a))
  {
    hide NextJob, Collections.At, AllFiledRight;
    if id in w.places.At(slot) { FiledAt(w.places, w.records, slot, id); }
  }

  lemma AnswerTracks(exact: bool, w: World, step: Step, id: string)
    requires WellFormed(w) && Tracks(exact, w, id) && step.Decide?
    requires exact ==> !(step.q in w.flights && w.flights[step.q].Asking? && About(w, w.flights[step.q], id))
    ensures Fresh(exact, Do(w, step), id)
  {
    AnswerKeepsRest(w, step);
    if Right(exact, w, id) {
      forall slot: Slot ensures Same(exact, Held(Do(w, step), slot, id), Wanted(w, slot, id)) {
        hide *;
        AnswerHeld(w, step, id, slot);
        StillSame(exact, w, step, id, slot);
      }
    }
    hide Do, WellFormed, Collections.At, Last, Held;
  }

  lemma StillSame(exact: bool, w: World, step: Step, id: string, slot: Slot)
    requires Right(exact, w, id)
    requires match Held(w, slot, id)
      case None => Held(Do(w, step), slot, id) == None
      case Some(a) =>
        && Held(Do(w, step), slot, id).Some?
        && Held(Do(w, step), slot, id).value == a.(phase := Held(Do(w, step), slot, id).value.phase)
        && (exact ==> Held(Do(w, step), slot, id) == Some(a))
    ensures Same(exact, Held(Do(w, step), slot, id), Wanted(w, slot, id))
  {
    hide Do, Held, Wanted;
    assert Same(exact, Held(w, slot, id), Wanted(w, slot, id));
  }

  lemma BeginTracks(exact: bool, w: World, step: Step, id: string)
    requires WellFormed(w) && Tracks(exact, w, id) && step.Begin? && !Discards(w, step, id)
    ensures Fresh(exact, Do(w, step), id)
  {
    var next := Do(w, step);
    BeginKeeps(w, step);
    hide Do, Recorded, Flying, LeasesLive, Covers;
    if Right(exact, w, id) { RightKept(exact, w, next, id); }
    if id !in w.settings { UnknownIsRight(exact, next, id); }
    hide Right, NoStray;
    if w.hand == Idle && w.queue != [] {
      LastOfRest(w.queue, id);
      hide Last;
      assert w.queue[0].rev > w.syncRev;
    }
  }

  lemma BeginKeeps(w: World, step: Step)
    requires step.Begin?
    ensures var next := Do(w, step);
      if w.hand != Idle || w.queue == [] then next == w
      else
        var ev, rest := w.queue[0], w.(queue := w.queue[1..]);
        if ev.rev <= w.syncRev || !step.read || ev.id !in w.settings then next == rest
        else next == rest.(hand := GotSettings(ev, w.settings[ev.id]))
  {
  }

  lemma ReadTracks(exact: bool, w: World, step: Step, id: string)
    requires WellFormed(w) && Tracks(exact, w, id) && step.ReadState? && !Discards(w, step, id)
    ensures Fresh(exact, Do(w, step), id)
  {
    var next := Do(w, step);
    if Right(exact, w, id) { RightKept(exact, w, next, id); }
    hide Recorded, Flying, LeasesLive, Covers, Right, NoStray, Last, Stamped;
  }

  lemma UnknownIsRight(exact: bool, w: World, id: string)
    requires NoStray(w, id) && id !in w.settings
    ensures Right(exact, w, id)
  {
  }

  lemma FinishTracks(exact: bool, w: World, id: string)
    requires WellFormed(w) && Tracks(exact, w, id)
    ensures Fresh(exact, Do(w, Finish), id)
  {
    hide Last, Right, NoStray;
    if w.hand.GotAgent? && Last(w.queue, id).None? {
      if Holds(w.hand, id) { FinishRepairs(w, id); } else { FinishElsewhere(exact, w, id); }
    }
  }

  lemma QuietTracks(exact: bool, w: World, step: Step, id: string)
    requires WellFormed(w) && Tracks(exact, w, id) && !Emits(w, step, id)
    requires !step.Begin? && !step.ReadState? && !step.Finish? && !step.Decide?
    ensures Fresh(exact, Do(w, step), id)
  {
    NoEventSameKeys(w, step, id);
    QueueGrows(w, step);
    LastOfBoth(w.queue, Do(w, step).queue[|w.queue|..], id);
    QuietKeeps(w, step);
    if Right(exact, w, id) {
      RightKept(exact, w, Do(w, step), id);
    }
    hide Do, Recorded, Flying, LeasesLive, Stamped, Last, Right, NoStray;
  }

  lemma QuietKeeps(w: World, step: Step)
    requires !step.Begin? && !step.ReadState? && !step.Finish? && !step.Decide?
    ensures Do(w, step).places == w.places && Do(w, step).records == w.records && Do(w, step).hand == w.hand
  {
    hide NextJob;
  }

  lemma FreshStep(exact: bool, w: World, step: Step, id: string)
    requires WellFormed(w) && Tracks(exact, w, id) && !Emits(w, step, id) && !Discards(w, step, id)
    requires exact && step.Decide? ==>
      !(step.q in w.flights && w.flights[step.q].Asking? && About(w, w.flights[step.q], id))
    ensures Fresh(exact, Do(w, step), id)
  {
    match step
    case Decide(_, _, _) => hide *; AnswerTracks(exact, w, step, id);
    case Begin(_) => hide *; BeginTracks(exact, w, step, id);
    case ReadState(_) => hide *; ReadTracks(exact, w, step, id);
    case Finish => hide *; FinishTracks(exact, w, id);
    case _ => hide *; QuietTracks(exact, w, step, id);
  }

  // ---------- whole runs ----------

  ghost predicate WillEmit(w: World, steps: seq<Step>, id: string)
    decreases |steps|
  {
    steps != [] && (Emits(w, steps[0], id) || WillEmit(Do(w, steps[0]), steps[1..], id))
  }

  // An event of the id that is lost to a failed read is never the last one of the run.
  ghost predicate Caught(w: World, steps: seq<Step>, id: string)
    decreases |steps|
  {
    steps != [] ==>
      var next := Do(w, steps[0]);
      && (Discards(w, steps[0], id) ==> WillEmit(next, steps[1..], id))
      && Caught(next, steps[1..], id)
  }

  // No query holds a record of the id that it has still to write through.
  ghost predicate Unasked(w: World, id: string) {
    forall q :: q in w.flights && (w.flights[q].Holding? || w.flights[q].Asking?) ==> !About(w, w.flights[q], id)
  }

  predicate LooksUp(step: Step, id: string) {
    step.LookUp? && step.id == id
  }

  ghost predicate NeverQueries(steps: seq<Step>, id: string) {
    forall step :: step in steps ==> !LooksUp(step, id)
  }

  lemma UnaskedKept(w: World, step: Step, id: string)
    requires WellFormed(w) && Unasked(w, id) && !LooksUp(step, id)
    ensures Unasked(Do(w, step), id)
  {
    match step
    case Decide(_, _, _) => AnswerKeepsRest(w, step); hide Do, WellFormed;
    case LookUp(_, asked) =>
      hide AllFiledRight, LeasesLive, Stamped, Filed, Collections.First;
      if w.places.First(asked).Some? {
        var slot := FirstIsPlaced(w.places, asked);
        FiledAt(w.places, w.records, slot, asked);
      }
    case _ => hide AllFiledRight, LeasesLive, Stamped, Filed;
  }

  lemma HoldingIsNotOverwriting(w: World, steps: seq<Step>, id: string)
    requires RolesHold(w, steps, id) && steps != []
    ensures !Overwrites(w, steps[0], id) && RolesHold(Do(w, steps[0]), steps[1..], id)
  {
    hide Do, Overwrites;
    OverwritingKeepsSettings(w, steps[0], id);
    if id in w.settings && id in Do(w, steps[0]).settings {
      RolesChangeExactlyWhen(w, steps[0], id);
    }
  }

  lemma RunStep(exact: bool, w: World, steps: seq<Step>, id: string)
    requires WellFormed(w) && Fits(w, id) && steps != []
    requires Fresh(exact, w, id) || WillEmit(w, steps, id)
    requires Caught(w, steps, id) && steps[0] != RemoveSettings(id) && !Overwrites(w, steps[0], id)
    requires exact ==> Unasked(w, id)
    ensures var next := Do(w, steps[0]);
      Fits(next, id) && (Fresh(exact, next, id) || WillEmit(next, steps[1..], id))
  {
    hide Do, WellFormed, Fits, Fresh, Emits, Discards, Overwrites;
    FitsStep(w, steps[0], id);
    if Emits(w, steps[0], id) {
      EventIsOnItsWay(exact, w, steps[0], id);
    } else if Fresh(exact, w, id) && !Discards(w, steps[0], id) {
      FreshStep(exact, w, steps[0], id);
    }
  }

  // In every run that keeps the settings of an id and their roles, and loses no last event of it to a failed read, the
  // cache keeps track of the id, or regains it with the next event, whatever was missed before.
  lemma {:induction false} RunTracks(exact: bool, w: World, steps: seq<Step>, id: string)
    requires WellFormed(w) && Fits(w, id) && (Fresh(exact, w, id) || WillEmit(w, steps, id))
    requires Caught(w, steps, id) && KeepsSettings(steps, id) && RolesHold(w, steps, id)
    requires exact ==> Unasked(w, id) && NeverQueries(steps, id)
    ensures Tracks(exact, Run(w, steps), id)
    decreases |steps|
  {
    hide Do, WellFormed, Fits, Fresh, Unasked, LooksUp, RolesHold;
    if steps != [] {
      assert steps[0] in steps;
      HoldingIsNotOverwriting(w, steps, id);
      RunStep(exact, w, steps, id);
      StepKeepsForm(w, steps[0]);
      if exact { UnaskedKept(w, steps[0], id); }
      RunTracks(exact, Do(w, steps[0]), steps[1..], id);
    }
  }

  // When no read fails, no event is lost.
  lemma {:induction false} ReadsSucceed(w: World, steps: seq<Step>, id: string)
    requires Begin(false) !in steps && ReadState(false) !in steps
    ensures Caught(w, steps, id)
    decreases |steps|
  {
    hide Do;
    if steps != [] {
      assert steps[0] in steps;
      ReadsSucceed(Do(w, steps[0]), steps[1..], id);
    }
  }

  // ---------- convergence ----------

  // The cache right after registration: it was filled from a snapshot, and nothing was written since.
  ghost predicate InStep(w: World) {
    w.queue == [] && w.hand == Idle && w.flights == map[] && CacheOf(w) == Project(Joined(w))
  }

  lemma HeldIsCached(w: World, slot: Slot, id: string)
    ensures Held(w, slot, id) == Get(CacheOf(w).At(slot), id)
  {
  }

  lemma WantedIsProjected(w: World, slot: Slot, id: string)
    ensures Wanted(w, slot, id) == Get(Project(Joined(w)).At(slot), id)
  {
    assert Project(Joined(w)).At(slot) == Slice(Joined(w), slot);
  }

  lemma InStepTracks(w: World, id: string)
    requires WellFormed(w) && InStep(w)
    ensures Tracks(true, w, id) && Tracks(false, w, id) && Unasked(w, id)
  {
    hide Held, Wanted, Project, Joined, Collections.At, LeasesLive, Stamped, AllFiledRight;
    forall slot: Slot
      ensures Held(w, slot, id) == Wanted(w, slot, id)
      ensures id in w.places.At(slot) ==> Held(w, slot, id).Some?
      ensures Wanted(w, slot, id).Some? ==> id in w.settings && w.settings[id].roles.In(slot)
    {
      HeldIsCached(w, slot, id);
      WantedIsProjected(w, slot, id);
      if id in w.places.At(slot) { FiledIsHeld(w, slot, id); }
      WantedIsStored(w, slot, id);
    }
  }

  lemma FiledIsHeld(w: World, slot: Slot, id: string)
    requires Recorded(w) && id in w.places.At(slot)
    ensures Held(w, slot, id).Some?
  {
  }

  lemma WantedIsStored(w: World, slot: Slot, id: string)
    ensures Wanted(w, slot, id).Some? ==> id in w.settings && w.settings[id].roles.In(slot)
  {
  }

  lemma RightIsProjected(w: World)
    requires forall id :: Right(true, w, id)
    ensures CacheOf(w) == Project(Joined(w))
  {
    hide Held, Wanted, Project, Joined, Shown;
    var c, p := CacheOf(w), Project(Joined(w));
    forall slot: Slot ensures c.At(slot) == p.At(slot) {
      forall id ensures id in c.At(slot) <==> id in p.At(slot)
        ensures id in c.At(slot) ==> c.At(slot)[id] == p.At(slot)[id] {
        HeldIsCached(w, slot, id);
        WantedIsProjected(w, slot, id);
        assert Right(true, w, id);
      }
    }
    assert c.At(ETCD) == p.At(ETCD) && c.At(Master) == p.At(Master) && c.At(Minion) == p.At(Minion);
    assert c.At(HA) == p.At(HA) && c.At(Pool) == p.At(Pool);
  }

  predicate KeepsAllSettings(steps: seq<Step>) {
    forall step :: step in steps ==> !step.RemoveSettings? && !step.LookUp?
  }

  // Watch convergence: in every run of registrations, reports, expiries and watcher steps, whatever their interleaving,
  // however stale the watcher's reads and whichever fail, as long as no last event of an id is lost to a failed read
  // and no overtaken registration changes stored roles: once the events are handled the five collections are exactly
  // the projections of the agents whose settings and state are both stored.
  lemma WatchConverges(w: World, steps: seq<Step>)
    requires WellFormed(w) && InStep(w) && KeepsAllSettings(steps)
    requires forall id :: Caught(w, steps, id) && RolesHold(w, steps, id)
    ensures var end := Run(w, steps);
      end.queue == [] && end.hand == Idle ==> CacheOf(end) == Project(Joined(end))
  {
    hide Run, WellFormed, InStep, Right, Fits, Unasked, Project, Joined, CacheOf, Caught, RolesHold;
    var end := Run(w, steps);
    if end.queue == [] && end.hand == Idle {
      forall id ensures Right(true, end, id) {
        InStepTracks(w, id);
        RunTracks(true, w, steps, id);
      }
      RightIsProjected(end);
    }
  }

  // With queries in the run too, the same holds of everything but the deployment phase.
  lemma WatchConvergesUpToPhase(w: World, steps: seq<Step>, id: string)
    requires WellFormed(w) && InStep(w) && KeepsSettings(steps, id) && Caught(w, steps, id) && RolesHold(w, steps, id)
    ensures var end := Run(w, steps);
      Last(end.queue, id) == None && !Holds(end.hand, id) ==> Right(false, end, id)
  {
    hide Run, WellFormed, InStep, Right, Fits, Last;
    InStepTracks(w, id);
    RunTracks(false, w, steps, id);
  }

  // ---------- what one event repairs ----------

  // Which of the watcher's two reads succeed.
  datatype Reads = Reads(settings: bool, state: bool)

  // One round of the watcher's loop.
  ghost function Handled(w: World, r: Reads): World {
    Do(Do(Do(w, Begin(r.settings)), ReadState(r.state)), Finish)
  }

  lemma HandledKeeps(w: World, r: Reads)
    requires WellFormed(w) && w.hand == Idle && w.queue != []
    ensures var next := Handled(w, r);
      && next.hand == Idle && next.queue == w.queue[1..] && WellFormed(next)
      && next.settings == w.settings && next.states == w.states && next.cfg == w.cfg
  {
    hide Do, WellFormed, Collections.With, Collections.Without;
    var a := Do(w, Begin(r.settings));
    var b := Do(a, ReadState(r.state));
    StepKeepsForm(w, Begin(r.settings));
    StepKeepsForm(a, ReadState(r.state));
    StepKeepsForm(b, Finish);
    BeginKeeps(w, Begin(r.settings));
    ReadKeeps(a, r.state);
    FinishChanges(b);
  }

  lemma ReadKeeps(w: World, read: bool)
    ensures var next := Do(w, ReadState(read));
      && next == w.(hand := next.hand) && (w.hand == Idle ==> next.hand == Idle)
      && (w.hand.GotSettings? ==>
           next.hand == if read then GotAgent(w.hand.ev, WithState(w, w.hand.agent)) else Idle)
  {
  }

  // Handling one event leaves what the collections have of other ids alone; of its own id, every collection of the
  // stored roles gets what the store has, or loses it.
  lemma HandledHeld(w: World, id: string, slot: Slot)
    requires WellFormed(w) && w.hand == Idle && w.queue != []
    ensures var next, ev := Handled(w, Reads(true, true)), w.queue[0];
      var reached := ev.id == id && id in w.settings && w.settings[id].roles.In(slot);
      var admits := !ev.isDelete && id in w.states;
      && Held(next, slot, id) == (if !reached then Held(w, slot, id) else if admits then Stored(w, id) else None)
      && (id in next.places.At(slot) <==> if reached then admits else id in w.places.At(slot))
  {
    hide Held, Collections.At, LeasesLive, AllFiledRight, Roles.In;
    var ev := w.queue[0];
    assert ev.rev > w.syncRev;
    var a := Do(w, Begin(true));
    var b := Do(a, ReadState(true));
    assert b.places == w.places && b.records == w.records;
    HeldThere(w, b, slot, id);
    if ev.id in w.settings {
      assert b.hand == GotAgent(ev, WithState(w, w.settings[ev.id]));
      FinishHeld(b, id, slot);
    }
  }

  lemma HeldThere(w: World, next: World, slot: Slot, id: string)
    requires next.places == w.places && next.records == w.records
    ensures Held(next, slot, id) == Held(w, slot, id)
  {
  }

  // Handling one event of an id with stored settings makes the cache right for it at that moment, whatever was missed
  // before, exactly when it is not the deletion of a state that has been stored again since, and no collection has the
  // id where the stored roles do not reach it.
  lemma HandlingRepairsExactlyWhen(w: World, id: string)
    requires WellFormed(w) && w.hand == Idle && w.queue != [] && w.queue[0].id == id && id in w.settings
    ensures Right(true, Handled(w, Reads(true, true)), id) <==>
        !(w.queue[0].isDelete && id in w.states) && NoStray(w, id)
  {
    var next := Handled(w, Reads(true, true));
    HandledKeeps(w, Reads(true, true));
    hide Handled, Held, LeasesLive, Stamped, AllFiledRight, Flying, Collections.At;
    var own := SomeSlot(w.settings[id].roles);
    HandledHeld(w, id, own);
    forall slot: Slot
      ensures Same(true, Held(next, slot, id), Wanted(next, slot, id)) <==>
        if w.settings[id].roles.In(slot) then !(w.queue[0].isDelete && id in w.states) else id !in w.places.At(slot)
    {
      HandledHeld(w, id, slot);
      if id in w.places.At(slot) { FiledIsHeld(w, slot, id); } else { HeldNowhere(w, slot, id); }
    }
  }

  // Of collections that agree about an id, that is when its cached roles are covered by the stored ones.
  lemma NoStrayExactlyWhen(w: World, id: string)
    requires WellFormed(w) && CoherentAt(CacheOf(w), id)
    ensures NoStray(w, id) <==> match CacheOf(w).Lookup(id)
      case None => true
      case Some(cached) => id in w.settings && Covers(cached.roles, w.settings[id].roles)
  {
    hide Held, LeasesLive, Stamped, AllFiledRight, Flying, Shown, Cache.Lookup;
    forall slot: Slot
      ensures id in w.places.At(slot) <==> CacheOf(w).Lookup(id).Some? && CacheOf(w).Lookup(id).value.roles.In(slot)
    {
      HeldIsCached(w, slot, id);
      if id in w.places.At(slot) { FiledIsHeld(w, slot, id); } else { HeldNowhere(w, slot, id); }
    }
    hide CoherentAt, Collections.At;
    if CacheOf(w).Lookup(id).Some? {
      var slot := SomeSlot(CacheOf(w).Lookup(id).value.roles);
      assert id in w.places.At(slot);
    }
  }

  // ---------- draining the queue ----------

  // The watcher handles everything that is queued, with this luck in reading.
  ghost function Drained(w: World, luck: nat -> Reads, n: nat): World
    decreases |w.queue|
  {
    if w.queue == [] || w.hand != Idle then w
    else
      var next := Handled(w, luck(n));
      if |next.queue| < |w.queue| then Drained(next, luck, n + 1) else next
  }

  ghost predicate AlwaysReads(luck: nat -> Reads) {
    forall n :: luck(n) == Reads(true, true)
  }

  lemma DrainedNext(w: World, luck: nat -> Reads, n: nat)
    requires WellFormed(w) && w.hand == Idle && w.queue != []
    ensures Drained(w, luck, n) == Drained(Handled(w, luck(n)), luck, n + 1)
  {
    HandledKeeps(w, luck(n));
    hide Handled;
  }

  // What handling the next event makes of an id: what is queued last decides, whatever is there.
  lemma RepairStep(w: World, id: string)
    requires WellFormed(w) && w.hand == Idle && w.queue != [] && id in w.settings
    requires Last(w.queue, id).Some? && Last(w.queue, id).value.isDelete ==> id !in w.states
    ensures var next := Handled(w, Reads(true, true));
      && (Last(next.queue, id).Some? && Last(next.queue, id).value.isDelete ==> id !in next.states)
      && (Repairable(next, id) <==> Repairable(w, id))
  {
    var next := Handled(w, Reads(true, true));
    HandledKeeps(w, Reads(true, true));
    LastOfRest(w.queue, id);
    if w.queue[0].id == id {
      if Last(next.queue, id).None? { HandlingRepairsExactlyWhen(w, id); }
      StraysStay(w, id);
    } else {
      OthersAreLeftAlone(w, id);
    }
    hide Handled, Last, Right, NoStray, WellFormed;
  }

  // The cache is right for the id or an event will make it so.
  ghost predicate Repairable(w: World, id: string) {
    if Last(w.queue, id).Some? then NoStray(w, id) else Right(true, w, id)
  }

  lemma StraysStay(w: World, id: string)
    requires WellFormed(w) && w.hand == Idle && w.queue != [] && id in w.settings
    ensures NoStray(Handled(w, Reads(true, true)), id) <==> NoStray(w, id)
  {
    var next := Handled(w, Reads(true, true));
    HandledKeeps(w, Reads(true, true));
    hide Handled, Held, WellFormed, Collections.At, Roles.In;
    forall slot: Slot | !w.settings[id].roles.In(slot)
      ensures id in next.places.At(slot) <==> id in w.places.At(slot)
    {
      HandledHeld(w, id, slot);
    }
  }

  lemma OthersAreLeftAlone(w: World, id: string)
    requires WellFormed(w) && w.hand == Idle && w.queue != [] && w.queue[0].id != id
    ensures var next := Handled(w, Reads(true, true));
      (NoStray(next, id) <==> NoStray(w, id)) && (Right(true, next, id) <==> Right(true, w, id))
      && (Right(false, next, id) <==> Right(false, w, id))
  {
    var next := Handled(w, Reads(true, true));
    HandledKeeps(w, Reads(true, true));
    hide Handled, Held, WellFormed, Collections.At, Roles.In;
    forall slot: Slot
      ensures Held(next, slot, id) == Held(w, slot, id) && Wanted(next, slot, id) == Wanted(w, slot, id)
      ensures id in next.places.At(slot) <==> id in w.places.At(slot)
    {
      HandledHeld(w, id, slot);
    }
  }

  lemma {:induction false} DrainingRepairs(w: World, luck: nat -> Reads, n: nat, id: string)
    requires WellFormed(w) && w.hand == Idle && id in w.settings && AlwaysReads(luck)
    requires Last(w.queue, id).Some? && Last(w.queue, id).value.isDelete ==> id !in w.states
    ensures var end := Drained(w, luck, n);
      end.queue == [] && (Right(true, end, id) <==> Repairable(w, id))
    decreases |w.queue|
  {
    hide WellFormed, Right, NoStray;
    if w.queue != [] {
      HandledKeeps(w, luck(n));
      DrainedNext(w, luck, n);
      RepairStep(w, id);
      hide Handled, Drained, Last, Repairable;
      DrainingRepairs(Handled(w, luck(n)), luck, n + 1, id);
    }
  }

  // With a write to either key of an id on its way, whatever was missed before and whatever the cache has, draining
  // the queue makes the cache right for the id exactly when no collection has it where the stored roles do not reach.
  lemma WriteRepairsExactlyWhen(w: World, luck: nat -> Reads, id: string)
    requires WellFormed(w) && w.hand == Idle && id in w.settings && AlwaysReads(luck)
    requires Last(w.queue, id).Some? && (Last(w.queue, id).value.isDelete ==> id !in w.states)
    ensures Right(true, Drained(w, luck, 0), id) <==> NoStray(w, id)
  {
    hide WellFormed, Right, NoStray, Drained, Last;
    DrainingRepairs(w, luck, 0, id);
  }

  // Such a write is on its way after every put of settings or state and every removal of a state.
  lemma PutIsOnItsWay(w: World, step: Step, id: string)
    requires Emits(w, step, id) && step != RemoveSettings(id)
    ensures var next := Do(w, step);
      Last(next.queue, id).Some? && (Last(next.queue, id).value.isDelete ==> id !in next.states)
  {
    EventIsOnItsWay(true, w, step, id);
    hide Do, Last, Right;
  }

  lemma HandledTracks(exact: bool, w: World, id: string)
    requires WellFormed(w) && w.hand == Idle && w.queue != [] && Tracks(exact, w, id)
    ensures Tracks(exact, Handled(w, Reads(true, true)), id)
  {
    var a := Do(w, Begin(true));
    var b := Do(a, ReadState(true));
    StepKeepsForm(w, Begin(true));
    StepKeepsForm(a, ReadState(true));
    WatcherTracks(exact, w, Begin(true), id);
    WatcherTracks(exact, a, ReadState(true), id);
    WatcherTracks(exact, b, Finish, id);
    hide Do, WellFormed, Tracks;
  }

  lemma WatcherTracks(exact: bool, w: World, step: Step, id: string)
    requires WellFormed(w) && Tracks(exact, w, id) && step in [Begin(true), ReadState(true), Finish]
    ensures Tracks(exact, Do(w, step), id)
  {
    OnlyWritesEmit(w, step, id);
    hide Do, WellFormed, Fits, Fresh, Emits, Last;
    FitsStep(w, step, id);
    FreshStep(exact, w, step, id);
  }

  lemma {:induction false} DrainedTracks(exact: bool, w: World, luck: nat -> Reads, n: nat, id: string)
    requires WellFormed(w) && w.hand == Idle && AlwaysReads(luck) && Tracks(exact, w, id)
    ensures var end := Drained(w, luck, n);
      && end.queue == [] && end.hand == Idle && Tracks(exact, end, id)
      && end.settings == w.settings && end.states == w.states
    decreases |w.queue|
  {
    hide WellFormed, Tracks;
    if w.queue != [] {
      HandledKeeps(w, luck(n));
      DrainedNext(w, luck, n);
      HandledTracks(exact, w, id);
      hide Handled, Drained;
      DrainedTracks(exact, Handled(w, luck(n)), luck, n + 1, id);
    }
  }

  // Once the watcher has handled every event of a cache on track, the five collections are exactly the projections
  // of the agents whose settings and state are both stored.
  lemma DrainedConverges(w: World, luck: nat -> Reads)
    requires WellFormed(w) && w.hand == Idle && AlwaysReads(luck) && forall id :: Tracks(true, w, id)
    ensures Drained(w, luck, 0).queue == [] && CacheOf(Drained(w, luck, 0)) == Project(Joined(w))
  {
    hide WellFormed, Drained, Right, Fits, CacheOf, Project, Joined;
    var end := Drained(w, luck, 0);
    forall id ensures Right(true, end, id) && end.queue == [] && end.settings == w.settings && end.states == w.states {
      assert Tracks(true, w, id);
      DrainedTracks(true, w, luck, 0, id);
    }
    assert Right(true, end, "");
    RightIsProjected(end);
    SameJoined(end, w);
  }

  // What the projections of the store are, collection by collection.
  lemma JoinedByRole(w: World, id: string)
    ensures var c := Project(Joined(w)); var both := id in w.settings && id in w.states;
      && (id in c.etcd <==> both && w.settings[id].roles.etcd)
      && (id in c.master <==> both && w.settings[id].roles.master)
      && (id in c.minion <==> both && w.settings[id].roles.minion)
      && (id in c.ha <==> both && w.settings[id].roles.ha)
      && (id in c.pool <==> (both && !w.settings[id].roles.etcd && !w.settings[id].roles.master
            && !w.settings[id].roles.minion && !w.settings[id].roles.ha))
      && forall slot: Slot :: id in c.At(slot) ==>
          c.At(slot)[id] == w.settings[id].(state := Some(w.states[id].state))
  {
    assert forall slot: Slot :: Project(Joined(w)).At(slot) == Slice(Joined(w), slot);
  }

  lemma SameJoined(a: World, b: World)
    requires a.settings == b.settings && a.states == b.states
    ensures Joined(a) == Joined(b)
  {
  }

  // ---------- removing an agent ----------

  ghost predicate Cached(w: World, id: string) {
    exists slot: Slot :: id in w.places.At(slot)
  }

  // Whether the id is in a collection once the watcher has cached what it holds.
  ghost predicate Remains(w: World, id: string) {
    if !(Holds(w.hand, id) && w.hand.GotAgent?) then Cached(w, id)
    else if !w.hand.ev.isDelete && w.hand.agent.state.Some? then true
    else exists slot: Slot :: id in w.places.At(slot) && !w.hand.agent.roles.In(slot)
  }

  predicate HalfRead(w: World, id: string) {
    Holds(w.hand, id) && w.hand.GotSettings?
  }

  // The same, asked as soon as the watcher has finished a read of the id that it had begun.
  ghost predicate WillRemain(w: World, steps: seq<Step>, id: string)
    decreases |steps|
  {
    if !HalfRead(w, id) then Remains(w, id)
    else steps != [] && WillRemain(Do(w, steps[0]), steps[1..], id)
  }

  // Nothing stores settings of the id.
  ghost predicate StaysRemoved(w: World, steps: seq<Step>, id: string)
    decreases |steps|
  {
    id !in w.settings && (steps != [] ==> StaysRemoved(Do(w, steps[0]), steps[1..], id))
  }

  ghost predicate SomeLands(w: World, steps: seq<Step>, id: string)
    decreases |steps|
  {
    steps != [] && (Lands(w, steps[0], id) || SomeLands(Do(w, steps[0]), steps[1..], id))
  }

  // A removal is final exactly when no message about the id lands afterwards: of a query that still holds its record,
  // or of a registration.
  lemma {:induction false} RemovalIsFinalExactlyWhen(w: World, steps: seq<Step>, id: string)
    requires id !in w.settings
    ensures StaysRemoved(w, steps, id) <==> !SomeLands(w, steps, id)
    decreases |steps|
  {
    hide Do, Lands;
    if steps != [] {
      LandingStores(w, steps[0], id);
      if !Lands(w, steps[0], id) { RemovalIsFinalExactlyWhen(Do(w, steps[0]), steps[1..], id); }
    }
  }

  lemma LandingStores(w: World, step: Step, id: string)
    requires id !in w.settings
    ensures id in Do(w, step).settings <==> Lands(w, step, id)
  {
    if step != RemoveSettings(id) { OnlyPutsChangeSettings(w, step, id); }
    hide NextJob;
  }

  // Nothing has the id any more but the states and events that are left of it.
  ghost predicate Gone(w: World, id: string) {
    && id !in w.settings && !Cached(w, id) && !Holds(w.hand, id)
    && forall q :: q in w.flights ==> !About(w, w.flights[q], id)
  }

  // A registration of this id.
  predicate Registers(step: Step, id: string) {
    step.Check? && NewId(step.agent, step.uuid) == id
  }

  // An agent that is gone stays so, whatever it goes on reporting and asking, until it registers again.
  lemma {:induction false} GoneStaysGone(w: World, steps: seq<Step>, id: string)
    requires WellFormed(w) && Gone(w, id) && forall step :: step in steps ==> !Registers(step, id)
    ensures Gone(Run(w, steps), id) && StaysRemoved(w, steps, id)
    decreases |steps|
  {
    hide Do, WellFormed, Gone, Registers;
    GoneIsRemoved(w, id);
    if steps != [] {
      assert steps[0] in steps;
      GoneStep(w, steps[0], id);
      StepKeepsForm(w, steps[0]);
      GoneStaysGone(Do(w, steps[0]), steps[1..], id);
    }
  }

  lemma GoneIsRemoved(w: World, id: string)
    requires Gone(w, id)
    ensures id !in w.settings
  {
  }

  lemma GoneStep(w: World, step: Step, id: string)
    requires WellFormed(w) && Gone(w, id) && !Registers(step, id)
    ensures Gone(Do(w, step), id)
  {
    match step
    case Finish => hide *; GoneFinish(w, id);
    case LookUp(_, _) => hide *; GoneLookUp(w, step, id);
    case Decide(_, _, _) => hide *; GoneAnswer(w, step, id);
    case _ => hide *; GoneRest(w, step, id);
  }

  lemma GoneFinish(w: World, id: string)
    requires WellFormed(w) && Gone(w, id)
    ensures Gone(Do(w, Finish), id)
  {
    hide Collections.At, Collections.With, Collections.Without, Roles.In, AllFiledRight, LeasesLive, Stamped;
    FilesRight(w);
    if w.hand.GotAgent? {
      forall slot: Slot ensures id !in Do(w, Finish).places.At(slot) { FinishHeld(w, id, slot); }
    }
  }

  lemma GoneLookUp(w: World, step: Step, id: string)
    requires WellFormed(w) && Gone(w, id) && step.LookUp?
    ensures Gone(Do(w, step), id)
  {
    hide AllFiledRight, LeasesLive, Stamped, Filed, Collections.First, Collections.At;
    if w.places.First(step.id).Some? {
      var slot := FirstIsPlaced(w.places, step.id);
      FiledAt(w.places, w.records, slot, step.id);
    }
  }

  lemma GoneAnswer(w: World, step: Step, id: string)
    requires WellFormed(w) && Gone(w, id) && step.Decide?
    ensures Gone(Do(w, step), id)
  {
    hide Do, WellFormed, Collections.At;
    AnswerKeepsRest(w, step);
    forall q | q in Do(w, step).flights ensures !About(Do(w, step), Do(w, step).flights[q], id) {
      assert !About(w, w.flights[q], id);
      assert SameRequest(w.flights[q], Do(w, step).flights[q]);
    }
  }

  lemma GoneRest(w: World, step: Step, id: string)
    requires WellFormed(w) && Gone(w, id) && !Registers(step, id)
    requires !step.Finish? && !step.LookUp? && !step.Decide?
    ensures Gone(Do(w, step), id)
  {
    hide NextJob, Collections.At, AllFiledRight, LeasesLive, Stamped, Recorded;
  }

  lemma RemainsFinish(w: World, id: string)
    requires WellFormed(w) && !HalfRead(w, id)
    ensures Remains(Do(w, Finish), id) <==> Remains(w, id)
  {
    if w.hand.GotAgent? {
      forall slot: Slot { FinishHeld(w, id, slot); }
      if Holds(w.hand, id) {
        var own := SomeSlot(w.hand.agent.roles);
        FinishHeld(w, id, own);
      }
      hide Held, Collections.At, Collections.With, Collections.Without, WellFormed, Roles.In;
      assert Do(w, Finish).hand == Idle;
    }
  }

  lemma RemainsStep(w: World, step: Step, id: string)
    requires WellFormed(w) && id !in w.settings && !HalfRead(w, id)
    ensures !HalfRead(Do(w, step), id) && (Remains(Do(w, step), id) <==> Remains(w, id))
  {
    match step
    case Finish => RemainsFinish(w, id); hide WellFormed, Collections.With, Collections.Without, Collections.At;
    case Decide(_, _, _) => AnswerKeepsRest(w, step); hide Do, WellFormed, Collections.At, Roles.In;
    case Begin(_) => BeginKeeps(w, step); hide Do, WellFormed, Collections.At, Roles.In;
    case ReadState(_) => hide WellFormed, Collections.At, Roles.In;
    case _ => QuietKeeps(w, step); hide Do, WellFormed, Collections.At, Roles.In;
  }

  lemma {:induction false} GhostRun(w: World, steps: seq<Step>, id: string)
    requires WellFormed(w) && StaysRemoved(w, steps, id)
    ensures !HalfRead(Run(w, steps), id) ==> (Remains(Run(w, steps), id) <==> WillRemain(w, steps, id))
    decreases |steps|
  {
    hide Do, WellFormed, Remains, HalfRead;
    if steps != [] {
      StepKeepsForm(w, steps[0]);
      GhostRun(Do(w, steps[0]), steps[1..], id);
      if !HalfRead(w, id) {
        RemainsStep(w, steps[0], id);
        WillRemainIsRemains(Do(w, steps[0]), steps[1..], id);
      }
    }
  }

  lemma WillRemainIsRemains(w: World, steps: seq<Step>, id: string)
    ensures !HalfRead(w, id) ==> (WillRemain(w, steps, id) <==> Remains(w, id))
  {
  }

  // When the settings of an agent are removed it stays in the cache for good, whatever it goes on reporting and asking,
  // as long as its settings are not stored again, exactly when it is cached, or about to be, at that moment; if the
  // watcher has read its settings but not its state, what it finds there decides. Later events are skipped.
  lemma RemovalLeavesGhostExactlyWhen(w: World, steps: seq<Step>, id: string)
    requires WellFormed(w) && id in w.settings && StaysRemoved(Do(w, RemoveSettings(id)), steps, id)
    ensures var end := Run(Do(w, RemoveSettings(id)), steps);
      !Holds(end.hand, id) ==> (Cached(end, id) <==> WillRemain(Do(w, RemoveSettings(id)), steps, id))
  {
    StepKeepsForm(w, RemoveSettings(id));
    hide Do, WellFormed, Run, WillRemain, Cached;
    GhostRun(Do(w, RemoveSettings(id)), steps, id);
  }

  // That does not happen once the watcher has handled the events of the id, the deletion of its state among them.
  lemma HandledRemovalLeavesNothing(w: World, id: string)
    requires WellFormed(w) && Tracks(false, w, id) && id in w.settings && id !in w.states
    requires Last(w.queue, id) == None && !Holds(w.hand, id)
    ensures !Cached(w, id) && !HalfRead(w, id) && !Remains(Do(w, RemoveSettings(id)), id)
  {
    hide LeasesLive, Stamped, AllFiledRight, Last, Held;
    forall slot: Slot ensures id !in w.places.At(slot) {
      if id in w.places.At(slot) { FiledIsHeld(w, slot, id); }
      assert Same(false, Held(w, slot, id), Wanted(w, slot, id));
    }
  }
}

/**
  Delayed transfers of agents between clusters (cmd/apiserver/apis/v1/agents/apis.go): tasks in a two-level
  registry under a lock, each with a goroutine that waits for its timeout or its cancellation, takes its
  entry out of the registry, and then runs its work unless it was cancelled.
 */
module PendingTasks {
  import opened Entities
  import opened Caching

  // ---------- the registry ----------

  function Entry<T>(reg: map<string, map<string, T>>, clusterId: string, agentId: string): Option<T> {
    if clusterId in reg && agentId in reg[clusterId] then Some(reg[clusterId][agentId]) else None
  }

  function With<T>(reg: map<string, map<string, T>>, clusterId: string, agentId: string,
                   task: T): map<string, map<string, T>> {
    reg[clusterId := (if clusterId in reg then reg[clusterId] else map[])[agentId := task]]
  }

  // An emptied collection is taken out with its last entry.
  function Without<T>(reg: map<string, map<string, T>>, clusterId: string,
                      agentId: string): map<string, map<string, T>> {
    if clusterId !in reg || |reg[clusterId]| == 0 then reg
    else
      var rest := reg[clusterId] - {agentId};
      if |rest| > 0 then reg[clusterId := rest] else reg - {clusterId}
  }

  ghost predicate NoneEmpty<T>(reg: map<string, map<string, T>>) {
    forall c :: c in reg ==> reg[c] != map[]
  }

  // Taking a key out or putting it in leaves every other entry in place, and never stores an empty collection.
  lemma PutIn<T>(reg: map<string, map<string, T>>, c: string, a: string, task: T, other: string, agent: string)
    requires NoneEmpty(reg)
    ensures NoneEmpty(With(reg, c, a, task))
    ensures Entry(With(reg, c, a, task), other, agent)
         == if (other, agent) == (c, a) then Some(task) else Entry(reg, other, agent)
  {
    assert a in With(reg, c, a, task)[c];
  }

  lemma TakenOut<T>(reg: map<string, map<string, T>>, c: string, a: string, other: string, agent: string)
    requires NoneEmpty(reg)
    ensures NoneEmpty(Without(reg, c, a))
    ensures Entry(Without(reg, c, a), other, agent)
         == if (other, agent) == (c, a) then None else Entry(reg, other, agent)
  {
    if c in reg {
      var rest := reg[c] - {a};
      assert |rest| == 0 <==> rest == map[];
      assert other == c && agent in reg[c] && agent != a ==> agent in rest;
    }
  }

  // ---------- the protocol ----------

  // Where the goroutine of a task is: before its clean-up, between clean-up and decision, or done.
  datatype Position = Waiting | Cleaned | Finished

  datatype Task = Task(clusterId: string, agentId: string, at: Position, cancelled: bool, runs: nat)

  datatype State = State(tasks: seq<Task>, registry: map<string, map<string, nat>>)

  const START := State([], map[])

  datatype Step =
    | Add(clusterId: string, agentId: string)
    | Cancel(clusterId: string, agentId: string)
    | CleanUp(task: nat)   // the goroutine wakes up, by time or by cancellation, and removes its entry by key
    | Decide(task: nat)    // it then runs its work unless it finds itself cancelled

  function Do(s: State, step: Step): State {
    match step
    case Add(c, a) =>
      if Entry<nat>(s.registry, c, a).Some? then s
      else State(s.tasks + [Task(c, a, Waiting, false, 0)], With<nat>(s.registry, c, a, |s.tasks|))
    case Cancel(c, a) =>
      var found := Entry<nat>(s.registry, c, a);
      var tasks :=
        if found.None? || found.value >= |s.tasks| then s.tasks
        else s.tasks[found.value := s.tasks[found.value].(cancelled := true)];
      State(tasks, Without<nat>(s.registry, c, a))
    case CleanUp(i) =>
      if i >= |s.tasks| || s.tasks[i].at != Waiting then s
      else State(s.tasks[i := s.tasks[i].(at := Cleaned)],
        Without<nat>(s.registry, s.tasks[i].clusterId, s.tasks[i].agentId))
    case Decide(i) =>
      if i >= |s.tasks| || s.tasks[i].at != Cleaned then s
      else
        var t := s.tasks[i];
        s.(tasks := s.tasks[i := t.(at := Finished, runs := if t.cancelled then t.runs else t.runs + 1)])
  }

  function Run(s: State, steps: seq<Step>): State
    decreases |steps|
  {
    if steps == [] then s else Run(Do(s, steps[0]), steps[1..])
  }

  // Not cancelled, and its goroutine has not passed its clean-up.
  predicate Live(s: State, i: nat) {
    i < |s.tasks| && s.tasks[i].at == Waiting && !s.tasks[i].cancelled
  }

  predicate Registered(s: State, i: nat) {
    i < |s.tasks| && Entry<nat>(s.registry, s.tasks[i].clusterId, s.tasks[i].agentId) == Some(i)
  }

  predicate Sane(t: Task) {
    && (t.at != Finished ==> t.runs == 0)
    && (t.at == Finished ==> t.runs == if t.cancelled then 0 else 1)
  }

  // Each entry is a live task of its own key; a cancelled task has not run, and an uncancelled one runs once.
  ghost predicate Inv(s: State) {
    && NoneEmpty<nat>(s.registry)
    && (forall i :: 0 <= i < |s.tasks| ==> Sane(s.tasks[i]))
    && (forall c, a :: Entry<nat>(s.registry, c, a).Some? ==> Owns(s, c, a, Entry<nat>(s.registry, c, a).value))
  }

  predicate Owns(s: State, c: string, a: string, i: nat) {
    Live(s, i) && s.tasks[i].clusterId == c && s.tasks[i].agentId == a
  }

  lemma StepKeepsInv(s: State, step: Step)
    requires Inv(s)
    ensures Inv(Do(s, step))
    ensures |Do(s, step).tasks| >= |s.tasks|
  {
    hide With, Without, Entry, NoneEmpty;
    var next := Do(s, step);
    RegistryStep(s, step, "", "");
    if step.Cancel? && Entry<nat>(s.registry, step.clusterId, step.agentId).Some? { CancelledOwns(s, step); }
    forall c, a | Entry<nat>(next.registry, c, a).Some?
      ensures Owns(next, c, a, Entry<nat>(next.registry, c, a).value) {
      RegistryStep(s, step, c, a);
    }
  }

  lemma CancelledOwns(s: State, step: Step)
    requires Inv(s) && step.Cancel? && Entry<nat>(s.registry, step.clusterId, step.agentId).Some?
    ensures Owns(s, step.clusterId, step.agentId, Entry<nat>(s.registry, step.clusterId, step.agentId).value)
  {
  }

  // What a step does to one key of the registry.
  lemma RegistryStep(s: State, step: Step, c: string, a: string)
    requires Inv(s)
    ensures NoneEmpty<nat>(Do(s, step).registry)
    ensures Entry<nat>(Do(s, step).registry, c, a) == match step
      case Add(c', a') =>
        var was := Entry<nat>(s.registry, c, a);
        if (c, a) == (c', a') && was.None? then Some(|s.tasks|) else was
      case Cancel(c', a') => if (c, a) == (c', a') then None else Entry<nat>(s.registry, c, a)
      case CleanUp(i) =>
        if i < |s.tasks| && s.tasks[i].at == Waiting && (s.tasks[i].clusterId, s.tasks[i].agentId) == (c, a) then None
        else Entry<nat>(s.registry, c, a)
      case Decide(_) => Entry<nat>(s.registry, c, a)
  {
    hide With, Without, Entry, NoneEmpty, Sane, Owns;
    match step
    case Add(c', a') => PutIn<nat>(s.registry, c', a', |s.tasks|, c, a);
    case Cancel(c', a') => TakenOut<nat>(s.registry, c', a', c, a);
    case CleanUp(i) => if i < |s.tasks| { TakenOut<nat>(s.registry, s.tasks[i].clusterId, s.tasks[i].agentId, c, a); }
    case Decide(_) =>
  }

  lemma {:induction false} RunKeepsInv(s: State, steps: seq<Step>)
    requires Inv(s)
    ensures Inv(Run(s, steps)) && |Run(s, steps).tasks| >= |s.tasks|
    decreases |steps|
  {
    hide Do, Inv;
    if steps != [] {
      StepKeepsInv(s, steps[0]);
      RunKeepsInv(Do(s, steps[0]), steps[1..]);
    }
  }

  // Cancel or fire, never both: in every interleaving, a task runs at most once, a cancelled one never,
  // and one that is done has either been cancelled or has run. Nothing that is done or cancelled stays registered.
  lemma CancelOrFire(steps: seq<Step>, i: nat)
    ensures var end := Run(START, steps);
      && NoneEmpty<nat>(end.registry)
      && (i < |end.tasks| ==>
        && end.tasks[i].runs <= 1 && !(end.tasks[i].cancelled && end.tasks[i].runs > 0)
        && (end.tasks[i].at == Finished ==> (end.tasks[i].runs == 1 <==> !end.tasks[i].cancelled))
        && (Registered(end, i) ==> Live(end, i)))
  {
    RunKeepsInv(START, steps);
  }

  // When every goroutine is done the registry is empty again.
  lemma NothingIsLeftBehind(steps: seq<Step>)
    requires forall i :: 0 <= i < |Run(START, steps).tasks| ==> Run(START, steps).tasks[i].at == Finished
    ensures Run(START, steps).registry == map[]
  {
    RunKeepsInv(START, steps);
    var end := Run(START, steps);
    assert forall c, a :: Entry<nat>(end.registry, c, a).None?;
    if end.registry != map[] {
      var _, _ := SomeEntry(end.registry);
      assert false;
    }
  }

  lemma SomeEntry(reg: map<string, map<string, nat>>) returns (c: string, a: string)
    requires NoneEmpty<nat>(reg) && reg != map[]
    ensures Entry<nat>(reg, c, a).Some?
  {
    c :| c in reg;
    a :| a in reg[c];
  }

  // A step keeps the identity of a task, never revives it, and never takes a cancellation back.
  lemma TaskStep(s: State, step: Step, i: nat)
    requires i < |s.tasks|
    ensures var t, next := s.tasks[i], Do(s, step);
      && i < |next.tasks| && next.tasks[i].clusterId == t.clusterId && next.tasks[i].agentId == t.agentId
      && (t.cancelled ==> next.tasks[i].cancelled) && (t.at != Waiting ==> next.tasks[i].at != Waiting)
  {
    hide With, Without;
  }

  lemma {:induction false} StaysCancelled(s: State, steps: seq<Step>, i: nat)
    requires Inv(s) && i < |s.tasks| && s.tasks[i].cancelled
    ensures i < |Run(s, steps).tasks| && Run(s, steps).tasks[i].cancelled && Run(s, steps).tasks[i].runs == 0
    decreases |steps|
  {
    hide Do;
    if steps != [] {
      StepKeepsInv(s, steps[0]);
      TaskStep(s, steps[0], i);
      StaysCancelled(Do(s, steps[0]), steps[1..], i);
    } else {
      assert Sane(s.tasks[i]);
    }
  }

  // A task that Cancel finds never runs its work, whatever its goroutine does and whenever it wakes up.
  lemma FoundByCancelNeverRuns(before: seq<Step>, after: seq<Step>, c: string, a: string)
    requires Entry<nat>(Run(START, before).registry, c, a).Some?
    ensures var i := Entry<nat>(Run(START, before).registry, c, a).value;
      var end := Run(Do(Run(START, before), Cancel(c, a)), after);
      i < |end.tasks| && end.tasks[i].cancelled && end.tasks[i].runs == 0
  {
    var s := Run(START, before);
    RunKeepsInv(START, before);
    assert Owns(s, c, a, Entry<nat>(s.registry, c, a).value);
    StepKeepsInv(s, Cancel(c, a));
    StaysCancelled(Do(s, Cancel(c, a)), after, Entry<nat>(s.registry, c, a).value);
  }

  // ---------- the clean-up removes by key, not by task ----------

  // The goroutine of another task with the key of task i passes its clean-up.
  predicate Clobbers(s: State, step: Step, i: nat) {
    && step.CleanUp? && step.task != i && step.task < |s.tasks| && i < |s.tasks| && s.tasks[step.task].at == Waiting
    && s.tasks[step.task].clusterId == s.tasks[i].clusterId && s.tasks[step.task].agentId == s.tasks[i].agentId
  }

  predicate Clobbered(s: State, steps: seq<Step>, i: nat)
    decreases |steps|
  {
    steps != [] && (Clobbers(s, steps[0], i) || Clobbered(Do(s, steps[0]), steps[1..], i))
  }

  lemma {:induction false} LostForGood(s: State, steps: seq<Step>, i: nat)
    requires Inv(s) && i < |s.tasks| && !Registered(s, i)
    ensures i < |Run(s, steps).tasks| && !Registered(Run(s, steps), i)
    decreases |steps|
  {
    hide With, Without, Entry, Inv;
    if steps != [] {
      StepKeepsInv(s, steps[0]);
      TaskStep(s, steps[0], i);
      RegistryStep(s, steps[0], s.tasks[i].clusterId, s.tasks[i].agentId);
      LostForGood(Do(s, steps[0]), steps[1..], i);
    }
  }

  lemma RegisteredStep(s: State, step: Step, i: nat)
    requires Inv(s) && Registered(s, i)
    ensures i < |Do(s, step).tasks|
    ensures Live(Do(s, step), i) ==> (Registered(Do(s, step), i) <==> !Clobbers(s, step, i))
  {
    hide With, Without, Entry, NoneEmpty, Sane;
    if step.Cancel? && Entry<nat>(s.registry, step.clusterId, step.agentId).Some? { CancelledOwns(s, step); }
    TaskStep(s, step, i);
    RegistryStep(s, step, s.tasks[i].clusterId, s.tasks[i].agentId);
    assert Owns(s, s.tasks[i].clusterId, s.tasks[i].agentId, i);
  }

  lemma {:induction false} NotRevived(s: State, steps: seq<Step>, i: nat)
    requires i < |s.tasks| && Live(Run(s, steps), i)
    ensures Live(s, i)
    decreases |steps|
  {
    hide Do;
    if steps != [] {
      TaskStep(s, steps[0], i);
      NotRevived(Do(s, steps[0]), steps[1..], i);
    }
  }

  // A registered task that is still live at the end of a run has been dropped from the registry, so that Cancel
  // can no longer find it, exactly when another task of its key passed its clean-up in the run.
  lemma {:induction false} DroppedExactlyWhen(s: State, steps: seq<Step>, i: nat)
    requires Inv(s) && Registered(s, i) && Live(Run(s, steps), i)
    ensures Registered(Run(s, steps), i) <==> !Clobbered(s, steps, i)
    decreases |steps|
  {
    hide Do, Inv, Registered, Live, Clobbers;
    if steps != [] {
      var next := Do(s, steps[0]);
      StepKeepsInv(s, steps[0]);
      RegisteredStep(s, steps[0], i);
      NotRevived(next, steps[1..], i);
      if Registered(next, i) {
        DroppedExactlyWhen(next, steps[1..], i);
      } else {
        LostForGood(next, steps[1..], i);
      }
    }
  }

  // A cancelled transfer that is asked for again before its goroutine woke up: the clean-up of the first task drops the
  // second one, the next cancellation finds nothing, and the work runs all the same.
  lemma CancelMissesDroppedTask(c: string, a: string)
    ensures var s := Run(START, [Add(c, a), Cancel(c, a), Add(c, a), CleanUp(0)]);
      && Live(s, 1) && Entry<nat>(s.registry, c, a) == None
      && Do(s, Cancel(c, a)) == s
      && Run(s, [CleanUp(1), Decide(1)]).tasks[1].runs == 1
  {
    var first := Task(c, a, Waiting, false, 0);
    Dropped(c, a);
    var s := State([first.(at := Cleaned, cancelled := true), first], map[]);
    RunTwice(s, CleanUp(1), Decide(1), []);
  }

  lemma Dropped(c: string, a: string)
    ensures Run(START, [Add(c, a), Cancel(c, a), Add(c, a), CleanUp(0)])
         == State([Task(c, a, Cleaned, true, 0), Task(c, a, Waiting, false, 0)], map[])
  {
    hide Run, With, Without, Entry;
    var first, gone := Task(c, a, Waiting, false, 0), Task(c, a, Waiting, true, 0);
    var s0, s1 := State([first], map[c := map[a := 0]]), State([gone], map[]);
    var s2 := State([gone, first], map[c := map[a := 1]]);
    Emptied(c, a, 0);
    Emptied(c, a, 1);
    assert Do(START, Add(c, a)) == s0;
    assert Do(s0, Cancel(c, a)) == s1;
    assert Do(s1, Add(c, a)) == s2;
    RunTwice(START, Add(c, a), Cancel(c, a), [Add(c, a), CleanUp(0)]);
    RunTwice(s1, Add(c, a), CleanUp(0), []);
    assert [Add(c, a), Cancel(c, a), Add(c, a), CleanUp(0)] == [Add(c, a), Cancel(c, a)] + [Add(c, a), CleanUp(0)];
    assert [Add(c, a), CleanUp(0)] + [] == [Add(c, a), CleanUp(0)];
    RunNothing(Do(s2, CleanUp(0)));
  }

  lemma RunNothing(s: State)
    ensures Run(s, []) == s
  {
  }

  lemma Emptied(c: string, a: string, i: nat)
    ensures Without<nat>(map[c := map[a := i]], c, a) == map[] && With<nat>(map[], c, a, i) == map[c := map[a := i]]
    ensures Entry<nat>(map[c := map[a := i]], c, a) == Some(i) && Entry<nat>(map[], c, a) == None
  {
    assert map[a := i] - {a} == map[] && map[c := map[a := i]] - {c} == map[];
  }

  lemma RunTwice(s: State, x: Step, y: Step, rest: seq<Step>)
    ensures Run(s, [x, y] + rest) == Run(Do(Do(s, x), y), rest)
  {
    hide Do;
    var steps := [x, y] + rest;
    assert steps[1..] == [y] + rest && steps[1..][1..] == rest;
  }

  // ---------- the tasks as objects ----------

  // What a listing shows of an agent.
  datatype Brief = Brief(id: string, roles: Roles, hostname: string, phase: int, state: Option<AgentState>)

  class PendingTask {
    const clusterId: string
    const agentId: string
    const brief: Brief
    ghost const number: nat
    var isCancelled: bool
    ghost var at: Position
    ghost var runs: nat

    constructor (clusterId: string, agentId: string, brief: Brief, ghost number: nat)
      ensures this.brief == brief && this.number == number && Value() == Task(clusterId, agentId, Waiting, false, 0)
      ensures this.clusterId == clusterId && this.agentId == agentId && !isCancelled
    {
      this.clusterId, this.agentId, this.brief, this.number := clusterId, agentId, brief, number;
      isCancelled, at, runs := false, Waiting, 0;
    }

    ghost function Value(): Task
      reads this
    {
      Task(clusterId, agentId, at, isCancelled, runs)
    }
  }

  // Both registries have the same keys, and a number stands for the task at that place.
  ghost predicate Numbered(registry: map<string, map<string, nat>>, all: seq<PendingTask>, pending: map<string,
                          map<string, PendingTask>>) {
    forall c, a :: Entry(pending, c, a) == Of(all, Entry<nat>(registry, c, a))
  }

  ghost function Of(all: seq<PendingTask>, i: Option<nat>): Option<PendingTask> {
    if i.Some? && i.value < |all| then Some(all[i.value]) else None
  }

  ghost predicate Within(registry: map<string, map<string, nat>>, bound: nat) {
    forall c, a :: Entry<nat>(registry, c, a).Some? ==> Entry<nat>(registry, c, a).value < bound
  }

  lemma NumberedWith(registry: map<string, map<string, nat>>, all: seq<PendingTask>, pending: map<string, map<string,
                    PendingTask>>,
                    c: string, a: string, t: PendingTask)
    requires NoneEmpty<nat>(registry) && NoneEmpty(pending) && Numbered(registry, all, pending)
    requires Within(registry, |all|)
    ensures NoneEmpty(With(pending, c, a, t))
    ensures Numbered(With<nat>(registry, c, a, |all|), all + [t], With(pending, c, a, t))
  {
    hide With, Without, Entry, NoneEmpty;
    PutIn(pending, c, a, t, "", "");
    forall other, agent
      ensures Entry(With(pending, c, a, t), other, agent)
          == Of(all + [t], Entry<nat>(With<nat>(registry, c, a, |all|), other, agent))
    {
      PutIn(pending, c, a, t, other, agent);
      PutIn<nat>(registry, c, a, |all|, other, agent);
    }
  }

  lemma NumberedWithout(registry: map<string, map<string, nat>>, all: seq<PendingTask>, pending: map<string, map<string,
                       PendingTask>>,
                       c: string, a: string)
    requires NoneEmpty<nat>(registry) && NoneEmpty(pending) && Numbered(registry, all, pending)
    ensures NoneEmpty(Without(pending, c, a)) && Numbered(Without<nat>(registry, c, a), all, Without(pending, c, a))
  {
    hide With, Without, Entry, NoneEmpty;
    TakenOut(pending, c, a, "", "");
    forall other, agent
      ensures Entry(Without(pending, c, a), other, agent)
          == Of(all, Entry<nat>(Without<nat>(registry, c, a), other, agent))
    {
      TakenOut(pending, c, a, other, agent);
      TakenOut<nat>(registry, c, a, other, agent);
    }
  }

  // No other key has another entry.
  ghost predicate OthersStay<T>(before: map<string, map<string, T>>, after: map<string, map<string, T>>,
                                clusterId: string, agentId: string) {
    forall c, a :: (c, a) != (clusterId, agentId) ==> Entry(after, c, a) == Entry(before, c, a)
  }

  lemma OneMore(reg: map<string, map<string, PendingTask>>, clusterId: string, agentId: string, t: PendingTask)
    requires NoneEmpty(reg)
    ensures OthersStay(reg, With(reg, clusterId, agentId, t), clusterId, agentId)
    ensures Entry(With(reg, clusterId, agentId, t), clusterId, agentId) == Some(t)
  {
    hide With, NoneEmpty;
    forall c, a { PutIn(reg, clusterId, agentId, t, c, a); }
  }

  lemma OneLess(reg: map<string, map<string, PendingTask>>, clusterId: string, agentId: string)
    requires NoneEmpty(reg)
    ensures OthersStay(reg, Without(reg, clusterId, agentId), clusterId, agentId)
    ensures Entry(Without(reg, clusterId, agentId), clusterId, agentId) == None
  {
    hide Without, NoneEmpty;
    forall c, a { TakenOut(reg, clusterId, agentId, c, a); }
  }

  class Transfers {
    var pending: map<string, map<string, PendingTask>>
    ghost var all: seq<PendingTask>
    ghost var view: State

    constructor ()
      ensures Valid() && view == START && all == []
    {
      pending, all, view := map[], [], START;
    }

    ghost function Tasks(): set<PendingTask>
      reads this
    {
      set t | t in all
    }

    ghost predicate Shows(t: PendingTask, i: nat)
      reads this, t
    {
      i < |view.tasks| && t.number == i && t.Value() == view.tasks[i] && t.brief.id == t.agentId
    }

    // The registry and the tasks are as the protocol has them.
    ghost predicate Valid()
      reads this, Tasks()
    {
      && Inv(view) && |all| == |view.tasks| && NoneEmpty(pending) && Numbered(view.registry, all, pending)
      && forall i :: 0 <= i < |all| ==> Shows(all[i], i)
    }

    // Asks for a delayed transfer; one that is already registered for the agent and the cluster is refused.
    method AddPendingTask(agentId: string, clusterId: string, agent: Agent, roles: Roles)
      returns (failure: Option<Failure>)
      requires Valid() && agent.id == agentId
      modifies this
      ensures Valid() && view == Do(old(view), Add(clusterId, agentId))
      ensures failure == if Entry<nat>(old(view).registry, clusterId, agentId).Some? then Some(DuplicatedTask) else None
      ensures fresh(Tasks() - old(Tasks()))
      ensures failure == if clusterId in old(pending) && agentId in old(pending)[clusterId]
        then Some(DuplicatedTask) else None
      ensures failure.Some? ==> pending == old(pending)
      ensures failure.None? ==>
        && clusterId in pending && agentId in pending[clusterId] && fresh(pending[clusterId][agentId])
        && pending[clusterId][agentId].brief == Brief(agentId, roles, agent.hostname, PHASE_PENDING, agent.state)
        && pending[clusterId][agentId].clusterId == clusterId && pending[clusterId][agentId].agentId == agentId
        && !pending[clusterId][agentId].isCancelled
        && OthersStay(old(pending), pending, clusterId, agentId)
    {
      hide Inv, Numbered, OthersStay, NoneEmpty, Within;
      KnowsItsKeys(clusterId, agentId);
      StepKeepsInv(view, Add(clusterId, agentId));
      if clusterId in pending && |pending[clusterId]| > 0 && agentId in pending[clusterId] {
        return Some(DuplicatedTask);
      }
      var brief := Brief(agent.id, roles, agent.hostname, PHASE_PENDING, agent.state);
      var t := new PendingTask(clusterId, agentId, brief, |all|);
      OneMore(pending, clusterId, agentId, t);
      NumberedWith(view.registry, all, pending, clusterId, agentId, t);
      var collection: map<string, PendingTask> := if clusterId in pending then pending[clusterId] else map[];
      pending := pending[clusterId := collection[agentId := t]];
      all := all + [t];
      view := Do(view, Add(clusterId, agentId));
      return None;
    }

    // Takes the entry of a key out, and its collection with it when that was the last one.
    method TakeOut(clusterId: string, agentId: string) returns (t: PendingTask?)
      modifies this`pending
      ensures pending == Without(old(pending), clusterId, agentId)
      ensures t == match Entry(old(pending), clusterId, agentId) case None => null case Some(found) => found
    {
      t := null;
      if clusterId in pending && |pending[clusterId]| > 0 {
        var collection := pending[clusterId];
        if agentId in collection {
          t := collection[agentId];
          collection := collection - {agentId};
        }
        assert collection == pending[clusterId] - {agentId};
        if |collection| > 0 {
          pending := pending[clusterId := collection];
        } else {
          pending := pending - {clusterId};
        }
      }
    }

    // Takes the registered transfer out and cancels it; with none registered nothing happens.
    method Cancel(clusterId: string, agentId: string)
      requires Valid()
      modifies this, Tasks()
      ensures Valid() && view == Do(old(view), Step.Cancel(clusterId, agentId)) && all == old(all)
      ensures Entry(pending, clusterId, agentId) == None && OthersStay(old(pending), pending, clusterId, agentId)
      ensures match Entry(old(pending), clusterId, agentId) case None => true case Some(t) => t.isCancelled
    {
      hide Inv, Numbered, With, Without, NoneEmpty, Entry, Within, OthersStay;
      OneLess(pending, clusterId, agentId);
      KnowsItsKeys(clusterId, agentId);
      StepKeepsInv(view, Step.Cancel(clusterId, agentId));
      NumberedWithout(view.registry, all, pending, clusterId, agentId);
      var t := TakeOut(clusterId, agentId);
      if t != null {
        t.isCancelled := true;
      }
      view := Do(view, Step.Cancel(clusterId, agentId));
    }

    // The goroutine of a task wakes up and takes the entry of its key out, whichever task that is.
    method CleanUp(t: PendingTask)
      requires Valid() && t in all && t.at == Waiting
      modifies this, t
      ensures Valid() && view == Do(old(view), Step.CleanUp(t.number)) && all == old(all) && t.at == Cleaned
      ensures Entry(pending, t.clusterId, t.agentId) == None
      ensures OthersStay(old(pending), pending, t.clusterId, t.agentId) && t.isCancelled == old(t.isCancelled)
    {
      hide Inv, Numbered, With, Without, NoneEmpty, Entry, Within, OthersStay;
      OneLess(pending, t.clusterId, t.agentId);
      KnowsItsKeys(t.clusterId, t.agentId);
      StepKeepsInv(view, Step.CleanUp(t.number));
      NumberedWithout(view.registry, all, pending, t.clusterId, t.agentId);
      var _ := TakeOut(t.clusterId, t.agentId);
      t.at := Cleaned;
      view := Do(view, Step.CleanUp(t.number));
    }

    // It then decides whether to run the work.
    method Decide(t: PendingTask) returns (run: bool)
      requires Valid() && t in all && t.at == Cleaned
      modifies this`view, t
      ensures Valid() && view == Do(old(view), Step.Decide(t.number)) && all == old(all) && t.at == Finished
      ensures run <==> !old(view).tasks[t.number].cancelled
      ensures run <==> !t.isCancelled
      ensures t.runs == old(t.runs) + if run then 1 else 0
    {
      hide Inv, Numbered;
      KnowsItsKeys(t.clusterId, t.agentId);
      StepKeepsInv(view, Step.Decide(t.number));
      run := !t.isCancelled;
      if run {
        t.runs := t.runs + 1;
      }
      t.at := Finished;
      view := Do(view, Step.Decide(t.number));
    }

    lemma KnowsItsKeys(c: string, a: string)
      requires Valid()
      ensures Entry(pending, c, a) == Of(all, Entry<nat>(view.registry, c, a))
      ensures Inv(view) && Within(view.registry, |all|) && NoneEmpty<nat>(view.registry)
    {
    }

    // ---------- the listings ----------

    // The agents of the pool without those that wait for a transfer. The flag outlives the inner loop.
    method FilterPoolingHosts(agents: seq<Brief>) returns (filtered: seq<Brief>)
      ensures filtered == PoolListing(pending, agents)
      ensures forall b :: b in filtered <==> b in agents && forall c :: c in pending ==> b.id !in pending[c]
    {
      ListsTheOthers(pending, agents);
      if |pending| == 0 || |agents| == 0 {
        NothingPending(pending, agents);
        return agents;
      }
      var hasFound := false;
      filtered := [];
      for i := 0 to |agents|
        invariant filtered == PoolListing(pending, agents[..i])
      {
        var rest := pending.Keys;
        while rest != {}
          invariant rest <= pending.Keys
          invariant rest != pending.Keys ==> !hasFound
          invariant forall c :: c in pending && c !in rest ==> agents[i].id !in pending[c]
          decreases rest
        {
          var c :| c in rest;
          hasFound := agents[i].id in pending[c];
          if hasFound {
            break;
          }
          rest := rest - {c};
        }
        assert hasFound <==> Awaited(pending, agents[i].id);
        if !hasFound {
          filtered := filtered + [agents[i]];
        }
        assert agents[..i + 1][..i] == agents[..i];
      }
      assert agents[..|agents|] == agents;
    }

    // The agents of a cluster, followed by those on their way to it in whatever order the runtime walks them.
    method FilterClusterHosts(clusterId: string, agents: seq<Brief>) returns (listed: seq<Brief>)
      ensures |agents| <= |listed| && listed[..|agents|] == agents
      ensures if clusterId in pending then BriefsInSomeOrder(pending[clusterId], listed[|agents|..])
          else listed == agents
      ensures clusterId in pending ==>
        && |listed| == |agents| + |pending[clusterId]|
        && (forall a :: a in pending[clusterId] ==> pending[clusterId][a].brief in listed[|agents|..])
        && (forall b :: b in listed[|agents|..] ==>
             exists a :: a in pending[clusterId] && pending[clusterId][a].brief == b)
    {
      ghost var order := [];
      listed := agents;
      if clusterId !in pending {
        return;
      }
      var m := pending[clusterId];
      var rest := m.Keys;
      while rest != {}
        invariant rest <= m.Keys && Enumerates(order, m.Keys - rest)
        invariant forall a :: a in order ==> a in m
        invariant listed == agents + Briefs(m, order)
        decreases rest
      {
        var a :| a in rest;
        WalkedOneMore(order, m.Keys, rest, a);
        listed := listed + [m[a].brief];
        assert Briefs(m, order + [a]) == Briefs(m, order) + [m[a].brief];
        order := order + [a];
        rest := rest - {a};
      }
      assert m.Keys - rest == m.Keys;
      assert listed[|agents|..] == Briefs(m, order);
      AllBriefs(m, order);
    }

    // An agent waits for a cluster exactly when the listing of that cluster shows it among those appended, in any
    // order;
    // so it is hidden in the pool exactly when some cluster shows it as being on its way there.
    lemma ListedExactlyWhenPending(c: string, appended: seq<Brief>, id: string)
      requires Valid() && c in pending && BriefsInSomeOrder(pending[c], appended)
      ensures id in pending[c] <==> exists i :: 0 <= i < |appended| && appended[i].id == id
    {
      hide Inv;
      var m := pending[c];
      var order :| Enumerates(order, m.Keys) && (forall a :: a in order ==> a in m) && appended == Briefs(m, order);
      forall a | a in m ensures m[a].brief.id == a {
        EntryOwns(c, a);
      }
      assert id in order <==> id in multiset(order);
      assert id in multiset(m.Keys) <==> id in m.Keys;
      if id in order {
        var i :| 0 <= i < |order| && order[i] == id;
        assert appended[i].id == id;
      }
    }

    lemma EntryOwns(c: string, a: string)
      requires Valid() && Entry(pending, c, a).Some?
      ensures Entry(pending, c, a).value.brief.id == a
    {
      KnowsItsKeys(c, a);
      var i := Entry<nat>(view.registry, c, a).value;
      assert Owns(view, c, a, i) && Shows(all[i], i);
    }
  }

  // Some cluster waits for the agent.
  ghost predicate Awaited<T>(reg: map<string, map<string, T>>, agentId: string) {
    exists c :: c in reg && agentId in reg[c]
  }

  ghost function PoolListing<T>(reg: map<string, map<string, T>>, agents: seq<Brief>): seq<Brief> {
    if agents == [] then []
    else
      var last := agents[|agents| - 1];
      PoolListing(reg, agents[..|agents| - 1]) + if Awaited(reg, last.id) then [] else [last]
  }

  ghost predicate BriefsInSomeOrder(m: map<string, PendingTask>, briefs: seq<Brief>) {
    exists order :: Enumerates(order, m.Keys) && (forall a :: a in order ==> a in m) && briefs == Briefs(m, order)
  }

  function Briefs(m: map<string, PendingTask>, order: seq<string>): seq<Brief>
    requires forall a :: a in order ==> a in m
  {
    seq(|order|, i requires 0 <= i < |order| => m[order[i]].brief)
  }

  // One of each task, whatever the order.
  lemma AllBriefs(m: map<string, PendingTask>, order: seq<string>)
    requires Enumerates(order, m.Keys) && forall a :: a in order ==> a in m
    ensures |Briefs(m, order)| == |m|
    ensures forall a :: a in m ==> m[a].brief in Briefs(m, order)
    ensures forall b :: b in Briefs(m, order) ==> exists a :: a in m && m[a].brief == b
  {
    assert |order| == |multiset(order)| == |multiset(m.Keys)| == |m|;
    forall a | a in m ensures m[a].brief in Briefs(m, order) {
      assert a in multiset(m.Keys) && a in multiset(order);
      var i :| 0 <= i < |order| && order[i] == a;
      assert Briefs(m, order)[i] == m[a].brief;
    }
  }

  lemma {:induction false} NothingPending<T>(reg: map<string, map<string, T>>, agents: seq<Brief>)
    requires reg == map[] || agents == []
    ensures PoolListing(reg, agents) == agents
  {
    if agents != [] {
      var n := |agents| - 1;
      assert !Awaited(reg, agents[n].id);
      assert agents == agents[..n] + [agents[n]];
      hide Awaited;
      NothingPending(reg, agents[..n]);
    }
  }

  lemma {:induction false} ListsTheOthers<T>(reg: map<string, map<string, T>>, agents: seq<Brief>)
    ensures forall b :: b in PoolListing(reg, agents) <==> b in agents && forall c :: c in reg ==> b.id !in reg[c]
  {
    if agents != [] {
      var n := |agents| - 1;
      ListsTheOthers(reg, agents[..n]);
      assert agents == agents[..n] + [agents[n]];
    }
  }

  // These are increasing positions in the list, exactly those of agents that no cluster waits for.
  ghost predicate PicksTheOthers<T>(at: seq<nat>, reg: map<string, map<string, T>>, agents: seq<Brief>) {
    && (forall i :: 0 <= i < |at| ==> at[i] < |agents| && !Awaited(reg, agents[at[i]].id))
    && (forall i, j :: 0 <= i < j < |at| ==> at[i] < at[j])
    && (forall k: nat :: k < |agents| && !Awaited(reg, agents[k].id) ==> k in at)
  }

  lemma PickedNext<T>(at: seq<nat>, reg: map<string, map<string, T>>, agents: seq<Brief>, n: nat)
    requires |agents| == n + 1 && PicksTheOthers(at, reg, agents[..n])
    ensures PicksTheOthers(at + if Awaited(reg, agents[n].id) then [] else [n], reg, agents)
  {
    hide Awaited;
    var next := at + if Awaited(reg, agents[n].id) then [] else [n];
    forall k: nat | k < |agents| && !Awaited(reg, agents[k].id) ensures k in next {
      if k < n {
        assert agents[..n][k] == agents[k];
        assert k in at;
      } else {
        assert next[|at|] == n;
      }
    }
    forall i | 0 <= i < |next| ensures next[i] < |agents| && !Awaited(reg, agents[next[i]].id) {
      if i < |at| {
        assert agents[..n][at[i]] == agents[at[i]];
      }
    }
  }

  // The pool listing keeps the order of the agents and leaves out exactly those some cluster waits for.
  lemma {:induction false} PoolListingIsSubsequence<T>(reg: map<string, map<string, T>>, agents: seq<Brief>)
    returns (at: seq<nat>)
    ensures PicksTheOthers(at, reg, agents)
    ensures |at| == |PoolListing(reg, agents)|
    ensures forall i :: 0 <= i < |at| ==> at[i] < |agents| && PoolListing(reg, agents)[i] == agents[at[i]]
  {
    if agents == [] {
      at := [];
    } else {
      hide Awaited, PicksTheOthers;
      var n := |agents| - 1;
      var before := PoolListingIsSubsequence(reg, agents[..n]);
      at := before + if Awaited(reg, agents[n].id) then [] else [n];
      PickedNext(before, reg, agents, n);
      var listing := PoolListing(reg, agents[..n]);
      assert PoolListing(reg, agents) == listing + if Awaited(reg, agents[n].id) then [] else [agents[n]];
      hide PoolListing;
      forall i | 0 <= i < |at| ensures PoolListing(reg, agents)[i] == agents[at[i]] {
        if i < |before| {
          assert agents[..n][before[i]] == agents[at[i]];
        }
      }
    }
  }
}

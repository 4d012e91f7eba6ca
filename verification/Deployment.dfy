/**
  The scheduler over whole runs: agents join, query for work and report what they have
  provisioned. Deployment keeps its order, never deadlocks while it can go on, and ends.
 */
module Deployment {
  import opened Entities
  import opened Caching
  import opened Scheduling

  type Fleet = map<string, Agent>

  ghost function Having(fleet: Fleet, slot: Slot): set<string> {
    set id | id in fleet && fleet[id].roles.In(slot)
  }

  ghost function Done(fleet: Fleet, slot: Slot): set<string> {
    set id | id in fleet && fleet[id].roles.In(slot) && fleet[id].HasProvisioned(slot)
  }

  // What the strategies see of a fleet through the cache, when they all look at one moment.
  ghost function Seen(fleet: Fleet, now: real): Facts {
    Survey(Project(fleet), now)
  }

  // Counting over the role collections is counting over the fleet.
  lemma SeenCounts(fleet: Fleet, now: real)
    ensures var facts := Seen(fleet, now);
      && facts.etcdTotal == |Having(fleet, ETCD)|
      && facts.etcdProvisioned == |Done(fleet, ETCD)|
      && facts.mastersProvisioned == |Done(fleet, Master)|
      && facts.haProvisioned == |Done(fleet, HA)|
      && |facts.haIps| == |Having(fleet, HA)|
  {
    hide Addresses;
    var c := Project(fleet);
    assert ProvisionedIds(c, ETCD) == Done(fleet, ETCD);
    assert ProvisionedIds(c, Master) == Done(fleet, Master);
    assert ProvisionedIds(c, HA) == Done(fleet, HA);
    assert c.At(HA) == Slice(fleet, HA);
    AddressesOfAll(c, HA, now);
    assert Slice(fleet, HA).Keys == Having(fleet, HA);
    assert Slice(fleet, ETCD).Keys == Having(fleet, ETCD);
  }

  ghost function JobFor(cfg: ClusterSettings, fleet: Fleet, id: string, out: Outside): Answer
    requires id in fleet
  {
    NextJob(cfg, fleet[id], Seen(fleet, out.now), out.failing)
  }

  // ---------- order ----------

  // No agent leaves, no roles change, no provisioned flag regresses; agents may join and addresses may change.
  ghost predicate Grows(before: Fleet, after: Fleet) {
    forall id :: id in before ==>
      && id in after
      && after[id].roles == before[id].roles
      && (before[id].state.Some? ==> after[id].state.Some?)
      && forall slot: Slot :: before[id].HasProvisioned(slot) ==> after[id].HasProvisioned(slot)
  }

  lemma GrowsIsTransitive(a: Fleet, b: Fleet, c: Fleet)
    requires Grows(a, b) && Grows(b, c)
    ensures Grows(a, c)
  {
    forall id | id in a ensures id in c && c[id].roles == a[id].roles && (a[id].state.Some? ==> c[id].state.Some?)
      ensures forall slot: Slot :: a[id].HasProvisioned(slot) ==> c[id].HasProvisioned(slot)
    {
      assert id in b;
    }
  }

  lemma CountsGrow(before: Fleet, after: Fleet, slot: Slot)
    requires Grows(before, after)
    ensures |Having(before, slot)| <= |Having(after, slot)| && |Done(before, slot)| <= |Done(after, slot)|
  {
    SubsetIsSmaller(Having(before, slot), Having(after, slot));
    SubsetIsSmaller(Done(before, slot), Done(after, slot));
  }

  lemma {:induction false} SubsetIsSmaller<T>(a: set<T>, b: set<T>)
    requires a <= b
    ensures |a| <= |b|
    ensures |a| == |b| ==> a == b
  {
    assert b == a + (b - a);
    assert |b| == |a| + |b - a|;
  }

  ghost predicate GrowingHistory(history: seq<Fleet>) {
    forall i :: 0 <= i < |history| - 1 ==> Grows(history[i], history[i + 1])
  }

  lemma {:induction false} HistoryGrows(history: seq<Fleet>, i: nat, j: nat)
    requires GrowingHistory(history) && i <= j < |history|
    ensures Grows(history[i], history[j])
    decreases j
  {
    if i < j {
      HistoryGrows(history, i, j - 1);
      assert Grows(history[j - 1], history[j - 1 + 1]);
      GrowsIsTransitive(history[i], history[j - 1], history[j]);
    }
  }

  function Rank(slot: Slot): nat {
    match slot
    case ETCD => 0
    case Master => 1
    case HA => 2
    case Minion => 3
    case Pool => 4
  }

  // The stage at which a query is answered: the rank of its job, or 4 once it can only fail or answer Deployed.
  lemma AnswerTellsStage(cfg: ClusterSettings, agent: Agent, facts: Facts, failing: set<nat>)
    requires agent.state.Some?
    ensures var a, stage := NextJob(cfg, agent, facts, failing), Stage(cfg, agent, facts);
      && stage <= 4
      && (a.job.name.Deploy? ==> Rank(a.job.name.slot) == stage)
      && (a.phase == Some(PHASE_DEPLOYED) ==> stage == 4)
      && (stage == 4 ==> a.failed || a.phase == Some(PHASE_DEPLOYED))
  {
    hide NextJob;
    DispatchedExactlyWhen(cfg, agent, facts, failing);
    DeployedExactlyWhen(cfg, agent, facts, failing);
  }

  // What a query counts while the history goes from i to j, each count taken at some moment of its own.
  ghost predicate CountedBetween(facts: Facts, history: seq<Fleet>, i: nat, j: nat)
    requires i <= j < |history|
  {
    && (exists k :: i <= k <= j && facts.etcdTotal == |Having(history[k], ETCD)|)
    && (exists k :: i <= k <= j && facts.etcdProvisioned == |Done(history[k], ETCD)|)
    && (exists k :: i <= k <= j && facts.mastersProvisioned == |Done(history[k], Master)|)
    && (exists k :: i <= k <= j && facts.haProvisioned == |Done(history[k], HA)|)
    && (exists k :: i <= k <= j && |facts.haIps| == |Having(history[k], HA)|)
  }

  // A survey at one moment is the special case.
  lemma SeenIsCounted(history: seq<Fleet>, i: nat, now: real)
    requires i < |history|
    ensures CountedBetween(Seen(history[i], now), history, i, i)
  {
    hide Seen, Having, Done;
    SeenCounts(history[i], now);
    var facts := Seen(history[i], now);
    assert facts.etcdTotal == |Having(history[i], ETCD)| && facts.etcdProvisioned == |Done(history[i], ETCD)|;
  }

  // Counts taken later are no lower.
  lemma CountedLater(history: seq<Fleet>, i: nat, end: nat, j: nat, last: nat, facts: Facts, later: Facts)
    requires GrowingHistory(history) && i <= end <= j <= last < |history|
    requires CountedBetween(facts, history, i, end) && CountedBetween(later, history, j, last)
    ensures facts.etcdProvisioned <= later.etcdProvisioned && facts.mastersProvisioned <= later.mastersProvisioned
    ensures facts.haProvisioned <= later.haProvisioned && |facts.haIps| <= |later.haIps|
  {
    hide Having, Done, Grows, GrowingHistory;
    forall k, l, slot: Slot | i <= k <= end && j <= l <= last
      ensures |Done(history[k], slot)| <= |Done(history[l], slot)|
      ensures |Having(history[k], slot)| <= |Having(history[l], slot)|
    {
      HistoryGrows(history, k, l);
      CountsGrow(history[k], history[l], slot);
    }
  }

  lemma StageGrows(cfg: ClusterSettings, agent: Agent, after: Agent, facts: Facts, later: Facts)
    requires after.roles == agent.roles
    requires forall slot: Slot :: agent.HasProvisioned(slot) ==> after.HasProvisioned(slot)
    requires facts.etcdProvisioned <= later.etcdProvisioned && facts.mastersProvisioned <= later.mastersProvisioned
    requires facts.haProvisioned <= later.haProvisioned && |facts.haIps| <= |later.haIps|
    ensures Stage(cfg, agent, facts) <= Stage(cfg, after, later)
  {
    assert forall slot: Slot :: Owes(after, slot) ==> Owes(agent, slot);
  }

  // In a growing history an agent's jobs never step back in the order ETCD, MASTER, HA, Minion, and once a query of it
  // has answered Deployed, every later query that does not fail answers Deployed. A query finds the agent when it
  // begins, at i or j, and takes each of its counts at any moment until it ends, at end or last.
  lemma JobsNeverStepBack(cfg: ClusterSettings, history: seq<Fleet>, i: nat, end: nat, j: nat, last: nat, id: string,
                          facts: Facts, failing: set<nat>, later: Facts, laterFailing: set<nat>)
    requires GrowingHistory(history) && i <= end <= j <= last < |history|
    requires id in history[i] && history[i][id].state.Some?
    requires CountedBetween(facts, history, i, end) && CountedBetween(later, history, j, last)
    ensures id in history[j]
    ensures var a, b := NextJob(cfg, history[i][id], facts, failing), NextJob(cfg, history[j][id], later, laterFailing);
      && (a.job.name.Deploy? && b.job.name.Deploy? ==> Rank(a.job.name.slot) <= Rank(b.job.name.slot))
      && (a.phase == Some(PHASE_DEPLOYED) ==> b.failed || b.phase == Some(PHASE_DEPLOYED))
  {
    hide NextJob, Stage, CountedBetween, GrowingHistory;
    HistoryGrows(history, i, j);
    CountedLater(history, i, end, j, last, facts, later);
    StageGrows(cfg, history[i][id], history[j][id], facts, later);
    AnswerTellsStage(cfg, history[i][id], facts, failing);
    AnswerTellsStage(cfg, history[j][id], later, laterFailing);
  }

  // A job other than ETCD waits for enough provisioned ETCD agents; HA and minions wait for a provisioned master;
  // minions wait for the HA nodes of a cluster that has them.
  lemma JobsWaitForTheirBase(cfg: ClusterSettings, fleet: Fleet, id: string, out: Outside)
    requires id in fleet && fleet[id].state.Some?
    ensures var name := JobFor(cfg, fleet, id, out).job.name;
      && (name == Deploy(ETCD) ==> |Having(fleet, ETCD)| >= cfg.expectedETCDCount > |Done(fleet, ETCD)|)
      && (name in {Deploy(Master), Deploy(HA), Deploy(Minion)} ==> |Done(fleet, ETCD)| >= cfg.expectedETCDCount)
      && (name in {Deploy(HA), Deploy(Minion)} ==> Done(fleet, Master) != {})
      && (name == Deploy(HA) ==> cfg.ha.Some?)
      && (name == Deploy(Minion) && cfg.ha.Some? ==>
          |Having(fleet, HA)| >= cfg.ha.value.nodeCount && Done(fleet, HA) != {})
      && (name.Deploy? ==> Owes(fleet[id], name.slot))
  {
    hide Seen, NextJob;
    SeenCounts(fleet, out.now);
    DispatchedExactlyWhen(cfg, fleet[id], Seen(fleet, out.now), out.failing);
  }

  // ---------- progress ----------

  ghost predicate AllHaveState(fleet: Fleet) {
    forall id :: id in fleet ==> fleet[id].state.Some?
  }

  ghost predicate NoneOwes(fleet: Fleet, slot: Slot) {
    forall id :: id in fleet ==> !Owes(fleet[id], slot)
  }

  // Nothing is left to hand out: enough ETCD agents are provisioned, at least one master, and every master,
  // minion and, when the cluster has HA settings, HA agent.
  ghost predicate Finished(cfg: ClusterSettings, fleet: Fleet) {
    && |Done(fleet, ETCD)| >= cfg.expectedETCDCount
    && NoneOwes(fleet, Master) && Having(fleet, Master) != {}
    && (cfg.ha.Some? ==>
        NoneOwes(fleet, HA) && |Having(fleet, HA)| >= cfg.ha.value.nodeCount && Having(fleet, HA) != {})
    && NoneOwes(fleet, Minion)
  }

  // The three ways deployment waits for agents that have not come: too few ETCD agents, no master, too few HA agents.
  ghost predicate Starved(cfg: ClusterSettings, fleet: Fleet) {
    var etcd := |Done(fleet, ETCD)| < cfg.expectedETCDCount;
    || (etcd && |Having(fleet, ETCD)| < cfg.expectedETCDCount)
    || (!etcd && Having(fleet, Master) == {})
    || (!etcd && NoneOwes(fleet, Master) && cfg.ha.Some?
        && (|Having(fleet, HA)| < cfg.ha.value.nodeCount || Having(fleet, HA) == {}))
  }

  ghost predicate NoJobForAnyone(cfg: ClusterSettings, fleet: Fleet, out: Outside) {
    forall id :: id in fleet ==> !JobFor(cfg, fleet, id, out).job.name.Deploy?
  }

  lemma DoneAndHaving(fleet: Fleet, slot: Slot)
    ensures NoneOwes(fleet, slot) <==> Done(fleet, slot) == Having(fleet, slot)
    ensures |Done(fleet, slot)| < |Having(fleet, slot)| ==> !NoneOwes(fleet, slot)
  {
    if Done(fleet, slot) == Having(fleet, slot) {
      forall id | id in fleet ensures !Owes(fleet[id], slot) {
        assert id in Done(fleet, slot) <==> id in Having(fleet, slot);
      }
    }
    if NoneOwes(fleet, slot) {
      forall id ensures id in Done(fleet, slot) <==> id in Having(fleet, slot) {}
    }
  }

  lemma JobExactlyWhen(cfg: ClusterSettings, fleet: Fleet, id: string, out: Outside)
    requires id in fleet && fleet[id].state.Some?
    ensures var name := JobFor(cfg, fleet, id, out).job.name; var etcd := |Done(fleet, ETCD)| >= cfg.expectedETCDCount;
      && (name == Deploy(ETCD) <==> !etcd && Owes(fleet[id], ETCD) && |Having(fleet, ETCD)| >= cfg.expectedETCDCount)
      && (name == Deploy(Master) <==> etcd && Owes(fleet[id], Master))
      && (name == Deploy(HA) <==> (etcd && !Owes(fleet[id], Master) && Done(fleet, Master) != {}
            && cfg.ha.Some? && |Having(fleet, HA)| >= cfg.ha.value.nodeCount && Owes(fleet[id], HA)))
      && (name == Deploy(Minion) <==>
          (etcd && !Owes(fleet[id], Master) && Done(fleet, Master) != {} && Owes(fleet[id], Minion)
            && (cfg.ha.Some? ==>
                |Having(fleet, HA)| >= cfg.ha.value.nodeCount && !Owes(fleet[id], HA) && Done(fleet, HA) != {})))
      && name != Deploy(Pool)
  {
    hide Seen, NextJob;
    SeenCounts(fleet, out.now);
    DispatchedExactlyWhen(cfg, fleet[id], Seen(fleet, out.now), out.failing);
  }

  // Nobody can be given a job exactly when the deployment is finished or waits for agents that have not come.
  lemma NoJobExactlyWhen(cfg: ClusterSettings, fleet: Fleet, out: Outside)
    requires AllHaveState(fleet)
    ensures NoJobForAnyone(cfg, fleet, out) <==> Finished(cfg, fleet) || Starved(cfg, fleet)
  {
    hide JobFor, Owes;
    forall id | id in fleet { JobExactlyWhen(cfg, fleet, id, out); }
    DoneAndHaving(fleet, ETCD);
    DoneAndHaving(fleet, Master);
    DoneAndHaving(fleet, HA);
    if NoJobForAnyone(cfg, fleet, out) && !Starved(cfg, fleet) {
      NoJobMeansFinished(cfg, fleet, out);
    }
  }

  lemma NoJobMeansFinished(cfg: ClusterSettings, fleet: Fleet, out: Outside)
    requires AllHaveState(fleet) && NoJobForAnyone(cfg, fleet, out) && !Starved(cfg, fleet)
    ensures Finished(cfg, fleet)
  {
    hide JobFor, Owes;
    forall id | id in fleet { JobExactlyWhen(cfg, fleet, id, out); }
    DoneAndHaving(fleet, ETCD);
    DoneAndHaving(fleet, Master);
    DoneAndHaving(fleet, HA);
    assert |Done(fleet, ETCD)| >= cfg.expectedETCDCount;
    assert NoneOwes(fleet, Master);
    assert cfg.ha.Some? ==> NoneOwes(fleet, HA);
    assert NoneOwes(fleet, Minion);
  }

  // ---------- termination ----------

  // Agents at work: what each has been handed and not yet done, and what is done but not yet seen by the scheduler.
  datatype Site = Site(fleet: Fleet, busy: map<string, Slot>, done: set<(string, Slot)>)

  datatype Step =
    | Dispatch(id: string, out: Outside)
    | Complete(id: string)
    | Fail(id: string)                 // the job is over with nothing provisioned, and the agent will ask again
    | Report(id: string, slot: Slot)   // the agent's report has reached the cache

  function WithFlag(agent: Agent, slot: Slot): Agent {
    if agent.state.None? then agent
    else
      var s := agent.state.value;
      agent.(state := Some(match slot
        case ETCD => s.(provisionedETCD := true)
        case Master => s.(provisionedMaster := true)
        case Minion => s.(provisionedMinion := true)
        case HA => s.(provisionedHA := true)
        case Pool => s))
  }

  ghost predicate Enabled(cfg: ClusterSettings, site: Site, step: Step) {
    match step
    case Dispatch(id, out) => id in site.fleet && id !in site.busy && JobFor(cfg, site.fleet, id, out).job.name.Deploy?
    case Complete(id) => id in site.busy
    case Fail(id) => id in site.busy
    case Report(id, slot) => (id, slot) in site.done && id in site.fleet
  }

  // The same job is handed out again, before the report of the first time has arrived.
  ghost predicate Repeats(cfg: ClusterSettings, site: Site, step: Step) {
    && step.Dispatch? && Enabled(cfg, site, step)
    && (step.id, JobFor(cfg, site.fleet, step.id, step.out).job.name.slot) in site.done
  }

  ghost function Act(cfg: ClusterSettings, site: Site, step: Step): Site {
    if !Enabled(cfg, site, step) then site
    else match step
      case Dispatch(id, out) => site.(busy := site.busy[id := JobFor(cfg, site.fleet, id, out).job.name.slot])
      case Complete(id) => site.(busy := site.busy - {id}, done := site.done + {(id, site.busy[id])})
      case Fail(id) => site.(busy := site.busy - {id})
      case Report(id, slot) => site.(fleet := site.fleet[id := WithFlag(site.fleet[id], slot)],
          done := site.done - {(id, slot)})
  }

  ghost function Work(cfg: ClusterSettings, site: Site, steps: seq<Step>): Site
    decreases |steps|
  {
    if steps == [] then site else Work(cfg, Act(cfg, site, steps[0]), steps[1..])
  }

  datatype Kind = Any | HandOut | Repeat | Failing

  ghost predicate Counts(kind: Kind, cfg: ClusterSettings, site: Site, step: Step) {
    && Enabled(cfg, site, step)
    && match kind
      case Any => true
      case HandOut => step.Dispatch? && !Repeats(cfg, site, step)
      case Repeat => Repeats(cfg, site, step)
      case Failing => step.Fail?
  }

  ghost function Once(kind: Kind, cfg: ClusterSettings, site: Site, step: Step): nat {
    if Counts(kind, cfg, site, step) then 1 else 0
  }

  // How many of the steps take place and are of this kind.
  ghost function Taken(kind: Kind, cfg: ClusterSettings, site: Site, steps: seq<Step>): nat
    decreases |steps|
  {
    if steps == [] then 0
    else Once(kind, cfg, site, steps[0]) + Taken(kind, cfg, Act(cfg, site, steps[0]), steps[1..])
  }

  // The (agent, role) pairs still to be provisioned, as the scheduler sees it.
  ghost function Todo(fleet: Fleet): set<(string, Slot)> {
    set id, slot | id in fleet && slot in {ETCD, Master, Minion, HA} && Owes(fleet[id], slot) :: (id, slot)
  }

  // Those that are neither done nor at work.
  ghost function Untouched(site: Site): set<(string, Slot)> {
    set p | p in Todo(site.fleet) && p !in site.done && !(p.0 in site.busy && site.busy[p.0] == p.1)
  }

  predicate Owns(fleet: Fleet, id: string, slot: Slot) {
    id in fleet && slot in {ETCD, Master, Minion, HA} && fleet[id].roles.In(slot)
  }

  ghost predicate Sound(site: Site) {
    && AllHaveState(site.fleet)
    && (forall id :: id in site.busy ==> Owns(site.fleet, id, site.busy[id]))
    && (forall id, slot :: (id, slot) in site.done ==> Owns(site.fleet, id, slot))
  }

  // What is left to do, in steps.
  ghost function Left(site: Site): nat {
    3 * |Untouched(site)| + 2 * |site.busy| + |site.done|
  }

  lemma FlagSettles(fleet: Fleet, id: string, slot: Slot)
    requires AllHaveState(fleet) && Owns(fleet, id, slot)
    ensures var after := fleet[id := WithFlag(fleet[id], slot)];
      && Todo(after) == Todo(fleet) - {(id, slot)} && AllHaveState(after) && Grows(fleet, after)
      && forall s: Slot :: Having(after, s) == Having(fleet, s)
  {
    var after := fleet[id := WithFlag(fleet[id], slot)];
    assert forall s: Slot :: Owes(after[id], s) <==> Owes(fleet[id], s) && s != slot;
  }

  lemma DispatchedIsOwed(cfg: ClusterSettings, fleet: Fleet, id: string, out: Outside)
    requires id in fleet && fleet[id].state.Some? && JobFor(cfg, fleet, id, out).job.name.Deploy?
    ensures var slot := JobFor(cfg, fleet, id, out).job.name.slot;
      (id, slot) in Todo(fleet) && Owns(fleet, id, slot)
  {
    hide JobFor;
    JobsWaitForTheirBase(cfg, fleet, id, out);
    JobExactlyWhen(cfg, fleet, id, out);
  }

  lemma DispatchCosts(cfg: ClusterSettings, site: Site, step: Step)
    requires Sound(site) && Enabled(cfg, site, step) && step.Dispatch?
    ensures var next := Act(cfg, site, step);
      && Sound(next) && next.fleet == site.fleet
      && |Untouched(next)| == |Untouched(site)| - (if Repeats(cfg, site, step) then 0 else 1)
      && Left(next) == Left(site) - 1 + (if Repeats(cfg, site, step) then 3 else 0)
  {
    DispatchedIsOwed(cfg, site.fleet, step.id, step.out);
    HandingOutCosts(site, step.id, JobFor(cfg, site.fleet, step.id, step.out).job.name.slot);
    hide JobFor, Todo, Owns, Untouched, Left, Sound;
  }

  lemma HandingOutCosts(site: Site, id: string, slot: Slot)
    requires Sound(site) && id !in site.busy && (id, slot) in Todo(site.fleet) && Owns(site.fleet, id, slot)
    ensures var next := site.(busy := site.busy[id := slot]);
      && Sound(next)
      && |Untouched(next)| == |Untouched(site)| - (if (id, slot) in site.done then 0 else 1)
      && Left(next) == Left(site) - 1 + (if (id, slot) in site.done then 3 else 0)
  {
    var next := site.(busy := site.busy[id := slot]);
    hide Todo, Owns;
    assert Untouched(next) == Untouched(site) - {(id, slot)};
    assert (id, slot) in Untouched(site) <==> (id, slot) !in site.done;
    hide Untouched;
  }

  lemma CompletionCosts(cfg: ClusterSettings, site: Site, step: Step)
    requires Sound(site) && Enabled(cfg, site, step) && step.Complete?
    ensures var next := Act(cfg, site, step);
      && Sound(next) && next.fleet == site.fleet && Untouched(next) == Untouched(site) && Left(next) < Left(site)
  {
    var next, slot := Act(cfg, site, step), site.busy[step.id];
    hide Todo, Owns, JobFor;
    assert Untouched(next) == Untouched(site);
    assert |next.busy| == |site.busy| - 1;
    assert |next.done| <= |site.done| + 1;
  }

  // A failed job is to be handed out once more, unless it was a repeat and the first time went well.
  lemma FailureCosts(cfg: ClusterSettings, site: Site, step: Step)
    requires Sound(site) && Enabled(cfg, site, step) && step.Fail?
    ensures var next := Act(cfg, site, step);
      && Sound(next) && next.fleet == site.fleet && |Untouched(next)| <= |Untouched(site)| + 1
      && Left(next) <= Left(site) + 1
  {
    var next, slot := Act(cfg, site, step), site.busy[step.id];
    hide Todo, Owns, JobFor;
    assert Untouched(next) <= Untouched(site) + {(step.id, slot)};
    SubsetIsSmaller(Untouched(next), Untouched(site) + {(step.id, slot)});
    assert |next.busy| == |site.busy| - 1;
  }

  lemma ReportCosts(cfg: ClusterSettings, site: Site, step: Step)
    requires Sound(site) && Enabled(cfg, site, step) && step.Report?
    ensures var next := Act(cfg, site, step);
      && Sound(next) && Grows(site.fleet, next.fleet) && Untouched(next) == Untouched(site) && Left(next) < Left(site)
      && forall s: Slot :: Having(next.fleet, s) == Having(site.fleet, s)
  {
    var next := Act(cfg, site, step);
    FlagSettles(site.fleet, step.id, step.slot);
    assert forall id, slot :: Owns(next.fleet, id, slot) <==> Owns(site.fleet, id, slot) by {
      assert next.fleet[step.id].roles == site.fleet[step.id].roles;
    }
    hide Todo, Owns, JobFor, WithFlag, Having;
    assert Untouched(next) == Untouched(site);
  }

  lemma StepCosts(cfg: ClusterSettings, site: Site, step: Step)
    requires Sound(site)
    ensures var next := Act(cfg, site, step);
      && Sound(next) && Grows(site.fleet, next.fleet)
      && (forall s: Slot :: Having(next.fleet, s) == Having(site.fleet, s))
      && |Untouched(next)| + Once(HandOut, cfg, site, step) <= |Untouched(site)| + Once(Failing, cfg, site, step)
      && Left(next) + Once(Any, cfg, site, step)
           <= Left(site) + 3 * Once(Repeat, cfg, site, step) + 2 * Once(Failing, cfg, site, step)
  {
    hide JobFor, Untouched, Left, Having, Sound, Repeats, Grows;
    GrowsFromItself(site.fleet);
    if Enabled(cfg, site, step) {
      match step
      case Dispatch(_, _) => DispatchCosts(cfg, site, step);
      case Complete(_) => CompletionCosts(cfg, site, step);
      case Fail(_) => FailureCosts(cfg, site, step);
      case Report(_, _) => ReportCosts(cfg, site, step);
    }
  }

  lemma GrowsFromItself(fleet: Fleet)
    ensures Grows(fleet, fleet)
  {
  }

  // Any order of hand-outs, completions, failures and reports ends. A job is handed out again after it failed, or while
  // the report of the first time is on its way. With n (agent, role) pairs neither done nor at work, f failures and r
  // repeats of the second kind, at most n + f other hand-outs and, from an idle site, 3n + 3r + 2f steps take place.
  lemma {:induction false} DeploymentTerminates(cfg: ClusterSettings, site: Site, steps: seq<Step>)
    requires Sound(site)
    ensures Taken(HandOut, cfg, site, steps) <= |Untouched(site)| + Taken(Failing, cfg, site, steps)
    ensures Taken(Any, cfg, site, steps)
      <= Left(site) + 3 * Taken(Repeat, cfg, site, steps) + 2 * Taken(Failing, cfg, site, steps)
    ensures Sound(Work(cfg, site, steps)) && Grows(site.fleet, Work(cfg, site, steps).fleet)
    ensures forall s: Slot :: Having(Work(cfg, site, steps).fleet, s) == Having(site.fleet, s)
    decreases |steps|
  {
    hide Once, Untouched, Left, Sound, Act, Having;
    if steps != [] {
      var next := Act(cfg, site, steps[0]);
      StepCosts(cfg, site, steps[0]);
      DeploymentTerminates(cfg, next, steps[1..]);
      GrowsIsTransitive(site.fleet, next.fleet, Work(cfg, next, steps[1..]).fleet);
    }
  }

  // As many agents as the cluster asks for.
  ghost predicate Sufficient(cfg: ClusterSettings, fleet: Fleet) {
    && |Having(fleet, ETCD)| >= cfg.expectedETCDCount && Having(fleet, Master) != {}
    && (cfg.ha.Some? ==> |Having(fleet, HA)| >= cfg.ha.value.nodeCount && Having(fleet, HA) != {})
  }

  // With sufficient agents, whatever has been done in whatever order: when nobody is at work and nobody can be
  // given a job, the deployment is finished.
  lemma NoDeadlock(cfg: ClusterSettings, site: Site, steps: seq<Step>, out: Outside)
    requires Sound(site) && Sufficient(cfg, site.fleet)
    ensures var end := Work(cfg, site, steps);
      (end.busy == map[] && forall id :: !Enabled(cfg, end, Dispatch(id, out))) ==> Finished(cfg, end.fleet)
  {
    hide JobFor, Owes;
    DeploymentTerminates(cfg, site, steps);
    var end := Work(cfg, site, steps);
    if end.busy == map[] && forall id :: !Enabled(cfg, end, Dispatch(id, out)) {
      assert NoJobForAnyone(cfg, end.fleet, out) by {
        forall id | id in end.fleet ensures !JobFor(cfg, end.fleet, id, out).job.name.Deploy? {
          assert !Enabled(cfg, end, Dispatch(id, out));
        }
      }
      NoJobExactlyWhen(cfg, end.fleet, out);
      DoneAndHaving(end.fleet, ETCD);
    }
  }

  lemma SomethingToDo(cfg: ClusterSettings, site: Site, out: Outside) returns (step: Step)
    requires Sound(site) && Sufficient(cfg, site.fleet) && !Finished(cfg, site.fleet)
    ensures Enabled(cfg, site, step) && !Repeats(cfg, site, step) && !step.Fail?
  {
    hide JobFor, Having, Finished;
    if id, slot :| (id, slot) in site.done {
      step := Report(id, slot);
    } else if id :| id in site.busy {
      step := Complete(id);
    } else {
      NoDeadlock(cfg, site, [], out);
      assert exists id :: Enabled(cfg, site, Dispatch(id, out));
      var id :| Enabled(cfg, site, Dispatch(id, out));
      step := Dispatch(id, out);
    }
  }

  // With sufficient agents there is always a way to the end, from any point of any run.
  lemma {:induction false} DeploymentCompletes(cfg: ClusterSettings, site: Site, out: Outside)
    returns (steps: seq<Step>)
    requires Sound(site) && Sufficient(cfg, site.fleet)
    ensures Finished(cfg, Work(cfg, site, steps).fleet)
    decreases Left(site)
  {
    hide Enabled, Repeats, Act, Sound, Having, Finished, Untouched, Left;
    if Finished(cfg, site.fleet) {
      return [];
    }
    var step := SomethingToDo(cfg, site, out);
    StepCosts(cfg, site, step);
    var rest := DeploymentCompletes(cfg, Act(cfg, site, step), out);
    steps := [step] + rest;
    assert steps[1..] == rest;
  }
}

/**
  The job scheduler (pkg/cache/job_scheduler.go and the strategy_*.go files): an ordered
  list of strategies, the first decisive one of which answers an agent's query.
 */
module Scheduling {
  import opened Entities
  import opened Caching
  import Text

  datatype Flag = Confirmed | NotConfirmed | Inapplicable

  // What one strategy answers.
  datatype Check =
    | Checked(flag: Flag, reason: Reason, args: Arguments)
    | Failed

  const PASS := Checked(Inapplicable, NoReason, NoArguments)

  // Why an agent is told to wait.
  datatype Reason =
    | NoReason | TooFewEtcdNodes | EtcdNotReady | MastersNotReady | TooFewHaNodes | HaNotReady
    | NotOnline | InternalError | NoStrategies | NothingToDo

  // The arguments of a job; address lists are comma-joined.
  datatype Arguments =
    | NoArguments
    | EtcdArguments(addresses: string)
    | HaArguments(masterAddresses: string, haAddresses: string, state: string, routerId: string, priority: string,
                  vip: string)
    | MinionArguments(addresses: string, haAddress: string)

  // The last five strategies act on the cluster from the server and never hand out a job.
  datatype Strategy = EtcdJob | MasterJob | HaJob | MinionJob | ServerSide(index: nat)

  datatype JobName = Nop | Deploy(slot: Slot) | OnServer(index: nat)

  datatype AgentJob = AgentJob(name: JobName, args: Arguments, reason: Reason)

  // The job for the agent, the deployment phase it is given if any, and whether the query failed.
  datatype Answer = Answer(job: AgentJob, phase: Option<int>, failed: bool)

  const STRATEGIES: seq<Strategy> := [
    EtcdJob, MasterJob, HaJob, MinionJob,
    ServerSide(0), ServerSide(1), ServerSide(2), ServerSide(3), ServerSide(4)]

  function NameOf(s: Strategy): JobName {
    match s
    case EtcdJob => Deploy(ETCD)
    case MasterJob => Deploy(Master)
    case HaJob => Deploy(HA)
    case MinionJob => Deploy(Minion)
    case ServerSide(n) => OnServer(n)
  }

  // What the scheduler is told from outside: the clock and the server-side strategies that fail.
  datatype Outside = Outside(now: real, failing: set<nat>)

  // Everything the strategies read from the cache.
  datatype Facts = Facts(
    etcdTotal: nat,
    etcdProvisioned: nat,
    mastersProvisioned: nat,
    haProvisioned: nat,
    etcdIps: seq<string>,
    haIps: seq<string>,
    masterIps: seq<string>,
    readyMasterIps: seq<string>)

  ghost function Survey(cache: Cache, now: real): Facts {
    Facts(|cache.etcd|, CountProvisioned(cache, ETCD), CountProvisioned(cache, Master), CountProvisioned(cache, HA),
          Addresses(cache, ETCD, Whatever, now), Addresses(cache, HA, Whatever, now),
          Addresses(cache, Master, Whatever, now), Addresses(cache, Master, Provisioned, now))
  }

  function EtcdCheck(cfg: ClusterSettings, agent: Agent, facts: Facts): Check {
    if facts.etcdProvisioned >= cfg.expectedETCDCount then
      PASS
    else if agent.roles.etcd && !agent.HasProvisioned(ETCD) then
      if facts.etcdTotal < cfg.expectedETCDCount then
        Checked(NotConfirmed, TooFewEtcdNodes, NoArguments)
      else
        Checked(Confirmed, NoReason, EtcdArguments(Text.Join(facts.etcdIps, ',')))
    else
      Checked(NotConfirmed, EtcdNotReady, NoArguments)
  }

  function MasterCheck(agent: Agent, facts: Facts): Check {
    if agent.roles.master && !agent.HasProvisioned(Master) then
      Checked(Confirmed, NoReason, NoArguments)
    else if facts.mastersProvisioned <= 0 then
      Checked(NotConfirmed, MastersNotReady, NoArguments)
    else
      PASS
  }

  // The first position of a word, -1 when it is missing.
  function IndexOf(word: string, data: seq<string>): (r: int)
    ensures -1 <= r < |data|
    ensures r >= 0 ==> data[r] == word && word !in data[..r]
    ensures r == -1 <==> word !in data
  {
    if data == [] then -1
    else if data[0] == word then 0
    else
      var r := IndexOf(word, data[1..]);
      if r == -1 then -1 else r + 1
  }

  const DEFAULT_ROUTER_ID := "40"
  const BASE_PRIORITY := 100

  function HaJobArguments(settings: HASettings, agent: Agent, facts: Facts): Arguments {
    HaArguments(
      Text.Join(facts.masterIps, ','),
      Text.Join(facts.haIps, ','),
      "BACKUP",
      if settings.routerId != "" then settings.routerId else DEFAULT_ROUTER_ID,
      Text.Itoa(IndexOf(Address(agent), facts.haIps) + BASE_PRIORITY),
      settings.vip)
  }

  function HaCheck(cfg: ClusterSettings, agent: Agent, facts: Facts): Check {
    if cfg.ha.None? then
      PASS
    else if |facts.haIps| < cfg.ha.value.nodeCount then
      Checked(NotConfirmed, TooFewHaNodes, NoArguments)
    else if agent.roles.ha && !agent.HasProvisioned(HA) then
      Checked(Confirmed, NoReason, HaJobArguments(cfg.ha.value, agent, facts))
    else if facts.haProvisioned == 0 then
      Checked(NotConfirmed, HaNotReady, NoArguments)
    else
      PASS
  }

  function MinionCheck(cfg: ClusterSettings, agent: Agent, facts: Facts): Check {
    if agent.roles.minion && !agent.HasProvisioned(Minion) then
      Checked(Confirmed, NoReason,
              MinionArguments(Text.Join(facts.readyMasterIps, ','), if cfg.ha.Some? then cfg.ha.value.vip else ""))
    else
      PASS
  }

  function CanDeploy(s: Strategy, cfg: ClusterSettings, agent: Agent, facts: Facts, failing: set<nat>): Check {
    match s
    case EtcdJob => EtcdCheck(cfg, agent, facts)
    case MasterJob => MasterCheck(agent, facts)
    case HaJob => HaCheck(cfg, agent, facts)
    case MinionJob => MinionCheck(cfg, agent, facts)
    case ServerSide(n) => if n in failing then Failed else PASS
  }

  predicate PassesBy(check: Check) {
    check.Checked? && check.flag == Inapplicable
  }

  // The position of the first answer that does not pass by; all passing by gives the number of answers.
  function Decisive(checks: seq<Check>): (r: nat)
    ensures r <= |checks|
    ensures forall k :: 0 <= k < r ==> PassesBy(checks[k])
    ensures r < |checks| ==> !PassesBy(checks[r])
  {
    if checks == [] || !PassesBy(checks[0]) then 0 else 1 + Decisive(checks[1..])
  }

  function AskAll(cfg: ClusterSettings, agent: Agent, facts: Facts, failing: set<nat>): (r: seq<Check>)
    ensures |r| == |STRATEGIES|
  {
    seq(|STRATEGIES|, i requires 0 <= i < |STRATEGIES| => CanDeploy(STRATEGIES[i], cfg, agent, facts, failing))
  }

  function Reply(s: Strategy, check: Check): Answer
    requires !PassesBy(check)
  {
    match check
    case Failed => Answer(AgentJob(Nop, NoArguments, InternalError), None, true)
    case Checked(flag, reason, args) =>
      if flag == NotConfirmed then Answer(AgentJob(Nop, NoArguments, reason), Some(PHASE_DEPLOYING), false)
      else Answer(AgentJob(NameOf(s), args, NoReason), Some(PHASE_DEPLOYING), false)
  }

  const ALL_DONE := Answer(AgentJob(Nop, NoArguments, NothingToDo), Some(PHASE_DEPLOYED), false)

  function NextJob(cfg: ClusterSettings, agent: Agent, facts: Facts, failing: set<nat>): Answer {
    if agent.state.None? then
      Answer(AgentJob(Nop, NoArguments, NotOnline), None, true)
    else
      var checks := AskAll(cfg, agent, facts, failing);
      var i := Decisive(checks);
      if i == |STRATEGIES| then ALL_DONE else Reply(STRATEGIES[i], checks[i])
  }

  // ---------- what the answers mean ----------

  predicate EnoughEtcd(cfg: ClusterSettings, facts: Facts) {
    facts.etcdProvisioned >= cfg.expectedETCDCount
  }

  predicate Owes(agent: Agent, slot: Slot) {
    agent.roles.In(slot) && !agent.HasProvisioned(slot)
  }

  // Masters first: the agent owes no master and one is provisioned somewhere.
  predicate PastMaster(cfg: ClusterSettings, agent: Agent, facts: Facts) {
    EnoughEtcd(cfg, facts) && !Owes(agent, Master) && facts.mastersProvisioned > 0
  }

  predicate HaReady(cfg: ClusterSettings, facts: Facts) {
    cfg.ha.Some? ==> |facts.haIps| >= cfg.ha.value.nodeCount
  }

  predicate PastHa(cfg: ClusterSettings, agent: Agent, facts: Facts) {
    && PastMaster(cfg, agent, facts) && HaReady(cfg, facts)
    && (cfg.ha.Some? ==> !Owes(agent, HA) && facts.haProvisioned > 0)
  }

  // How far the deployment has come for this agent: the position of the strategy that answers it, 4 when no role is
  // left.
  function Stage(cfg: ClusterSettings, agent: Agent, facts: Facts): nat {
    if !EnoughEtcd(cfg, facts) then 0
    else if !PastMaster(cfg, agent, facts) then 1
    else if !PastHa(cfg, agent, facts) then 2
    else if Owes(agent, Minion) then 3
    else 4
  }

  lemma StageIsDecisive(cfg: ClusterSettings, agent: Agent, facts: Facts, failing: set<nat>)
    ensures var i := Decisive(AskAll(cfg, agent, facts, failing));
      if i < 4 then i == Stage(cfg, agent, facts) else Stage(cfg, agent, facts) == 4
  {
    var checks := AskAll(cfg, agent, facts, failing);
    var i := Decisive(checks);
    assert PassesBy(checks[0]) <==> EnoughEtcd(cfg, facts);
    assert PassesBy(checks[1]) <==> !Owes(agent, Master) && facts.mastersProvisioned > 0;
    assert PassesBy(checks[2]) <==>
        HaReady(cfg, facts) && (cfg.ha.Some? ==> !Owes(agent, HA) && facts.haProvisioned > 0);
    assert PassesBy(checks[3]) <==> !Owes(agent, Minion);
  }

  // The ordering rules of deployment: which job is handed out under exactly which circumstances.
  lemma DispatchedExactlyWhen(cfg: ClusterSettings, agent: Agent, facts: Facts, failing: set<nat>)
    requires agent.state.Some?
    ensures var name := NextJob(cfg, agent, facts, failing).job.name;
      && (name == Deploy(ETCD) <==>
          !EnoughEtcd(cfg, facts) && Owes(agent, ETCD) && facts.etcdTotal >= cfg.expectedETCDCount)
      && (name == Deploy(Master) <==> EnoughEtcd(cfg, facts) && Owes(agent, Master))
      && (name == Deploy(HA) <==>
          PastMaster(cfg, agent, facts) && cfg.ha.Some? && HaReady(cfg, facts) && Owes(agent, HA))
      && (name == Deploy(Minion) <==> PastHa(cfg, agent, facts) && Owes(agent, Minion))
      && !name.OnServer? && name != Deploy(Pool)
  {
    StageIsDecisive(cfg, agent, facts, failing);
    var checks := AskAll(cfg, agent, facts, failing);
    var i := Decisive(checks);
    if i < |STRATEGIES| {
      assert checks[i] == CanDeploy(STRATEGIES[i], cfg, agent, facts, failing);
      assert i >= 4 ==> STRATEGIES[i].ServerSide?;
      assert i == 0 ==> STRATEGIES[i] == EtcdJob;
      assert i == 1 ==> STRATEGIES[i] == MasterJob;
      assert i == 2 ==> STRATEGIES[i] == HaJob;
      assert i == 3 ==> STRATEGIES[i] == MinionJob;
    }
  }

  // A query fails exactly when all roles are past and a server-side strategy fails; it answers Deployed exactly
  // when all roles are past and none fails; otherwise the agent is put in the deploying phase.
  lemma DeployedExactlyWhen(cfg: ClusterSettings, agent: Agent, facts: Facts, failing: set<nat>)
    requires agent.state.Some?
    ensures var a := NextJob(cfg, agent, facts, failing); var broken := exists n: nat :: n < 5 && n in failing;
      && (a.failed <==> Stage(cfg, agent, facts) == 4 && broken)
      && (a.phase == Some(PHASE_DEPLOYED) <==> Stage(cfg, agent, facts) == 4 && !broken)
      && (a.phase == Some(PHASE_DEPLOYING) <==> Stage(cfg, agent, facts) < 4)
      && (a.failed <==> a.phase == None)
  {
    StageIsDecisive(cfg, agent, facts, failing);
    var checks := AskAll(cfg, agent, facts, failing);
    var i := Decisive(checks);
    if i < |STRATEGIES| {
      assert checks[i] == CanDeploy(STRATEGIES[i], cfg, agent, facts, failing);
      if i >= 4 {
        assert STRATEGIES[i] == ServerSide(i - 4);
      }
    } else {
      forall n: nat | n < 5 ensures n !in failing {
        assert STRATEGIES[4 + n] == ServerSide(n);
        assert PassesBy(checks[4 + n]);
      }
    }
  }

  // What an agent without a job is told: which count the deployment waits for, that nothing is left to do, or that the
  // query failed. It is put in phase 2 when nothing is left to do, and in phase 1 whenever it waits or gets a job.
  lemma ToldExactlyWhen(cfg: ClusterSettings, agent: Agent, facts: Facts, failing: set<nat>)
    requires agent.state.Some?
    ensures var job, s := NextJob(cfg, agent, facts, failing).job, agent.state.value;
      var etcd := facts.etcdProvisioned >= cfg.expectedETCDCount;
      var master := etcd && !(agent.roles.master && !s.provisionedMaster) && facts.mastersProvisioned > 0;
      var ha := master && cfg.ha.Some?;
      && (job.reason == TooFewEtcdNodes <==>
          !etcd && agent.roles.etcd && !s.provisionedETCD && facts.etcdTotal < cfg.expectedETCDCount)
      && (job.reason == EtcdNotReady <==> !etcd && !(agent.roles.etcd && !s.provisionedETCD))
      && (job.reason == MastersNotReady <==>
          etcd && !(agent.roles.master && !s.provisionedMaster) && facts.mastersProvisioned == 0)
      && (job.reason == TooFewHaNodes <==> ha && |facts.haIps| < cfg.ha.value.nodeCount)
      && (job.reason == HaNotReady <==>
          (ha && |facts.haIps| >= cfg.ha.value.nodeCount && !(agent.roles.ha && !s.provisionedHA)
            && facts.haProvisioned == 0))
      && (job.reason == NothingToDo <==> NextJob(cfg, agent, facts, failing).phase == Some(PHASE_DEPLOYED))
      && (job.reason == InternalError <==> NextJob(cfg, agent, facts, failing).failed)
      && (job.name == Nop <==> job.reason != NoReason)
      && NextJob(cfg, agent, facts, failing).phase
           == (if job.reason == InternalError then None else if job.reason == NothingToDo then Some(2) else Some(1))
  {
    hide Text.Join, Text.Itoa, IndexOf;
    var checks := AskAll(cfg, agent, facts, failing);
    var i := Decisive(checks);
    StageIsDecisive(cfg, agent, facts, failing);
    if i < |STRATEGIES| {
      assert checks[i] == CanDeploy(STRATEGIES[i], cfg, agent, facts, failing);
      assert i >= 4 ==> STRATEGIES[i].ServerSide?;
      assert i == 0 ==> STRATEGIES[i] == EtcdJob;
      assert i == 1 ==> STRATEGIES[i] == MasterJob;
      assert i == 2 ==> STRATEGIES[i] == HaJob;
      assert i == 3 ==> STRATEGIES[i] == MinionJob;
    }
  }

  // ---------- the scheduler itself ----------

  method FindIndex(word: string, data: seq<string>) returns (r: int)
    ensures r == IndexOf(word, data)
  {
    for k := 0 to |data|
      invariant word !in data[..k]
    {
      if data[k] == word {
        FirstIndex(word, data, k);
        return k;
      }
    }
    assert data[..|data|] == data;
    return -1;
  }

  lemma {:induction false} FirstIndex(word: string, data: seq<string>, k: nat)
    requires k < |data| && data[k] == word && word !in data[..k]
    ensures IndexOf(word, data) == k
  {
    if k > 0 {
      assert data[0] == data[..k][0];
      assert data[1..][..k - 1] == data[..k][1..];
      FirstIndex(word, data[1..], k - 1);
    }
  }

  class JobScheduler {
    var strategies: seq<Strategy>

    constructor ()
      ensures strategies == STRATEGIES
    {
      strategies := STRATEGIES;
    }

    method CheckEtcd(cfg: ClusterSettings, agent: Agent, cache: AgentCache, now: real) returns (r: Check)
      requires cache.Valid() && agent.state.Some? && AllOnline(cache.View().At(ETCD))
      ensures r == EtcdCheck(cfg, agent, Survey(cache.View(), now))
    {
      hide Shown, Contents, AgentCache.Valid, Addresses, CountProvisioned, AllOnline, Text.Join;
      var provisioned := cache.GetTotalProvisionedCountByRole(ETCD);
      if provisioned >= cfg.expectedETCDCount {
        return PASS;
      }
      if agent.roles.etcd {
        if !agent.state.value.provisionedETCD {
          var total := cache.GetTotalCountByRole(ETCD);
          if total < cfg.expectedETCDCount {
            return Checked(NotConfirmed, TooFewEtcdNodes, NoArguments);
          }
          var ips := cache.GetAgentsAddress(ETCD, Whatever, now);
          return Checked(Confirmed, NoReason, EtcdArguments(Text.Join(ips, ',')));
        }
      }
      return Checked(NotConfirmed, EtcdNotReady, NoArguments);
    }

    method CheckMaster(agent: Agent, cache: AgentCache, ghost now: real) returns (r: Check)
      requires cache.Valid() && agent.state.Some?
      ensures r == MasterCheck(agent, Survey(cache.View(), now))
    {
      hide Shown, Contents, AgentCache.Valid, Addresses, CountProvisioned;
      if agent.roles.master && !agent.state.value.provisionedMaster {
        return Checked(Confirmed, NoReason, NoArguments);
      }
      var provisioned := cache.GetTotalProvisionedCountByRole(Master);
      if provisioned <= 0 {
        return Checked(NotConfirmed, MastersNotReady, NoArguments);
      }
      return PASS;
    }

    method CheckHa(cfg: ClusterSettings, agent: Agent, cache: AgentCache, now: real) returns (r: Check)
      requires cache.Valid() && agent.state.Some? && AllOnline(cache.View().At(HA))
      requires AllOnline(cache.View().At(Master))
      ensures r == HaCheck(cfg, agent, Survey(cache.View(), now))
    {
      hide Shown, Contents, AgentCache.Valid, Addresses, CountProvisioned, AllOnline, Text.Join, Text.Sort, Text.Itoa;
      if cfg.ha.None? {
        return PASS;
      }
      var haIps := cache.GetAgentsAddress(HA, Whatever, now);
      if |haIps| < cfg.ha.value.nodeCount {
        return Checked(NotConfirmed, TooFewHaNodes, NoArguments);
      }
      if agent.roles.ha && !agent.state.value.provisionedHA {
        var routerId := DEFAULT_ROUTER_ID;
        var masterIps := cache.GetAgentsAddress(Master, Whatever, now);
        if cfg.ha.value.routerId != "" {
          routerId := cfg.ha.value.routerId;
        }
        SortedAddresses(cache.View(), HA, now);
        haIps := Text.Sort(haIps);
        var index := FindIndex(agent.state.value.lastReportIP, haIps);
        return Checked(Confirmed, NoReason, HaArguments(
          Text.Join(masterIps, ','), Text.Join(haIps, ','), "BACKUP", routerId, Text.Itoa(index + BASE_PRIORITY),
          cfg.ha.value.vip));
      }
      var provisioned := cache.GetTotalProvisionedCountByRole(HA);
      if provisioned == 0 {
        return Checked(NotConfirmed, HaNotReady, NoArguments);
      }
      return PASS;
    }

    method CheckMinion(cfg: ClusterSettings, agent: Agent, cache: AgentCache, now: real) returns (r: Check)
      requires cache.Valid() && agent.state.Some? && AllOnline(cache.View().At(Master))
      ensures r == MinionCheck(cfg, agent, Survey(cache.View(), now))
    {
      hide Shown, Contents, AgentCache.Valid, Addresses, CountProvisioned, AllOnline, Text.Join;
      if agent.roles.minion && !agent.state.value.provisionedMinion {
        var vip := "";
        var masterIps := cache.GetAgentsAddress(Master, Provisioned, now);
        if cfg.ha.Some? {
          vip := cfg.ha.value.vip;
        }
        return Checked(Confirmed, NoReason, MinionArguments(Text.Join(masterIps, ','), vip));
      }
      return PASS;
    }

    method Ask(s: Strategy, cfg: ClusterSettings, agent: Agent, cache: AgentCache, out: Outside) returns (r: Check)
      requires cache.Valid() && agent.state.Some? && (forall slot: Slot :: AllOnline(cache.View().At(slot)))
      ensures r == CanDeploy(s, cfg, agent, Survey(cache.View(), out.now), out.failing)
    {
      hide Survey, Shown, Contents, AgentCache.Valid, AllOnline, EtcdCheck, MasterCheck, HaCheck, MinionCheck;
      assert AllOnline(cache.View().At(ETCD)) && AllOnline(cache.View().At(HA)) && AllOnline(cache.View().At(Master));
      match s {
        case EtcdJob => r := CheckEtcd(cfg, agent, cache, out.now);
        case MasterJob => r := CheckMaster(agent, cache, out.now);
        case HaJob => r := CheckHa(cfg, agent, cache, out.now);
        case MinionJob => r := CheckMinion(cfg, agent, cache, out.now);
        case ServerSide(n) =>
          r := if n in out.failing then Failed else PASS;
      }
    }

    // Walks the strategies in order. The phase is what the caller's callback is invoked with, if it is.
    method GetNextJob(cfg: ClusterSettings, agent: Agent, cache: AgentCache, out: Outside) returns (r: Answer)
      requires cache.Valid() && forall slot: Slot :: AllOnline(cache.View().At(slot))
      ensures strategies == STRATEGIES ==> r == NextJob(cfg, agent, Survey(cache.View(), out.now), out.failing)
      ensures strategies == [] ==> r.phase == Some(PHASE_DEPLOYED) && r.job.name == Nop && !r.failed
    {
      hide Survey, CanDeploy, AllOnline;
      if |strategies| == 0 {
        return Answer(AgentJob(Nop, NoArguments, NoStrategies), Some(PHASE_DEPLOYED), false);
      }
      if agent.state.None? {
        return Answer(AgentJob(Nop, NoArguments, NotOnline), None, true);
      }
      ghost var facts := Survey(cache.View(), out.now);
      ghost var checks := AskAll(cfg, agent, facts, out.failing);
      for i := 0 to |strategies|
        invariant strategies == STRATEGIES ==> i <= Decisive(checks)
      {
        var check := Ask(strategies[i], cfg, agent, cache, out);
        assert strategies == STRATEGIES ==> check == checks[i];
        if check.Failed? {
          return Answer(AgentJob(Nop, NoArguments, InternalError), None, true);
        }
        if check.flag == Inapplicable {
          continue;
        }
        if check.flag == NotConfirmed {
          return Answer(AgentJob(Nop, NoArguments, check.reason), Some(PHASE_DEPLOYING), false);
        }
        return Answer(AgentJob(NameOf(strategies[i]), check.args, NoReason), Some(PHASE_DEPLOYING), false);
      }
      return ALL_DONE;
    }
  }

  // Addresses come sorted, so the strategy's own sorting changes nothing.
  lemma SortedAddresses(cache: Cache, slot: Slot, now: real)
    ensures Text.Sort(Addresses(cache, slot, Whatever, now)) == Addresses(cache, slot, Whatever, now)
  {
    var m := cache.At(slot);
    var order := SomeOrder(m.Keys);
    EnumeratesKeys(order, m);
    Text.SortIsIdempotent(Collect(m, order, slot, Whatever, now));
  }
}

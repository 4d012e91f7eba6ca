/**
  The manager's map of clusters (pkg/cache/cluster_manager.go): loaded from a snapshot of the store and kept
  up to date by a watch that starts at the revision of that very snapshot.
 */
module Clusters {
  import opened Entities
  import Keys

  // A put of a cluster's metadata, or its deletion.
  datatype Change = Change(rev: nat, id: string, settings: Option<ClusterSettings>)

  function Apply(m: map<string, ClusterSettings>, e: Change): map<string, ClusterSettings> {
    if e.settings.None? then m - {e.id} else m[e.id := e.settings.value]
  }

  function Replay(m: map<string, ClusterSettings>, log: seq<Change>): map<string, ClusterSettings> {
    if log == [] then m else Apply(Replay(m, log[..|log| - 1]), log[|log| - 1])
  }

  // Revisions go up; one revision may hold several changes, of different keys.
  ghost predicate Ordered(log: seq<Change>) {
    forall i, j :: 0 <= i < j < |log| ==>
      log[i].rev < log[j].rev || (log[i].rev == log[j].rev && log[i].id != log[j].id)
  }

  // How many changes came before this revision.
  function Before(log: seq<Change>, rev: nat): (n: nat)
    ensures n <= |log|
    ensures forall i :: 0 <= i < n ==> log[i].rev < rev
    ensures n < |log| ==> log[n].rev >= rev
  {
    if log == [] || log[0].rev >= rev then 0 else 1 + Before(log[1..], rev)
  }

  function Snapshot(log: seq<Change>, rev: nat): map<string, ClusterSettings> {
    Replay(map[], log[..Before(log, rev + 1)])
  }

  // What a watch from a revision delivers: the changes of that revision are among them.
  function Stream(log: seq<Change>, rev: nat): seq<Change> {
    log[Before(log, rev)..]
  }

  lemma {:induction false} ReplayTwice(m: map<string, ClusterSettings>, a: seq<Change>, b: seq<Change>)
    ensures Replay(m, a + b) == Replay(Replay(m, a), b)
  {
    if b == [] {
      assert a + b == a;
    } else {
      assert (a + b)[..|a + b| - 1] == a + b[..|b| - 1];
      ReplayTwice(m, a, b[..|b| - 1]);
    }
  }

  // What a map says of an id.
  function Of(m: map<string, ClusterSettings>, id: string): Option<ClusterSettings> {
    if id in m then Some(m[id]) else None
  }

  lemma {:induction false} Untouched(m: map<string, ClusterSettings>, log: seq<Change>, id: string)
    requires forall e :: e in log ==> e.id != id
    ensures Of(Replay(m, log), id) == Of(m, id)
  {
    if log != [] {
      Untouched(m, log[..|log| - 1], id);
    }
  }

  // The last change of this id in the log.
  ghost predicate LastOf(log: seq<Change>, id: string, i: int) {
    0 <= i < |log| && log[i].id == id && forall j :: i < j < |log| ==> log[j].id != id
  }

  // A log leaves exactly the clusters whose last change is a put, with the settings of that put.
  ghost predicate LeftBy(m: map<string, ClusterSettings>, log: seq<Change>, id: string) {
    && (id in m <==> exists i :: LastOf(log, id, i) && log[i].settings.Some?)
    && (forall i :: LastOf(log, id, i) && log[i].settings.Some? ==> id in m && m[id] == log[i].settings.value)
  }

  lemma {:induction false} ReplayLeaves(log: seq<Change>, id: string)
    ensures LeftBy(Replay(map[], log), log, id)
  {
    if log != [] {
      var n := |log| - 1;
      ReplayLeaves(log[..n], id);
      if log[n].id == id {
        assert LastOf(log, id, n);
      } else {
        forall i ensures LastOf(log, id, i) <==> LastOf(log[..n], id, i) {}
      }
    }
  }

  lemma LeftAlike(a: map<string, ClusterSettings>, b: map<string, ClusterSettings>)
    requires forall id :: Of(a, id) == Of(b, id)
    ensures a == b
  {
    forall id ensures id in a <==> id in b ensures id in a ==> a[id] == b[id] {
      assert Of(a, id) == Of(b, id);
    }
  }

  // The loaded puts are of different clusters: exactly those whose last change in the log is a put, as it was put.
  ghost predicate Depict(puts: seq<Change>, log: seq<Change>) {
    && (forall i, j :: 0 <= i < j < |puts| ==> puts[i].id != puts[j].id)
    && (forall i :: 0 <= i < |puts| ==>
         puts[i].settings.Some? && exists j :: LastOf(log, puts[i].id, j) && log[j].settings == puts[i].settings)
    && (forall id, j :: LastOf(log, id, j) && log[j].settings.Some? ==> exists i :: 0 <= i < |puts| && puts[i].id == id)
  }

  lemma DepictedIsReplayed(puts: seq<Change>, log: seq<Change>)
    requires Depict(puts, log)
    ensures Replay(map[], puts) == Replay(map[], log)
  {
    hide Replay;
    forall id ensures Of(Replay(map[], puts), id) == Of(Replay(map[], log), id) {
      ReplayLeaves(puts, id);
      ReplayLeaves(log, id);
      if j :| LastOf(log, id, j) && log[j].settings.Some? {
        var i :| 0 <= i < |puts| && puts[i].id == id;
        assert LastOf(puts, id, i);
      }
      if i :| LastOf(puts, id, i) {
        var j :| LastOf(log, puts[i].id, j) && log[j].settings == puts[i].settings;
      }
    }
    LeftAlike(Replay(map[], puts), Replay(map[], log));
  }

  // A change that no later one of its id followed is without effect when it is applied again.
  lemma SecondTimeIsNothing(log: seq<Change>, k: nat)
    requires k < |log| && forall i :: k < i < |log| ==> log[i].id != log[k].id
    ensures Apply(Replay(map[], log), log[k]) == Replay(map[], log)
  {
    var e := log[k];
    assert log == log[..k + 1] + log[k + 1..] && log[..k + 1][..k] == log[..k];
    ReplayTwice(map[], log[..k + 1], log[k + 1..]);
    Untouched(Replay(map[], log[..k + 1]), log[k + 1..], e.id);
    var m := Replay(map[], log);
    assert Of(m, e.id) == e.settings;
  }

  lemma {:induction false} RedeliveryIsNothing(log: seq<Change>, i: nat, n: nat)
    requires i + n <= |log|
    requires forall k, l :: i <= k < l < |log| ==> log[k].id != log[l].id
    ensures Replay(Replay(map[], log), log[i..i + n]) == Replay(map[], log)
  {
    if n > 0 {
      RedeliveryIsNothing(log, i, n - 1);
      assert log[i..i + n][..n - 1] == log[i..i + n - 1];
      SecondTimeIsNothing(log, i + n - 1);
    }
  }

  // The changes of one revision lie between two cuts, and they are of different ids.
  lemma CutAt(log: seq<Change>, rev: nat)
    requires Ordered(log)
    ensures Before(log, rev) <= Before(log, rev + 1) && Stream(log, rev) == log[Before(log, rev)..]
    ensures Snapshot(log, rev) == Replay(map[], log[..Before(log, rev + 1)])
    ensures forall k, l :: Before(log, rev) <= k < l < Before(log, rev + 1) ==> log[k].id != log[l].id
  {
  }

  lemma EarlySlice(log: seq<Change>, i: nat, j: nat, n: nat)
    requires i + n <= j <= |log|
    ensures log[i..][..n] == log[..j][i..i + n]
  {
  }

  lemma LateSlice(log: seq<Change>, i: nat, j: nat, n: nat)
    requires i <= j <= i + n <= |log|
    ensures log[i..][..n] == log[..j][i..j] + log[j..i + n]
    ensures log[..i + n] == log[..j] + log[j..i + n]
  {
    assert log[i..][..n] == log[i..i + n];
    assert log[..j][i..j] == log[i..j];
    assert log[i..i + n] == log[i..j] + log[j..i + n];
  }

  // Loading the snapshot of a revision and then applying the stream that starts at that same revision leaves, after
  // every prefix of the stream, the map that replaying the whole log from nothing leaves: the changes that are seen
  // twice do no harm, and none is missed.
  lemma ReplayFromSnapshot(log: seq<Change>, rev: nat, n: nat)
    requires Ordered(log) && n <= |Stream(log, rev)|
    ensures var first, end := Before(log, rev), Before(log, rev + 1);
      && first <= end
      && Replay(Snapshot(log, rev), Stream(log, rev)[..n])
          == Replay(map[], log[..if first + n < end then end else first + n])
  {
    hide Before, Ordered, Stream, Snapshot, Replay;
    var i, j := Before(log, rev), Before(log, rev + 1);
    CutAt(log, rev);
    var shot := log[..j];
    if i + n <= j {
      EarlySlice(log, i, j, n);
      RedeliveryIsNothing(shot, i, n);
    } else {
      LateSlice(log, i, j, n);
      RedeliveryIsNothing(shot, i, j - i);
      ReplayTwice(Snapshot(log, rev), shot[i..j], log[j..i + n]);
      ReplayTwice(map[], shot, log[j..i + n]);
    }
  }

  // ---------- the manager ----------

  class Controller {
    var settings: ClusterSettings
    var isDisposed: bool

    constructor (settings: ClusterSettings)
      ensures this.settings == settings && !isDisposed
    {
      this.settings := settings;
      isDisposed := false;
    }
  }

  // A delivered key and what it holds; registering a new cluster with the store may fail.
  datatype Delivery = Delivery(rev: nat, path: string, settings: ClusterSettings, isDeleted: bool, registers: bool)

  // What the manager makes of a delivery, if its key is a cluster's.
  function AsChange(d: Delivery): Option<Change> {
    var claim := Keys.IsClusterChanged(Keys.SubKeys(d.path));
    if claim.Claimed? then Some(Change(d.rev, claim.id, if d.isDeleted then None else Some(d.settings))) else None
  }

  function AsChanges(ds: seq<Delivery>): seq<Change> {
    if ds == [] then []
    else AsChanges(ds[..|ds| - 1]) + match AsChange(ds[|ds| - 1]) case None => [] case Some(e) => [e]
  }

  // The metadata key of a cluster tells of a put or a deletion of that cluster, and no agent's key tells of any.
  lemma DeliveryTells(d: Delivery, c: string, a: string)
    requires Keys.Plain(c) && Keys.Plain(a)
    ensures d.path == "/lightning-monkey/clusters/" + c + "/metadata" ==>
        AsChange(d) == Some(Change(d.rev, c, if d.isDeleted then None else Some(d.settings)))
    ensures d.path == "/lightning-monkey/clusters/" + c + "/agents/" + a + "/settings" ==> AsChange(d) == None
    ensures d.path == "/lightning-monkey/clusters/" + c + "/agents/" + a + "/state" ==> AsChange(d) == None
  {
    hide Keys.Format, Keys.SubKeys, Keys.IsClusterChanged;
    Keys.PathsAre(c, a);
    Keys.ClaimedOnceExactlyWhen(Keys.Metadata(c));
    Keys.ClaimedOnceExactlyWhen(Keys.Settings(c, a));
    Keys.ClaimedOnceExactlyWhen(Keys.State(c, a));
  }

  // Keys are those of a store under the clusters' prefix, and metadata is stored under its own id.
  ghost predicate Proper(d: Delivery) {
    && Keys.IsClusterChanged(Keys.SubKeys(d.path)) != Keys.Panics
    && (AsChange(d).Some? && !d.isDeleted ==> d.settings.id == AsChange(d).value.id)
  }

  ghost function SettingsOf(m: map<string, Controller>): map<string, ClusterSettings>
    reads m.Values
  {
    map id | id in m :: m[id].settings
  }

  class ClusterManager {
    var clusters: map<string, Controller>

    constructor ()
      ensures Valid() && View() == map[] && clusters == map[]
    {
      clusters := map[];
    }

    ghost function View(): map<string, ClusterSettings>
      reads this, clusters.Values
    {
      SettingsOf(clusters)
    }

    // A controller is filed under its cluster's id, so no two ids share one, and none of them is disposed of.
    ghost predicate Valid()
      reads this, clusters.Values
    {
      forall id :: id in clusters ==> clusters[id].settings.id == id && !clusters[id].isDisposed
    }

    // A deleted cluster is disposed of, an unknown one gets a controller, a known one keeps its own.
    method DoClusterChange(id: string, settings: ClusterSettings, isDeleted: bool, registers: bool, ghost rev: nat)
      returns (ok: bool)
      requires Valid() && (!isDeleted ==> settings.id == id)
      modifies this, clusters.Values
      ensures Valid() && fresh(clusters.Values - old(clusters.Values))
      ensures ok <==> isDeleted || registers || id in old(clusters)
      ensures View() == if !ok then old(View())
          else Apply(old(View()), Change(rev, id, if isDeleted then None else Some(settings)))
      ensures forall c :: c in old(clusters) && !(c == id && isDeleted) ==>
          c in clusters && clusters[c] == old(clusters)[c]
      ensures isDeleted && id in old(clusters) ==> old(clusters)[id].isDisposed
      ensures isDeleted ==> id !in clusters
      ensures ok && !isDeleted ==> id in clusters && clusters[id].settings == settings
      ensures !ok ==> clusters == old(clusters)
      ensures forall c :: c != id ==> (c in clusters <==> c in old(clusters))
      ensures forall c :: c != id && c in clusters ==> clusters[c].settings == old(clusters[c].settings)
    {
      if isDeleted {
        if id in clusters {
          DisposeCluster(id);
        }
        return true;
      }
      if id !in clusters {
        var cluster := new Controller(settings);
        if !registers {
          return false;
        }
        clusters := clusters[id := cluster];
        return true;
      }
      UpdateCluster(id, settings);
      return true;
    }

    method DisposeCluster(id: string)
      requires Valid() && id in clusters
      modifies this, clusters[id]
      ensures Valid() && View() == old(View()) - {id} && clusters == old(clusters) - {id}
      ensures old(clusters)[id].isDisposed
    {
      clusters[id].isDisposed := true;
      clusters := clusters - {id};
    }

    // A known cluster keeps its controller.
    method UpdateCluster(id: string, settings: ClusterSettings)
      requires Valid() && id in clusters && settings.id == id
      modifies clusters[id]
      ensures Valid() && View() == old(View())[id := settings] && clusters == old(clusters)
      ensures clusters[id].settings == settings
      ensures forall c :: c in clusters && c != id ==> clusters[c].settings == old(clusters[c].settings)
    {
      clusters[id].settings := settings;
    }

    // Loads the key-value pairs of a snapshot; the first failure ends the loading.
    method FullSync(kvs: seq<Delivery>) returns (ok: bool)
      requires Valid() && forall d :: d in kvs ==> Proper(d) && !d.isDeleted
      modifies this, clusters.Values
      ensures Valid() && fresh(clusters.Values - old(clusters.Values))
      ensures ok ==> View() == Replay(old(View()), AsChanges(kvs))
      ensures !ok ==>
        exists i :: 0 <= i < |kvs| && !kvs[i].registers && View() == Replay(old(View()), AsChanges(kvs[..i]))
      ensures (forall d :: d in kvs ==> d.registers) ==> ok
    {
      hide Keys.SubKeys, Keys.IsClusterChanged, Apply, SettingsOf;
      for i := 0 to |kvs|
        invariant Valid() && fresh(clusters.Values - old(clusters.Values))
        invariant View() == Replay(old(View()), AsChanges(kvs[..i]))
      {
        var d := kvs[i];
        NextChange(kvs, i);
        assert d in kvs;
        var claim := Keys.IsClusterChanged(Keys.SubKeys(d.path));
        if !claim.Claimed? {
          continue;
        }
        var done := DoClusterChange(claim.id, d.settings, false, d.registers, d.rev);
        if !done {
          return false;
        }
      }
      assert kvs[..|kvs|] == kvs;
      return true;
    }

    // Applies the deliveries one by one; a key that is not a cluster's is passed over, a failure is only logged.
    method WatchClusterChanges(ds: seq<Delivery>)
      requires Valid() && forall d :: d in ds ==> Proper(d)
      modifies this, clusters.Values
      ensures Valid() && fresh(clusters.Values - old(clusters.Values))
      ensures View() == Delivered(old(View()), ds)
    {
      hide Keys.SubKeys, Keys.IsClusterChanged, Apply, SettingsOf;
      for i := 0 to |ds|
        invariant Valid() && fresh(clusters.Values - old(clusters.Values))
        invariant View() == Delivered(old(View()), ds[..i])
      {
        var d := ds[i];
        assert d in ds && ds[..i + 1][..i] == ds[..i];
        SameIds(clusters);
        var claim := Keys.IsClusterChanged(Keys.SubKeys(d.path));
        if claim.Claimed? {
          var _ := DoClusterChange(claim.id, d.settings, d.isDeleted, d.registers, d.rev);
        }
      }
      assert ds[..|ds|] == ds;
    }

    // Started on the snapshot of a revision and fed any prefix of the stream from that revision on, the manager knows
    // exactly the clusters that the log of the store leaves at that point, with their latest settings.
    method Initialize(kvs: seq<Delivery>, ds: seq<Delivery>, ghost log: seq<Change>, ghost rev: nat)
      requires Valid() && clusters == map[]
      requires (forall d :: d in kvs ==> Proper(d) && !d.isDeleted && d.registers)
      requires (forall d :: d in ds ==> Proper(d) && d.registers)
      requires Ordered(log) && Depict(AsChanges(kvs), log[..Before(log, rev + 1)])
      requires |AsChanges(ds)| <= |Stream(log, rev)| && AsChanges(ds) == Stream(log, rev)[..|AsChanges(ds)|]
      modifies this
      ensures Valid()
      ensures var first, end, n := Before(log, rev), Before(log, rev + 1), |AsChanges(ds)|;
        var upTo := log[..if first + n < end then end else first + n];
        && View() == Replay(map[], upTo)
        && (forall id :: id in clusters <==> exists i :: LastOf(upTo, id, i) && upTo[i].settings.Some?)
        && (forall id, i :: LastOf(upTo, id, i) && upTo[i].settings.Some? ==>
             id in clusters && clusters[id].settings == upTo[i].settings.value)
    {
      hide Replay, Ordered, Stream, Before, AsChanges, Proper, Delivered, Depict, LastOf;
      assert View() == map[];
      DepictedIsReplayed(AsChanges(kvs), log[..Before(log, rev + 1)]);
      var _ := FullSync(kvs);
      NoFailures(View(), ds);
      WatchClusterChanges(ds);
      ReplayFromSnapshot(log, rev, |AsChanges(ds)|);
      CutAt(log, rev);
      ghost var first, end, n := Before(log, rev), Before(log, rev + 1), |AsChanges(ds)|;
      Leaves(log[..if first + n < end then end else first + n]);
    }

    // The clusters by the last changes of a log.
    lemma Leaves(log: seq<Change>)
      requires View() == Replay(map[], log)
      ensures forall id :: id in clusters <==> exists i :: LastOf(log, id, i) && log[i].settings.Some?
      ensures forall id, i :: LastOf(log, id, i) && log[i].settings.Some? ==>
          id in clusters && clusters[id].settings == log[i].settings.value
    {
      hide Replay;
      forall id ensures id in clusters <==> exists i :: LastOf(log, id, i) && log[i].settings.Some? {
        ReplayLeaves(log, id);
        assert id in clusters <==> id in View();
      }
      forall id, i | LastOf(log, id, i) && log[i].settings.Some?
        ensures id in clusters && clusters[id].settings == log[i].settings.value
      {
        ReplayLeaves(log, id);
        assert id in View() && View()[id] == clusters[id].settings;
      }
    }
  }

  lemma SameIds(m: map<string, Controller>)
    ensures SettingsOf(m).Keys == m.Keys
  {
  }

  // The clusters after a delivery: one that cannot be registered is left out until its next delivery.
  function Deliver(m: map<string, ClusterSettings>, d: Delivery): map<string, ClusterSettings> {
    match AsChange(d)
    case None => m
    case Some(e) => if d.isDeleted || d.registers || e.id in m then Apply(m, e) else m
  }

  function Delivered(m: map<string, ClusterSettings>, ds: seq<Delivery>): map<string, ClusterSettings> {
    if ds == [] then m else Deliver(Delivered(m, ds[..|ds| - 1]), ds[|ds| - 1])
  }

  predicate IsPut(d: Delivery, c: string) {
    !d.isDeleted && AsChange(d).Some? && AsChange(d).value.id == c
  }

  predicate IsDeletion(d: Delivery, c: string) {
    d.isDeleted && AsChange(d).Some? && AsChange(d).value.id == c
  }

  // A put of the cluster that can be registered, with no deletion after it.
  ghost predicate RegisteredAt(ds: seq<Delivery>, c: string, i: int) {
    0 <= i < |ds| && IsPut(ds[i], c) && ds[i].registers && forall j :: i < j < |ds| ==> !IsDeletion(ds[j], c)
  }

  ghost predicate LastPutAt(ds: seq<Delivery>, c: string, i: int) {
    0 <= i < |ds| && IsPut(ds[i], c) && forall j :: i < j < |ds| ==> !IsPut(ds[j], c)
  }

  lemma RegisteredBefore(ds: seq<Delivery>, c: string, i: int)
    requires ds != [] && 0 <= i < |ds| - 1
    ensures RegisteredAt(ds, c, i) <==>
        RegisteredAt(ds[..|ds| - 1], c, i) && !IsDeletion(ds[|ds| - 1], c)
  {
    hide IsPut, IsDeletion;
    var front := ds[..|ds| - 1];
    assert forall j :: 0 <= j < |ds| - 1 ==> front[j] == ds[j];
  }

  lemma LastPutBefore(ds: seq<Delivery>, c: string, i: int)
    requires ds != [] && 0 <= i < |ds| - 1
    ensures LastPutAt(ds, c, i) <==> LastPutAt(ds[..|ds| - 1], c, i) && !IsPut(ds[|ds| - 1], c)
  {
    hide IsPut;
    var front := ds[..|ds| - 1];
    assert forall j :: 0 <= j < |ds| - 1 ==> front[j] == ds[j];
  }

  // What one delivery does to one cluster.
  lemma DeliverTells(m: map<string, ClusterSettings>, d: Delivery, c: string)
    ensures Of(Deliver(m, d), c) ==
      if IsDeletion(d, c) then None
      else if IsPut(d, c) && (d.registers || c in m) then Some(d.settings) else Of(m, c)
  {
    hide Keys.SubKeys, Keys.IsClusterChanged;
  }

  // A cluster is known exactly when some put of it could be registered and no deletion followed.
  lemma {:induction false} KnownExactlyWhen(ds: seq<Delivery>, c: string)
    ensures c in Delivered(map[], ds) <==> exists i :: RegisteredAt(ds, c, i)
  {
    hide IsPut, IsDeletion, Deliver, RegisteredAt;
    if ds == [] {
      forall i ensures !RegisteredAt(ds, c, i) { NoneIn(ds, c, i); }
    } else {
      var n := |ds| - 1;
      KnownExactlyWhen(ds[..n], c);
      DeliverTells(Delivered(map[], ds[..n]), ds[n], c);
      LastRegistered(ds, c);
      if i :| RegisteredAt(ds[..n], c, i) {
        NoneIn(ds[..n], c, i);
        RegisteredBefore(ds, c, i);
      }
      if i :| RegisteredAt(ds, c, i) {
        NoneIn(ds, c, i);
        if i < n { RegisteredBefore(ds, c, i); }
      }
    }
  }

  lemma NoneIn(ds: seq<Delivery>, c: string, i: int)
    ensures RegisteredAt(ds, c, i) || LastPutAt(ds, c, i) ==> 0 <= i < |ds|
  {
  }

  lemma LastRegistered(ds: seq<Delivery>, c: string)
    requires ds != []
    ensures RegisteredAt(ds, c, |ds| - 1) <==> IsPut(ds[|ds| - 1], c) && ds[|ds| - 1].registers
    ensures !(IsPut(ds[|ds| - 1], c) && IsDeletion(ds[|ds| - 1], c))
  {
    hide AsChange;
  }

  // It has the settings of its last put then, whether that one could have been registered or not.
  lemma {:induction false} KnownAsLastPut(ds: seq<Delivery>, c: string, i: int)
    requires c in Delivered(map[], ds) && LastPutAt(ds, c, i)
    ensures i < |ds| && Delivered(map[], ds)[c] == ds[i].settings
  {
    hide IsPut, IsDeletion, Deliver, LastPutAt;
    NoneIn(ds, c, i);
    var n := |ds| - 1;
    DeliverTells(Delivered(map[], ds[..n]), ds[n], c);
    LastRegistered(ds, c);
    LastIsPut(ds, c, i);
    if i < n {
      LastPutBefore(ds, c, i);
      KnownAsLastPut(ds[..n], c, i);
    }
  }

  lemma LastIsPut(ds: seq<Delivery>, c: string, i: int)
    requires LastPutAt(ds, c, i)
    ensures 0 <= i < |ds| && IsPut(ds[i], c) && (i < |ds| - 1 ==> !IsPut(ds[|ds| - 1], c))
  {
  }

  // When nothing fails to register, deliveries are replayed change by change.
  lemma {:induction false} NoFailures(m: map<string, ClusterSettings>, ds: seq<Delivery>)
    requires forall d :: d in ds ==> d.registers
    ensures Delivered(m, ds) == Replay(m, AsChanges(ds))
  {
    if ds != [] {
      var n := |ds| - 1;
      assert ds[..n + 1] == ds && ds[n] in ds;
      NoFailures(m, ds[..n]);
      NextChange(ds, n);
    }
  }

  lemma NextChange(ds: seq<Delivery>, i: nat)
    requires i < |ds|
    ensures match AsChange(ds[i])
      case None => AsChanges(ds[..i + 1]) == AsChanges(ds[..i])
      case Some(e) => forall m :: Replay(m, AsChanges(ds[..i + 1])) == Apply(Replay(m, AsChanges(ds[..i])), e)
  {
    hide AsChange, Apply;
    assert ds[..i + 1][..i] == ds[..i];
    var before := AsChanges(ds[..i]);
    if AsChange(ds[i]).Some? {
      var e := AsChange(ds[i]).value;
      assert AsChanges(ds[..i + 1]) == before + [e] && (before + [e])[..|before|] == before;
    }
  }
}

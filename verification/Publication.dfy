/**
  Publishing a new cluster: its certificates are stored before its metadata (pkg/managers/cluster_mgmt.go), and
  the metadata makes the manager load the certificates and show the cluster (pkg/cache/cluster_manager.go,
  pkg/cache/cluster_controller.go).
 */
module Publication {
  import opened Entities
  import opened Caching
  import Certificates
  import Keys

  // ---------- the order of the writes ----------

  datatype Write = Write(path: string, value: string)

  // One write of a save by what it stores.
  datatype Item = Cert(name: string, value: string) | Meta(value: string)

  function ToWrite(c: string, item: Item): Write {
    match item
    case Cert(name, value) => Write(Keys.Format(Keys.Certificate(c, Certificates.Escape(name))), value)
    case Meta(value) => Write(Keys.Format(Keys.Metadata(c)), value)
  }

  function Writes(c: string, items: seq<Item>): seq<Write> {
    seq(|items|, i requires 0 <= i < |items| => ToWrite(c, items[i]))
  }

  function CertItems(generated: map<string, string>, order: seq<string>): seq<Item>
    requires forall name :: name in order ==> name in generated
  {
    seq(|order|, i requires 0 <= i < |order| => Cert(order[i], generated[order[i]]))
  }

  // One call of SaveCluster: what was generated, in which order it was written, and the metadata if it came to that.
  datatype Session = Session(generated: map<string, string>, order: seq<string>, metadata: Option<string>)

  // A session ends with the metadata only after every certificate, each once.
  ghost predicate Possible(s: Session) {
    && (forall name :: name in s.order ==> name in s.generated)
    && (s.metadata.Some? ==> Enumerates(s.order, s.generated.Keys))
  }

  function SessionItems(s: Session): seq<Item>
    requires forall name :: name in s.order ==> name in s.generated
  {
    CertItems(s.generated, s.order) + if s.metadata.Some? then [Meta(s.metadata.value)] else []
  }

  // Stores the certificates in whatever order the runtime walks them; the first failing put (numbers count them) ends
  // it. Once all are stored, what is under an escaped name is the content of a certificate of that escaped name.
  method SaveClusterCertificate(c: string, generated: map<string, string>, putOk: nat -> bool)
      returns (ok: bool, log: seq<Write>, ghost order: seq<string>)
    ensures forall name :: name in order ==> name in generated
    ensures log == Writes(c, CertItems(generated, order))
    ensures ok ==> Enumerates(order, generated.Keys) && |log| == |generated|
    ensures ok ==> Certificates.Saved(LastWritten(CertItems(generated, order)), generated)
    ensures ok <==> forall i: nat :: i < |generated| ==> putOk(i)
    ensures multiset(order) <= multiset(generated.Keys) && |log| <= |generated|
    ensures !ok ==> !putOk(|log|) && forall i: nat :: i < |log| ==> putOk(i)
  {
    hide ToWrite, Enumerates, LastWritten, Certificates.Saved, Keys.Format, Certificates.Escape;
    var rest := generated.Keys;
    log, order := [], [];
    NothingWalked(generated);
    while rest != {}
      invariant rest <= generated.Keys && Enumerates(order, generated.Keys - rest)
      invariant |log| + |rest| == |generated| && forall i: nat :: i < |log| ==> putOk(i)
      invariant forall name :: name in order ==> name in generated
      invariant log == Writes(c, CertItems(generated, order))
      decreases rest
    {
      var name :| name in rest;
      if !putOk(|log|) {
        FewerAtMost(order, generated.Keys - rest, generated.Keys);
        return false, log, order;
      }
      WalkedOneMore(order, generated.Keys, rest, name);
      WritesOneMore(c, generated, order, name);
      log := log + [Write(Keys.Format(Keys.Certificate(c, Certificates.Escape(name))), generated[name])];
      order := order + [name];
      rest := rest - {name};
    }
    assert generated.Keys - rest == generated.Keys;
    AllWrittenIsSaved(generated, order);
    FewerAtMost(order, generated.Keys, generated.Keys);
    ok := true;
  }

  lemma FewerAtMost(order: seq<string>, some: set<string>, all: set<string>)
    requires Enumerates(order, some) && some <= all
    ensures multiset(order) <= multiset(all)
  {
  }

  lemma NothingWalked(generated: map<string, string>)
    ensures Enumerates([], generated.Keys - generated.Keys)
  {
    assert generated.Keys - generated.Keys == {};
  }

  lemma WritesOneMore(c: string, generated: map<string, string>, order: seq<string>, name: string)
    requires name in generated && forall n :: n in order ==> n in generated
    ensures Writes(c, CertItems(generated, order + [name])) == Writes(c, CertItems(generated, order))
         + [Write(Keys.Format(Keys.Certificate(c, Certificates.Escape(name))), generated[name])]
  {
    hide Keys.Format, Certificates.Escape;
  }

  // The metadata is stored last, and exactly when every certificate was.
  method SaveCluster(c: string, metadata: string, generated: map<string, string>, putOk: nat -> bool)
      returns (ok: bool, log: seq<Write>, ghost order: seq<string>)
    ensures forall name :: name in order ==> name in generated
    ensures log == Writes(c, CertItems(generated, order)) + if ok
        then [Write(Keys.Format(Keys.Metadata(c)), metadata)] else []
    ensures ok <==> forall i: nat :: i <= |generated| ==> putOk(i)
    ensures multiset(order) <= multiset(generated.Keys)
    ensures !ok ==> !putOk(|log|) && forall i: nat :: i < |log| ==> putOk(i)
    ensures var s := Session(generated, order, if ok then Some(metadata) else None);
      Possible(s) && log == Writes(c, SessionItems(s))
  {
    hide Keys.Format, CertItems, Enumerates, Certificates.Saved;
    ok, log, order := SaveClusterCertificate(c, generated, putOk);
    if !ok {
      assert CertItems(generated, order) + [] == CertItems(generated, order);
      return;
    }
    ok := putOk(|log|);
    if ok {
      log := log + [Write(Keys.Format(Keys.Metadata(c)), metadata)];
    } else {
      assert CertItems(generated, order) + [] == CertItems(generated, order);
    }
  }

  // ---------- loading the certificates of a cluster ----------

  // What the controller caches of the keys under its cluster: certificates that are not empty.
  function CachedFrom(kvs: seq<Write>): map<string, string> {
    if kvs == [] then map[]
    else
      var rest, kv := CachedFrom(kvs[..|kvs| - 1]), kvs[|kvs| - 1];
      var claim := Keys.IsCertificatesChanged(Keys.SubKeys(kv.path));
      if claim.Claimed? && kv.value != "" then rest[claim.id := kv.value] else rest
  }

  method FullSync(kvs: seq<Write>) returns (certs: map<string, string>)
    requires forall kv :: kv in kvs ==> Keys.IsCertificatesChanged(Keys.SubKeys(kv.path)) != Keys.Panics
    ensures certs == CachedFrom(kvs)
  {
    hide Keys.SubKeys, Keys.IsCertificatesChanged;
    certs := map[];
    for i := 0 to |kvs|
      invariant certs == CachedFrom(kvs[..i])
    {
      assert kvs[..i + 1][..i] == kvs[..i] && kvs[i] in kvs;
      var claim := Keys.IsCertificatesChanged(Keys.SubKeys(kvs[i].path));
      if claim.Claimed? {
        if kvs[i].value == "" {
          continue;
        }
        certs := certs[claim.id := kvs[i].value];
      }
    }
    assert kvs[..|kvs|] == kvs;
  }

  // A stored key-value pair by what its key means.
  datatype Pair = Pair(key: Keys.Key, value: string)

  function Formatted(pairs: seq<Pair>): seq<Write> {
    seq(|pairs|, i requires 0 <= i < |pairs| => Write(Keys.Format(pairs[i].key), pairs[i].value))
  }

  // The keys of one cluster, each once, whose ids are no reserved words.
  ghost predicate KeysOfCluster(pairs: seq<Pair>, c: string) {
    && (forall i :: 0 <= i < |pairs| ==>
        Keys.PlainKey(pairs[i].key) && pairs[i].key.clusterId == c && !Reserved(pairs[i].key))
    && (forall i, j :: 0 <= i < j < |pairs| ==> pairs[i].key != pairs[j].key)
  }

  predicate Reserved(key: Keys.Key) {
    match key
    case Metadata(c) => c == Keys.CERTIFICATES
    case Certificate(_, name) => false
    case _ => key.agentId == Keys.CERTIFICATES
  }

  lemma CachedNext(pairs: seq<Pair>, c: string)
    requires KeysOfCluster(pairs, c) && pairs != []
    ensures var last, before := pairs[|pairs| - 1], CachedFrom(Formatted(pairs[..|pairs| - 1]));
      CachedFrom(Formatted(pairs)) ==
        if last.key.Certificate? && last.value != "" then before[last.key.name := last.value] else before
  {
    hide Keys.SubKeys, Keys.Format, Keys.CERTIFICATES, Keys.SETTINGS, Keys.STATE, Keys.METADATA;
    hide Keys.IsCertificatesChanged, Keys.PlainKey;
    var n := |pairs| - 1;
    assert Formatted(pairs)[..n] == Formatted(pairs[..n]);
    Keys.ClaimedOnceExactlyWhen(pairs[n].key);
  }

  lemma KeysOnce(pairs: seq<Pair>, c: string, value: string)
    requires KeysOfCluster(pairs, c) && pairs != []
    ensures var n := |pairs| - 1;
      && KeysOfCluster(pairs[..n], c) && pairs[n].key.clusterId == c && Pair(pairs[n].key, value) !in pairs[..n]
      && forall p :: p in pairs <==> p in pairs[..n] || p == pairs[n]
  {
    hide Keys.PlainKey, Reserved;
    assert pairs == pairs[..|pairs| - 1] + [pairs[|pairs| - 1]];
  }

  // The controller caches exactly the non-empty certificates among the keys of its cluster.
  lemma {:induction false} CachesTheCertificates(pairs: seq<Pair>, c: string, name: string, value: string)
    requires KeysOfCluster(pairs, c)
    ensures name in CachedFrom(Formatted(pairs)) && CachedFrom(Formatted(pairs))[name] == value
       <==> (value != "" && Pair(Keys.Certificate(c, name), value) in pairs)
  {
    if pairs != [] {
      hide KeysOfCluster, CachedFrom, Formatted;
      var n := |pairs| - 1;
      KeysOnce(pairs, c, value);
      CachesTheCertificates(pairs[..n], c, name, value);
      CachedNext(pairs, c);
    }
  }

  // ---------- what the writes leave in the store ----------

  function StoreOf(log: seq<Write>): map<string, string> {
    if log == [] then map[] else StoreOf(log[..|log| - 1])[log[|log| - 1].path := log[|log| - 1].value]
  }

  // The certificates by escaped name, the last one written winning.
  function LastWritten(items: seq<Item>): map<string, string> {
    if items == [] then map[]
    else
      var last, before := items[|items| - 1], LastWritten(items[..|items| - 1]);
      if last.Cert? then before[Certificates.Escape(last.name) := last.value] else before
  }

  lemma {:induction false} CertIsWritten(items: seq<Item>, name: string, value: string)
    requires Cert(name, value) in items
    ensures Certificates.Escape(name) in LastWritten(items)
  {
    hide Certificates.Escape;
    var n := |items| - 1;
    if items[n] != Cert(name, value) {
      assert Cert(name, value) in items[..n];
      CertIsWritten(items[..n], name, value);
    }
  }

  lemma {:induction false} WrittenName(items: seq<Item>, k: string) returns (name: string)
    requires k in LastWritten(items)
    ensures Cert(name, LastWritten(items)[k]) in items && Certificates.Escape(name) == k
  {
    hide Certificates.Escape;
    var n := |items| - 1;
    if items[n].Cert? && k == Certificates.Escape(items[n].name) {
      name := items[n].name;
    } else {
      name := WrittenName(items[..n], k);
    }
  }

  // Later writes win.
  lemma {:induction false} LastWrittenSplits(items: seq<Item>, more: seq<Item>, k: string)
    ensures At(LastWritten(items + more), k)
         == if k in LastWritten(more) then At(LastWritten(more), k) else At(LastWritten(items), k)
  {
    hide Certificates.Escape;
    if more == [] {
      assert items + more == items;
    } else {
      var n := |more| - 1;
      assert (items + more)[..|items + more| - 1] == items + more[..n];
      LastWrittenSplits(items, more[..n], k);
    }
  }

  // Writing every certificate once leaves what the escaped names stand for in Certificates.
  lemma AllWrittenIsSaved(generated: map<string, string>, order: seq<string>)
    requires (forall name :: name in order ==> name in generated) && Enumerates(order, generated.Keys)
    ensures Certificates.Saved(LastWritten(CertItems(generated, order)), generated)
  {
    hide Certificates.Escape, LastWritten;
    var items := CertItems(generated, order);
    var m := LastWritten(items);
    forall n | n in generated ensures Certificates.Escape(n) in m {
      var i := PlaceIn(order, generated.Keys, n);
      assert items[i] == Cert(n, generated[n]);
      CertIsWritten(items, n, generated[n]);
    }
    forall k | k in m ensures exists n :: n in generated && Certificates.Escape(n) == k && m[k] == generated[n] {
      var n := WrittenName(items, k);
      assert n in generated && m[k] == generated[n];
    }
  }

  // A cluster and names that make segments of a key.
  predicate Nameable(c: string, items: seq<Item>) {
    Keys.Plain(c) && c != Keys.CERTIFICATES && forall item :: item in items && item.Cert? ==> item.name != ""
  }

  lemma WritePath(c: string, name: string)
    requires Keys.Plain(c) && name != ""
    ensures Keys.PlainKey(Keys.Certificate(c, Certificates.Escape(name)))
  {
    Certificates.EscapedHasNoSlash(name);
  }

  function At(m: map<string, string>, k: string): Option<string> {
    if k in m then Some(m[k]) else None
  }

  predicate HasMeta(items: seq<Item>) {
    exists i :: 0 <= i < |items| && items[i].Meta?
  }

  // Under the path of an escaped name the writes leave the last content of that escaped name; the metadata is there
  // once it was written; and they use no other paths.
  lemma {:induction false} WritesAreStored(c: string, items: seq<Item>)
    requires Nameable(c, items)
    ensures var store := StoreOf(Writes(c, items));
      && (forall k :: Keys.Plain(k) ==>
          At(store, Keys.Format(Keys.Certificate(c, k))) == At(LastWritten(items), k))
      && (Keys.Format(Keys.Metadata(c)) in store <==> HasMeta(items))
      && (forall p :: p in store ==>
           p == Keys.Format(Keys.Metadata(c)) || exists k :: Keys.Plain(k) && p == Keys.Format(Keys.Certificate(c, k)))
  {
    hide Keys.Format, Keys.CERTIFICATES, Certificates.Escape, Keys.Plain;
    if items != [] {
      var n := |items| - 1;
      var last, log := items[n], Writes(c, items);
      assert log[..n] == Writes(c, items[..n]) && log[n] == ToWrite(c, last);
      WritesAreStored(c, items[..n]);
      KindsDiffer(c);
      assert HasMeta(items) <==> HasMeta(items[..n]) || last.Meta?;
      if last.Cert? {
        WritePath(c, last.name);
        forall k | Keys.Plain(k) && Keys.Format(Keys.Certificate(c, k)) == log[n].path
          ensures k == Certificates.Escape(last.name)
        {
          Keys.FormatIsInjective(Keys.Certificate(c, k), Keys.Certificate(c, Certificates.Escape(last.name)));
        }
      }
    }
  }

  lemma KindsDiffer(c: string)
    requires Keys.Plain(c)
    ensures forall k :: Keys.Plain(k) ==> Keys.Format(Keys.Certificate(c, k)) != Keys.Format(Keys.Metadata(c))
  {
    hide Keys.Format;
    forall k | Keys.Plain(k) ensures Keys.Format(Keys.Certificate(c, k)) != Keys.Format(Keys.Metadata(c)) {
      if Keys.Format(Keys.Certificate(c, k)) == Keys.Format(Keys.Metadata(c)) {
        Keys.FormatIsInjective(Keys.Certificate(c, k), Keys.Metadata(c));
      }
    }
  }

  // The metadata is stored after the first writes of a session only when they are all of them.
  lemma MetadataComesLast(c: string, s: Session, n: nat)
    requires Possible(s) && Nameable(c, SessionItems(s)) && n <= |SessionItems(s)|
    ensures Keys.Format(Keys.Metadata(c)) in StoreOf(Writes(c, SessionItems(s)[..n])) <==>
        s.metadata.Some? && n == |SessionItems(s)|
  {
    hide Keys.Format, Keys.CERTIFICATES, Enumerates, StoreOf, LastWritten;
    var items := SessionItems(s);
    assert forall item :: item in items[..n] ==> item in items;
    WritesAreStored(c, items[..n]);
    if s.metadata.Some? && n == |items| { assert items[..n][n - 1].Meta?; }
  }

  // ---------- loading what is stored ----------

  function KeyValues(store: map<string, string>, paths: seq<string>): seq<Write>
    requires forall p :: p in paths ==> p in store
  {
    seq(|paths|, i requires 0 <= i < |paths| => Write(paths[i], store[paths[i]]))
  }

  function NonEmpty(certs: map<string, string>): map<string, string> {
    map k | k in certs && certs[k] != "" :: certs[k]
  }

  // What a path under a cluster means, if it is one of the two kinds.
  ghost function KeyAt(c: string, p: string): Keys.Key {
    if exists k :: IsCertificatePath(c, k, p) then
      var k :| IsCertificatePath(c, k, p);
      Keys.Certificate(c, k)
    else Keys.Metadata(c)
  }

  predicate IsCertificatePath(c: string, k: string, p: string) {
    Keys.Plain(k) && p == Keys.Format(Keys.Certificate(c, k))
  }

  ghost function PairsAt(c: string, store: map<string, string>, paths: seq<string>): seq<Pair>
    requires forall p :: p in paths ==> p in store
  {
    seq(|paths|, i requires 0 <= i < |paths| => Pair(KeyAt(c, paths[i]), store[paths[i]]))
  }

  lemma KeyIsAt(c: string, items: seq<Item>, p: string)
    requires Nameable(c, items) && p in StoreOf(Writes(c, items))
    ensures Keys.Format(KeyAt(c, p)) == p && Keys.PlainKey(KeyAt(c, p)) && KeyAt(c, p).clusterId == c
    ensures !Reserved(KeyAt(c, p))
  {
    hide Keys.Format, Keys.CERTIFICATES, StoreOf, Writes, LastWritten;
    WritesAreStored(c, items);
    if p != Keys.Format(Keys.Metadata(c)) {
      var k :| Keys.Plain(k) && p == Keys.Format(Keys.Certificate(c, k));
      assert IsCertificatePath(c, k, p);
    }
  }

  // The keys of the store, in some order.
  ghost predicate Lists(paths: seq<string>, store: map<string, string>) {
    Enumerates(paths, store.Keys) && forall p :: p in paths ==> p in store
  }

  // What the keys of a cluster mean, in whatever order they are listed.
  lemma PairsAreKeys(c: string, items: seq<Item>, paths: seq<string>)
    requires Nameable(c, items) && Lists(paths, StoreOf(Writes(c, items)))
    ensures var store := StoreOf(Writes(c, items)); var pairs := PairsAt(c, store, paths);
      Formatted(pairs) == KeyValues(store, paths) && KeysOfCluster(pairs, c)
  {
    hide Keys.Format, Keys.CERTIFICATES, StoreOf, Writes, LastWritten, Enumerates, KeyAt, Keys.PlainKey, Reserved;
    var store := StoreOf(Writes(c, items));
    var pairs := PairsAt(c, store, paths);
    forall i | 0 <= i < |paths|
      ensures Keys.Format(pairs[i].key) == paths[i] && Keys.PlainKey(pairs[i].key) && pairs[i].key.clusterId == c
      ensures !Reserved(pairs[i].key)
    {
      KeyIsAt(c, items, paths[i]);
    }
    forall i, j | 0 <= i < j < |paths| ensures pairs[i].key != pairs[j].key {
      EnumeratesOnce(paths, store.Keys, i, j);
    }
  }

  lemma EnumeratesOnce(order: seq<string>, ids: set<string>, i: nat, j: nat)
    requires Enumerates(order, ids) && i < j < |order|
    ensures order[i] != order[j]
  {
    CountsTwice(order, i, j);
    assert multiset(ids)[order[i]] <= 1;
  }

  // Loading the keys of a cluster gives its last written certificates that are not empty.
  lemma LoadsWhatIsStored(c: string, items: seq<Item>, paths: seq<string>)
    requires Nameable(c, items) && Lists(paths, StoreOf(Writes(c, items)))
    ensures CachedFrom(KeyValues(StoreOf(Writes(c, items)), paths)) == NonEmpty(LastWritten(items))
  {
    PairsAreKeys(c, items, paths);
    var pairs := PairsAt(c, StoreOf(Writes(c, items)), paths);
    assert forall i :: 0 <= i < |pairs| ==> Keys.PlainKey(pairs[i].key);
    var cached, written := CachedFrom(Formatted(pairs)), LastWritten(items);
    hide Keys.Format, Keys.CERTIFICATES, StoreOf, Writes, LastWritten, CachedFrom, Keys.PlainKey, Reserved;
    forall k, v ensures At(cached, k) == Some(v) <==> At(NonEmpty(written), k) == Some(v) {
      CachesTheCertificates(pairs, c, k, v);
      PairIsStored(c, items, paths, pairs, k, v);
    }
    SameMaps(cached, NonEmpty(written));
  }

  lemma SameMaps(a: map<string, string>, b: map<string, string>)
    requires forall k, v :: At(a, k) == Some(v) <==> At(b, k) == Some(v)
    ensures a == b
  {
    forall k ensures At(a, k) == At(b, k) {
      if k in a { assert At(a, k) == Some(a[k]); }
      if k in b { assert At(b, k) == Some(b[k]); }
    }
    forall k ensures k in a <==> k in b ensures k in a ==> a[k] == b[k] {
      assert At(a, k) == At(b, k);
    }
  }

  lemma PairIsStored(c: string, items: seq<Item>, paths: seq<string>, pairs: seq<Pair>, k: string, v: string)
    requires Nameable(c, items) && Lists(paths, StoreOf(Writes(c, items)))
    requires Formatted(pairs) == KeyValues(StoreOf(Writes(c, items)), paths)
    requires forall i :: 0 <= i < |pairs| ==> Keys.PlainKey(pairs[i].key)
    ensures Pair(Keys.Certificate(c, k), v) in pairs <==> At(LastWritten(items), k) == Some(v)
  {
    var store := StoreOf(Writes(c, items));
    var path := Keys.Format(Keys.Certificate(c, k));
    WritesAreStored(c, items);
    LastWrittenIsPlain(c, items, k);
    hide Keys.Format, Keys.CERTIFICATES, StoreOf, Writes, LastWritten;
    if Pair(Keys.Certificate(c, k), v) in pairs {
      var i :| 0 <= i < |pairs| && pairs[i] == Pair(Keys.Certificate(c, k), v);
      assert Formatted(pairs)[i] == KeyValues(store, paths)[i];
      assert Keys.PlainKey(pairs[i].key);
      assert At(store, path) == Some(v);
    }
    if At(LastWritten(items), k) == Some(v) {
      assert At(store, path) == Some(v);
      assert path in multiset(store.Keys) && path in multiset(paths);
      var i :| 0 <= i < |paths| && paths[i] == path;
      assert Formatted(pairs)[i] == KeyValues(store, paths)[i];
      Keys.FormatIsInjective(pairs[i].key, Keys.Certificate(c, k));
      assert pairs[i] == Pair(Keys.Certificate(c, k), v);
    }
  }

  lemma LastWrittenIsPlain(c: string, items: seq<Item>, k: string)
    requires Nameable(c, items)
    ensures k in LastWritten(items) ==> Keys.Plain(k)
  {
    hide Certificates.Escape, LastWritten, Keys.CERTIFICATES;
    if k in LastWritten(items) {
      var n := WrittenName(items, k);
      WritePath(c, n);
    }
  }

  // ---------- saving, watching and looking up, interleaved ----------

  // The saves of every cluster, failed ones too, one after another.
  type Plan = map<string, seq<Session>>

  // The certificates the controller of a cluster has. It listed the store when this many writes were done; its watch
  // began at another moment, and has delivered what was written since up to a third.
  datatype Copy = Copy(certs: map<string, string>, base: nat, from: nat, seen: nat)

  // The manager on its way to show a cluster.
  datatype Hand =
    | Free
    | Loaded(clusterId: string, certs: map<string, string>, base: nat)   // its certificates are listed
    | Watched(clusterId: string)                                        // its watch has begun

  // How many writes of each cluster are done, what the controllers have, and the clusters the manager shows.
  datatype World = World(done: map<string, nat>, hand: Hand, copies: map<string, Copy>, shown: set<string>)

  datatype Step =
    | Save(clusterId: string)                        // the next write of a cluster reaches the store
    | Load(clusterId: string, paths: seq<string>)    // an event or a full sync makes the manager load a cluster
    | GiveUp                                         // it cannot be registered
    | Listen                                         // its watch begins
    | Show
    | Deliver(clusterId: string)                     // the cluster's own watch delivers the next write

  const NOTHING := World(map[], Free, map[], {})

  ghost predicate AllPossible(plan: Plan) {
    forall c :: c in plan ==> EachPossible(plan[c])
  }

  ghost predicate EachPossible(sessions: seq<Session>) {
    forall i :: 0 <= i < |sessions| ==> Possible(sessions[i])
  }

  ghost function ItemsOf(sessions: seq<Session>): seq<Item>
    requires EachPossible(sessions)
  {
    if sessions == [] then []
    else ItemsOf(sessions[..|sessions| - 1]) + SessionItems(sessions[|sessions| - 1])
  }

  // What is ever written under a cluster.
  ghost function Planned(plan: Plan, c: string): seq<Item>
    requires AllPossible(plan)
  {
    if c in plan then ItemsOf(plan[c]) else []
  }

  function DoneOf(w: World, c: string): nat {
    if c in w.done then w.done[c] else 0
  }

  ghost function Stored(plan: Plan, w: World, c: string): seq<Item>
    requires AllPossible(plan)
  {
    var items := Planned(plan, c);
    if DoneOf(w, c) <= |items| then items[..DoneOf(w, c)] else items
  }

  // The manager may load a cluster whenever its metadata is stored, and lists its keys in any order.
  ghost predicate MayLoad(plan: Plan, w: World, c: string, paths: seq<string>)
    requires AllPossible(plan)
  {
    var store := StoreOf(Writes(c, Stored(plan, w, c)));
    c !in w.copies && w.hand.Free? && Keys.Format(Keys.Metadata(c)) in store && Lists(paths, store)
  }

  // What a write that the watch delivers does to the certificates.
  function Received(certs: map<string, string>, kv: Write): map<string, string> {
    var claim := Keys.IsCertificatesChanged(Keys.SubKeys(kv.path));
    if claim.Claimed? && kv.value != "" then certs[claim.id := kv.value] else certs
  }

  // A step that is not possible changes nothing.
  ghost function Do(plan: Plan, w: World, step: Step): World
    requires AllPossible(plan)
  {
    match step
    case Save(c) =>
      if DoneOf(w, c) < |Planned(plan, c)| then w.(done := w.done[c := DoneOf(w, c) + 1]) else w
    case Load(c, paths) =>
      if MayLoad(plan, w, c, paths) then
        var certs := CachedFrom(KeyValues(StoreOf(Writes(c, Stored(plan, w, c))), paths));
        w.(hand := Loaded(c, certs, DoneOf(w, c)))
      else w
    case GiveUp => if w.hand.Loaded? then w.(hand := Free) else w
    case Listen =>
      if w.hand.Loaded? then
        var now := DoneOf(w, w.hand.clusterId);
        w.(hand := Watched(w.hand.clusterId),
           copies := w.copies[w.hand.clusterId := Copy(w.hand.certs, w.hand.base, now, now)])
      else w
    case Show => if w.hand.Watched? then w.(hand := Free, shown := w.shown + {w.hand.clusterId}) else w
    case Deliver(c) =>
      if c in w.copies && w.copies[c].seen < |Stored(plan, w, c)| then
        var copy := w.copies[c];
        var kv := ToWrite(c, Stored(plan, w, c)[copy.seen]);
        w.(copies := w.copies[c := copy.(certs := Received(copy.certs, kv), seen := copy.seen + 1)])
      else w
  }

  ghost function Run(plan: Plan, w: World, steps: seq<Step>): World
    requires AllPossible(plan)
    decreases |steps|
  {
    if steps == [] then w else Run(plan, Do(plan, w, steps[0]), steps[1..])
  }

  // A cluster whose keys can be told apart.
  ghost predicate Sound(plan: Plan, c: string)
    requires AllPossible(plan)
  {
    Nameable(c, Planned(plan, c))
  }

  // Contents that are not empty take the place of those of their escaped names.
  function Updated(certs: map<string, string>, items: seq<Item>): map<string, string> {
    if items == [] then certs
    else
      var last, before := items[|items| - 1], Updated(certs, items[..|items| - 1]);
      if last.Cert? && last.value != "" then before[Certificates.Escape(last.name) := last.value] else before
  }

  // The copy was made after some metadata was stored, and has what was stored then and written since its watch began.
  ghost predicate CopyOf(items: seq<Item>, done: nat, copy: Copy) {
    && copy.base <= copy.from <= copy.seen <= done <= |items| && HasMeta(items[..copy.base])
    && copy.certs == Updated(NonEmpty(LastWritten(items[..copy.base])), items[copy.from..copy.seen])
  }

  ghost predicate InvAt(plan: Plan, w: World, c: string)
    requires AllPossible(plan)
  {
    var items := Planned(plan, c);
    && DoneOf(w, c) <= |items|
    && (w.hand.Loaded? && w.hand.clusterId == c ==>
        w.hand.base <= DoneOf(w, c) && HasMeta(items[..w.hand.base])
        && w.hand.certs == NonEmpty(LastWritten(items[..w.hand.base])))
    && (c in w.copies ==> CopyOf(items, DoneOf(w, c), w.copies[c]))
    && (c in w.shown || w.hand == Watched(c) ==> c in w.copies)
  }

  lemma LoadKeepsInv(plan: Plan, w: World, step: Step, c: string)
    requires AllPossible(plan) && Sound(plan, c) && InvAt(plan, w, c) && step.Load?
    ensures InvAt(plan, Do(plan, w, step), c)
  {
    hide StoreOf, Writes, LastWritten, CachedFrom, Keys.Format, KeyValues, NonEmpty, HasMeta, CopyOf, Keys.CERTIFICATES;
    if step.clusterId == c && MayLoad(plan, w, c, step.paths) {
      var items := Stored(plan, w, c);
      assert forall item :: item in items ==> item in Planned(plan, c);
      WritesAreStored(c, items);
      LoadsWhatIsStored(c, items, step.paths);
    }
  }

  lemma ReceivedIsUpdate(c: string, certs: map<string, string>, item: Item)
    requires Keys.Plain(c) && c != Keys.CERTIFICATES && (item.Cert? ==> item.name != "")
    ensures Received(certs, ToWrite(c, item))
         == if item.Cert? && item.value != "" then certs[Certificates.Escape(item.name) := item.value] else certs
  {
    hide Keys.Format, Keys.CERTIFICATES, Keys.IsCertificatesChanged, Keys.SubKeys, Certificates.Escape, Keys.PlainKey;
    if item.Cert? {
      WritePath(c, item.name);
      Keys.ClaimedOnceExactlyWhen(Keys.Certificate(c, Certificates.Escape(item.name)));
    } else {
      MetadataIsNoCertificate(c);
    }
  }

  lemma MetadataIsNoCertificate(c: string)
    requires Keys.Plain(c) && c != Keys.CERTIFICATES
    ensures Keys.IsCertificatesChanged(Keys.SubKeys(Keys.Format(Keys.Metadata(c)))) == Keys.Foreign
  {
    hide Keys.Format, Keys.CERTIFICATES, Keys.IsCertificatesChanged, Keys.SubKeys;
    Keys.ClaimedOnceExactlyWhen(Keys.Metadata(c));
  }

  lemma DeliverKeepsInv(plan: Plan, w: World, step: Step, c: string)
    requires AllPossible(plan) && Sound(plan, c) && InvAt(plan, w, c) && step.Deliver?
    ensures InvAt(plan, Do(plan, w, step), c)
  {
    hide LastWritten, NonEmpty, HasMeta, Received, ToWrite, Certificates.Escape, Keys.Plain, Keys.CERTIFICATES;
    var items := Planned(plan, c);
    if step.clusterId == c && c in w.copies && w.copies[c].seen < DoneOf(w, c) {
      var copy := w.copies[c];
      assert items[copy.seen] in items;
      ReceivedIsUpdate(c, copy.certs, items[copy.seen]);
      assert items[copy.from..copy.seen + 1][..copy.seen - copy.from] == items[copy.from..copy.seen];
    }
  }

  lemma StepKeepsInv(plan: Plan, w: World, step: Step, c: string)
    requires AllPossible(plan) && Sound(plan, c) && InvAt(plan, w, c)
    ensures InvAt(plan, Do(plan, w, step), c)
  {
    match step
    case Load(_, _) => hide *; LoadKeepsInv(plan, w, step, c);
    case Deliver(_) => hide *; DeliverKeepsInv(plan, w, step, c);
    case _ => hide StoreOf, Writes, LastWritten, NonEmpty, HasMeta, Planned;
  }

  lemma {:induction false} RunKeepsInv(plan: Plan, w: World, steps: seq<Step>, c: string)
    requires AllPossible(plan) && Sound(plan, c) && InvAt(plan, w, c)
    ensures InvAt(plan, Run(plan, w, steps), c)
    decreases |steps|
  {
    hide Do, InvAt, Sound;
    if steps != [] {
      StepKeepsInv(plan, w, steps[0], c);
      RunKeepsInv(plan, Do(plan, w, steps[0]), steps[1..], c);
    }
  }

  lemma NothingIsInv(plan: Plan, c: string)
    requires AllPossible(plan)
    ensures InvAt(plan, NOTHING, c)
  {
  }

  lemma ReachedCopy(plan: Plan, steps: seq<Step>, c: string)
    requires AllPossible(plan) && Sound(plan, c)
    ensures var w := Run(plan, NOTHING, steps);
      && (c in w.shown ==> c in w.copies)
      && (c in w.copies ==> CopyOf(Planned(plan, c), DoneOf(w, c), w.copies[c]))
  {
    hide Run, Sound, CopyOf;
    NothingIsInv(plan, c);
    RunKeepsInv(plan, NOTHING, steps, c);
  }

  // ---------- what a cluster that is shown has ----------

  // No certificate of this escaped name is ever empty.
  predicate NeverEmpty(items: seq<Item>, k: string) {
    forall item :: item in items && item.Cert? && Certificates.Escape(item.name) == k ==> item.value != ""
  }

  lemma {:induction false} UpdatedAt(certs: map<string, string>, items: seq<Item>, k: string)
    requires NeverEmpty(items, k)
    ensures At(Updated(certs, items), k) == if k in LastWritten(items) then At(LastWritten(items), k) else At(certs, k)
  {
    hide Certificates.Escape;
    if items != [] {
      var n := |items| - 1;
      assert items[n] in items && forall item :: item in items[..n] ==> item in items;
      UpdatedAt(certs, items[..n], k);
    }
  }

  lemma NonEmptyAt(items: seq<Item>, k: string)
    requires NeverEmpty(items, k)
    ensures At(NonEmpty(LastWritten(items)), k) == At(LastWritten(items), k)
  {
    hide Certificates.Escape, LastWritten;
    if k in LastWritten(items) {
      var name := WrittenName(items, k);
      assert Cert(name, LastWritten(items)[k]).Cert?;
    }
  }

  // What a copy has under a name whose contents are never empty: the last content among the writes that its watch
  // delivered, or else the one that was stored when it was loaded.
  lemma CopyHas(items: seq<Item>, done: nat, copy: Copy, k: string)
    requires CopyOf(items, done, copy) && NeverEmpty(items, k)
    ensures var later := LastWritten(items[copy.from..copy.seen]);
      At(copy.certs, k) == if k in later then At(later, k) else At(LastWritten(items[..copy.base]), k)
  {
    hide LastWritten, HasMeta, Updated, Certificates.Escape;
    NonEmptyAt(items[..copy.base], k);
    UpdatedAt(NonEmpty(LastWritten(items[..copy.base])), items[copy.from..copy.seen], k);
  }

  // The certificate that a copy has is the one the store had at the write its watch has reached, exactly when it was
  // written again since the watch began, or the writes between the listing and the watch, which are delivered to
  // nobody, left it as it was.
  lemma ShownAsStoredExactlyWhen(plan: Plan, steps: seq<Step>, c: string, k: string)
    requires AllPossible(plan) && Sound(plan, c) && c in Run(plan, NOTHING, steps).copies
    requires Keys.Plain(k) && NeverEmpty(Planned(plan, c), k)
    ensures var items, copy := Planned(plan, c), Run(plan, NOTHING, steps).copies[c];
      && copy.base <= copy.from <= copy.seen <= |items|
      && (At(copy.certs, k) == At(StoreOf(Writes(c, items[..copy.seen])), Keys.Format(Keys.Certificate(c, k)))
          <==> (k in LastWritten(items[copy.from..copy.seen])
                || At(LastWritten(items[..copy.base]), k) == At(LastWritten(items[..copy.from]), k)))
  {
    hide Run, LastWritten, StoreOf, Writes, Keys.Format, Updated, HasMeta, Keys.CERTIFICATES, Keys.Plain;
    hide NeverEmpty, NonEmpty;
    ReachedCopy(plan, steps, c);
    var items, copy := Planned(plan, c), Run(plan, NOTHING, steps).copies[c];
    CopyHas(items, DoneOf(Run(plan, NOTHING, steps), c), copy, k);
    assert forall item :: item in items[..copy.seen] ==> item in items;
    WritesAreStored(c, items[..copy.seen]);
    assert items[..copy.seen] == items[..copy.from] + items[copy.from..copy.seen];
    LastWrittenSplits(items[..copy.from], items[copy.from..copy.seen], k);
  }

  // A certificate is saved and the cluster loaded; it is saved again before the cluster's watch begins.
  function Renewal(c: string, name: string, was: string, renewed: string): Plan {
    map[c := [Session(map[name := was], [name], Some("")), Session(map[name := renewed], [name], Some(""))]]
  }

  function RenewalSteps(c: string, paths: seq<string>): seq<Step> {
    [Save(c), Save(c), Load(c, paths), Save(c), Save(c), Listen, Show]
  }

  function RenewalItems(name: string, was: string, renewed: string): seq<Item> {
    [Cert(name, was), Meta(""), Cert(name, renewed), Meta("")]
  }

  lemma RenewalIsPlanned(c: string, name: string, was: string, renewed: string)
    ensures var plan := Renewal(c, name, was, renewed);
      AllPossible(plan) && Planned(plan, c) == RenewalItems(name, was, renewed)
  {
    var first, second := Session(map[name := was], [name], Some("")), Session(map[name := renewed], [name], Some(""));
    assert multiset([name]) == multiset({name}) && map[name := was].Keys == map[name := renewed].Keys == {name};
    assert [first, second][..1] == [first] && [first][..0] == [];
    assert SessionItems(first) == [Cert(name, was), Meta("")];
    assert SessionItems(second) == [Cert(name, renewed), Meta("")];
    assert ItemsOf([first]) == ItemsOf([]) + SessionItems(first);
    assert ItemsOf([first, second]) == ItemsOf([first]) + SessionItems(second);
  }

  // The cluster is then shown with the old certificate, and everything its watch will deliver is delivered.
  lemma RenewalIsMissed(c: string, name: string, was: string, renewed: string, paths: seq<string>)
    requires Keys.Plain(c) && c != Keys.CERTIFICATES && name != "" && was != "" && renewed != "" && was != renewed
    requires Lists(paths, StoreOf(Writes(c, [Cert(name, was), Meta("")])))
    ensures var plan, key := Renewal(c, name, was, renewed), Certificates.Escape(name);
      AllPossible(plan) && var w := Run(plan, NOTHING, RenewalSteps(c, paths));
      && c in w.shown && c in w.copies && w.copies[c].seen == |Planned(plan, c)|
      && At(w.copies[c].certs, key) == Some(was)
      && At(StoreOf(Writes(c, Planned(plan, c))), Keys.Format(Keys.Certificate(c, key))) == Some(renewed)
  {
    hide Run, Do, LastWritten, Certificates.Escape, StoreOf, Writes, Keys.Format, Keys.CERTIFICATES, Keys.Plain;
    hide Planned, Renewal, CopyOf, NonEmpty, Updated;
    var plan, key := Renewal(c, name, was, renewed), Certificates.Escape(name);
    var items := RenewalItems(name, was, renewed);
    RenewalIsPlanned(c, name, was, renewed);
    assert items[..2] == [Cert(name, was), Meta("")];
    RenewalRuns(plan, c, items, paths);
    ReachedCopy(plan, RenewalSteps(c, paths), c);
    var w := Run(plan, NOTHING, RenewalSteps(c, paths));
    CopyHas(items, DoneOf(w, c), w.copies[c], key);
    RenewalWrites(name, was, renewed);
    assert items[4..4] == [];
    NothingWritten();
    WritePath(c, name);
    WritesAreStored(c, items);
  }

  lemma NothingWritten()
    ensures LastWritten([]) == map[]
  {
  }

  lemma RenewalWrites(name: string, was: string, renewed: string)
    ensures var items, key := RenewalItems(name, was, renewed), Certificates.Escape(name);
      At(LastWritten(items[..2]), key) == Some(was) && At(LastWritten(items), key) == Some(renewed)
  {
    hide Certificates.Escape;
    var items := RenewalItems(name, was, renewed);
    assert items[..2][..1] == [Cert(name, was)] && items[..2][1] == Meta("");
    assert items[..3][2] == Cert(name, renewed) && items[..4] == items && items[..4][..3] == items[..3];
  }

  lemma RenewalRuns(plan: Plan, c: string, items: seq<Item>, paths: seq<string>)
    requires AllPossible(plan) && Planned(plan, c) == items && |items| == 4 && Nameable(c, items) && items[1].Meta?
    requires Lists(paths, StoreOf(Writes(c, items[..2])))
    ensures var w := Run(plan, NOTHING, RenewalSteps(c, paths));
      && c in w.shown && c in w.copies && DoneOf(w, c) == 4
      && w.copies[c].base == 2 && w.copies[c].from == 4 && w.copies[c].seen == 4
  {
    hide StoreOf, Writes, Keys.Format, Keys.CERTIFICATES, Keys.Plain, Planned, CachedFrom, KeyValues, Lists, Run, Sound;
    var w2 := NOTHING.(done := map[c := 2]);
    SavesTwice(plan, NOTHING, c);
    assert NOTHING.done[c := 2] == map[c := 2];
    var loaded := Do(plan, w2, Load(c, paths));
    assert Stored(plan, w2, c) == items[..2];
    WritesAreStored(c, items[..2]);
    assert items[..2][1].Meta?;
    assert loaded.hand.Loaded? && loaded.hand.clusterId == c && loaded.hand.base == 2 && DoneOf(loaded, c) == 2;
    SavesTwice(plan, loaded, c);
    RenewalInOrder(plan, c, paths);
  }

  lemma SavesTwice(plan: Plan, w: World, c: string)
    requires AllPossible(plan) && DoneOf(w, c) + 2 <= |Planned(plan, c)|
    ensures Do(plan, Do(plan, w, Save(c)), Save(c)) == w.(done := w.done[c := DoneOf(w, c) + 2])
  {
    hide Planned;
  }

  lemma RenewalInOrder(plan: Plan, c: string, paths: seq<string>)
    requires AllPossible(plan)
    ensures var w2 := Do(plan, Do(plan, NOTHING, Save(c)), Save(c));
      var w4 := Do(plan, Do(plan, Do(plan, w2, Load(c, paths)), Save(c)), Save(c));
      Run(plan, NOTHING, RenewalSteps(c, paths)) == Do(plan, Do(plan, w4, Listen), Show)
  {
    hide Do;
    var w2 := Do(plan, Do(plan, NOTHING, Save(c)), Save(c));
    var w4 := Do(plan, Do(plan, Do(plan, w2, Load(c, paths)), Save(c)), Save(c));
    var front, back := [Save(c), Save(c), Load(c, paths)], [Save(c), Save(c), Listen, Show];
    assert RenewalSteps(c, paths) == front + back;
    RunThree(plan, NOTHING, Save(c), Save(c), Load(c, paths), back);
    RunThree(plan, Do(plan, w2, Load(c, paths)), Save(c), Save(c), Listen, [Show]);
    assert [Save(c), Save(c), Listen] + [Show] == back;
    assert Run(plan, Do(plan, w4, Listen), [Show]) == Run(plan, Do(plan, Do(plan, w4, Listen), Show), []);
  }

  lemma RunThree(plan: Plan, w: World, a: Step, b: Step, d: Step, rest: seq<Step>)
    requires AllPossible(plan)
    ensures Run(plan, w, [a, b, d] + rest) == Run(plan, Do(plan, Do(plan, Do(plan, w, a), b), d), rest)
  {
    hide Do;
    assert ([a, b, d] + rest)[1..] == [b, d] + rest && ([b, d] + rest)[1..] == [d] + rest && ([d] + rest)[1..] == rest;
    assert Run(plan, w, [a, b, d] + rest) == Run(plan, Do(plan, w, a), [b, d] + rest);
    assert Run(plan, Do(plan, w, a), [b, d] + rest) == Run(plan, Do(plan, Do(plan, w, a), b), [d] + rest);
  }

  // All writes of this session are among the first so many of the plan.
  ghost predicate EndsBy(sessions: seq<Session>, i: nat, n: nat)
    requires i < |sessions| && EachPossible(sessions)
  {
    sessions[i].metadata.Some? && |ItemsOf(sessions[..i + 1])| <= n
  }

  lemma {:induction false} SessionsSplit(sessions: seq<Session>, i: nat)
    requires EachPossible(sessions) && i <= |sessions|
    ensures |ItemsOf(sessions[..i])| <= |ItemsOf(sessions)|
    ensures ItemsOf(sessions)[..|ItemsOf(sessions[..i])|] == ItemsOf(sessions[..i])
  {
    hide SessionItems, Possible;
    if i == |sessions| {
      assert sessions[..i] == sessions;
    } else {
      var n := |sessions| - 1;
      SessionsSplit(sessions[..n], i);
      assert sessions[..n][..i] == sessions[..i];
    }
  }

  // Metadata among the first writes is that of a session that is over by then.
  lemma {:induction false} MetaEndsSession(sessions: seq<Session>, n: nat) returns (i: nat)
    requires EachPossible(sessions) && n <= |ItemsOf(sessions)| && HasMeta(ItemsOf(sessions)[..n])
    ensures i < |sessions| && EndsBy(sessions, i, n)
  {
    hide Enumerates;
    var last := |sessions| - 1;
    var front := ItemsOf(sessions[..last]);
    var j :| 0 <= j < n && ItemsOf(sessions)[j].Meta?;
    if j < |front| {
      var m := if n <= |front| then n else |front|;
      assert front[..m][j] == ItemsOf(sessions)[j];
      i := MetaEndsSession(sessions[..last], m);
      assert sessions[..last][..i + 1] == sessions[..i + 1];
    } else {
      i := last;
      assert sessions[..i + 1] == sessions;
      assert SessionItems(sessions[last])[j - |front|].Meta?;
    }
  }

  lemma PlaceIn(order: seq<string>, ids: set<string>, name: string) returns (j: nat)
    requires Enumerates(order, ids) && name in ids
    ensures j < |order| && order[j] == name
  {
    assert name in multiset(ids) && name in multiset(order);
    j :| 0 <= j < |order| && order[j] == name;
  }

  lemma SessionGives(sessions: seq<Session>, name: string)
    requires sessions != [] && EachPossible(sessions)
    requires sessions[|sessions| - 1].metadata.Some? && name in sessions[|sessions| - 1].generated
    ensures Cert(name, sessions[|sessions| - 1].generated[name]) in ItemsOf(sessions)
  {
    hide Enumerates;
    var s := sessions[|sessions| - 1];
    assert Possible(s);
    var j := PlaceIn(s.order, s.generated.Keys, name);
    assert SessionItems(s)[j] == Cert(name, s.generated[name]);
  }

  // Every certificate of a session that is over has been written.
  lemma SessionIsWritten(sessions: seq<Session>, i: nat, n: nat, name: string)
    requires EachPossible(sessions) && i < |sessions| && EndsBy(sessions, i, n)
    requires n <= |ItemsOf(sessions)| && name in sessions[i].generated
    ensures Certificates.Escape(name) in LastWritten(ItemsOf(sessions)[..n])
  {
    hide LastWritten, Certificates.Escape, ItemsOf, Possible;
    var item := Cert(name, sessions[i].generated[name]);
    SessionsSplit(sessions, i + 1);
    SessionGives(sessions[..i + 1], name);
    assert item in ItemsOf(sessions)[..|ItemsOf(sessions[..i + 1])|];
    assert item in ItemsOf(sessions)[..n];
    CertIsWritten(ItemsOf(sessions)[..n], name, sessions[i].generated[name]);
  }

  // Publish last: in every interleaving of the writes of any number of saves, failed and repeated ones too, with the
  // manager's steps, a cluster that the manager shows was saved completely before its certificates were loaded,
  // however early the manager noticed it; every certificate of that save is there unless an empty one took its place,
  // and nothing is there that was not generated for it.
  lemma PublishedLast(plan: Plan, steps: seq<Step>, c: string) returns (i: nat)
    requires AllPossible(plan) && Sound(plan, c) && c in Run(plan, NOTHING, steps).shown
    ensures c in Run(plan, NOTHING, steps).copies
    ensures var copy := Run(plan, NOTHING, steps).copies[c];
      && c in plan && i < |plan[c]| && EndsBy(plan[c], i, copy.base)
      && (forall name :: name in plan[c][i].generated && NeverEmpty(Planned(plan, c), Certificates.Escape(name)) ==>
          Certificates.Escape(name) in copy.certs)
      && Generated(copy.certs, Planned(plan, c))
  {
    hide Run, LastWritten, Certificates.Escape, Updated, NonEmpty, EndsBy, NeverEmpty, Generated, Keys.CERTIFICATES;
    ReachedCopy(plan, steps, c);
    var items, copy := Planned(plan, c), Run(plan, NOTHING, steps).copies[c];
    i := MetaEndsSession(plan[c], copy.base);
    forall name | name in plan[c][i].generated && NeverEmpty(items, Certificates.Escape(name))
      ensures Certificates.Escape(name) in copy.certs
    {
      SessionIsWritten(plan[c], i, copy.base, name);
      CopyHas(items, DoneOf(Run(plan, NOTHING, steps), c), copy, Certificates.Escape(name));
    }
    CopyIsGenerated(items, DoneOf(Run(plan, NOTHING, steps), c), copy);
  }

  // Every content is one of those generated for its escaped name.
  ghost predicate Generated(certs: map<string, string>, items: seq<Item>) {
    forall k :: k in certs ==>
      certs[k] != "" && exists name :: Cert(name, certs[k]) in items && Certificates.Escape(name) == k
  }

  lemma CopyIsGenerated(items: seq<Item>, done: nat, copy: Copy)
    requires CopyOf(items, done, copy)
    ensures Generated(copy.certs, items)
  {
    hide LastWritten, Certificates.Escape, Updated, HasMeta;
    var first := NonEmpty(LastWritten(items[..copy.base]));
    forall k | k in first ensures exists name :: Cert(name, first[k]) in items && Certificates.Escape(name) == k {
      var name := WrittenName(items[..copy.base], k);
      assert Cert(name, first[k]) in items;
    }
    UpdatedIsGenerated(first, items[copy.from..copy.seen], items);
  }

  lemma {:induction false} UpdatedIsGenerated(certs: map<string, string>, more: seq<Item>, items: seq<Item>)
    requires Generated(certs, items) && forall item :: item in more ==> item in items
    ensures Generated(Updated(certs, more), items)
  {
    hide Certificates.Escape;
    if more != [] {
      var n := |more| - 1;
      assert forall item :: item in more[..n] ==> item in more;
      UpdatedIsGenerated(certs, more[..n], items);
      var last, before, after := more[n], Updated(certs, more[..n]), Updated(certs, more);
      assert last in items;
      forall k | k in after
        ensures after[k] != "" && exists name :: Cert(name, after[k]) in items && Certificates.Escape(name) == k
      {
        if last.Cert? && last.value != "" && k == Certificates.Escape(last.name) {
          assert Cert(last.name, after[k]) in items;
        } else {
          assert after[k] == before[k];
        }
      }
    }
  }

  // ---------- a cluster that is saved completely once ----------

  // Only the last save may succeed, and it generates every name that the failed ones did.
  ghost predicate SavedOnce(sessions: seq<Session>) {
    && sessions != []
    && (forall i :: 0 <= i < |sessions| - 1 ==> sessions[i].metadata.None?)
    && (forall i, name :: 0 <= i < |sessions| - 1 && name in sessions[i].generated ==>
         name in sessions[|sessions| - 1].generated)
  }

  lemma {:induction false} ItemsAreGenerated(sessions: seq<Session>, name: string, value: string)
    requires EachPossible(sessions) && Cert(name, value) in ItemsOf(sessions)
    ensures exists i :: 0 <= i < |sessions| && name in sessions[i].generated
  {
    var n := |sessions| - 1;
    if Cert(name, value) in ItemsOf(sessions[..n]) {
      ItemsAreGenerated(sessions[..n], name, value);
      var i :| 0 <= i < n && name in sessions[..n][i].generated;
      assert name in sessions[i].generated;
    } else {
      assert Cert(name, value) in SessionItems(sessions[n]);
      assert name in sessions[n].generated;
    }
  }

  // The last save takes the place of whatever the failed ones left.
  lemma LastSaveWins(sessions: seq<Session>)
    requires EachPossible(sessions) && SavedOnce(sessions)
    requires sessions[|sessions| - 1].metadata.Some?
    ensures var last := sessions[|sessions| - 1];
      && Possible(last) && LastWritten(ItemsOf(sessions)) == LastWritten(CertItems(last.generated, last.order))
  {
    hide LastWritten, Certificates.Escape, Enumerates;
    var n := |sessions| - 1;
    var last, front := sessions[n], ItemsOf(sessions[..n]);
    assert Possible(last);
    var certs := CertItems(last.generated, last.order);
    MetaIsNoCertificate(certs, last.metadata.value);
    AllWrittenIsSaved(last.generated, last.order);
    forall k, v
      ensures At(LastWritten(ItemsOf(sessions)), k) == Some(v) <==> At(LastWritten(certs), k) == Some(v)
    {
      LastWrittenSplits(front, SessionItems(last), k);
      if k in LastWritten(front) {
        var name := WrittenName(front, k);
        ItemsAreGenerated(sessions[..n], name, LastWritten(front)[k]);
        var i :| 0 <= i < n && name in sessions[..n][i].generated;
        assert name in last.generated && k in LastWritten(certs);
      }
    }
    SameMaps(LastWritten(ItemsOf(sessions)), LastWritten(certs));
  }

  lemma MetaIsNoCertificate(certs: seq<Item>, metadata: string)
    ensures LastWritten(certs + [Meta(metadata)]) == LastWritten(certs)
  {
    hide Certificates.Escape;
    assert (certs + [Meta(metadata)])[..|certs|] == certs;
  }

  lemma NonEmptyIsSaved(stored: map<string, string>, certs: map<string, string>)
    requires Certificates.Saved(stored, certs) && Certificates.Survive(certs)
    ensures Certificates.Saved(NonEmpty(stored), NonEmpty(certs))
  {
    hide Certificates.Escape;
    forall n | n in NonEmpty(certs) ensures Certificates.Escape(n) in NonEmpty(stored) {
      var k := Certificates.Escape(n);
      var m :| m in certs && Certificates.Escape(m) == k && stored[k] == certs[m];
      Certificates.UnescapeUndoesEscapeExactlyWhen(m);
      Certificates.UnescapeUndoesEscapeExactlyWhen(n);
    }
    forall k | k in NonEmpty(stored)
      ensures exists n ::
        n in NonEmpty(certs) && Certificates.Escape(n) == k && NonEmpty(stored)[k] == NonEmpty(certs)[n]
    {
      var n :| n in certs && Certificates.Escape(n) == k && stored[k] == certs[n];
      assert n in NonEmpty(certs);
    }
  }

  // A cluster that is saved completely once, after any number of failed attempts, is shown with exactly its non-empty
  // generated certificates, and only when all its writes are done.
  lemma ShownOnceSaved(plan: Plan, steps: seq<Step>, c: string)
    requires AllPossible(plan) && Sound(plan, c) && c in plan && SavedOnce(plan[c])
    requires Certificates.Survive(plan[c][|plan[c]| - 1].generated) && c in Run(plan, NOTHING, steps).shown
    ensures c in Run(plan, NOTHING, steps).copies
    ensures DoneOf(Run(plan, NOTHING, steps), c) == |Planned(plan, c)|
    ensures Certificates.Saved(Run(plan, NOTHING, steps).copies[c].certs,
                               NonEmpty(plan[c][|plan[c]| - 1].generated))
  {
    hide Run, LastWritten, Certificates.Escape, NonEmpty, Certificates.Saved, Certificates.Survive, Keys.CERTIFICATES;
    ReachedCopy(plan, steps, c);
    var items, copy, last := Planned(plan, c), Run(plan, NOTHING, steps).copies[c], plan[c][|plan[c]| - 1];
    var i := MetaEndsSession(plan[c], copy.base);
    assert i == |plan[c]| - 1;
    assert plan[c][..i + 1] == plan[c];
    assert items[..copy.base] == items && items[copy.from..copy.seen] == [];
    LastSaveWins(plan[c]);
    AllWrittenIsSaved(last.generated, last.order);
    NonEmptyIsSaved(LastWritten(items), last.generated);
  }

  // So every certificate of a cluster that is shown can be looked up by its name in any letter case.
  lemma ShownClusterAnswers(plan: Plan, steps: seq<Step>, c: string, order: seq<string>, name: string, asked: string)
    requires AllPossible(plan) && Sound(plan, c) && c in plan && SavedOnce(plan[c])
    requires var last, w := plan[c][|plan[c]| - 1].generated, Run(plan, NOTHING, steps);
      && Certificates.Survive(last) && Certificates.Distinct(NonEmpty(last)) && c in w.shown && c in w.copies
      && Lists(order, w.copies[c].certs) && name in NonEmpty(last) && Certificates.SameName(name, asked)
    ensures Certificates.Find(Certificates.Listing(Run(plan, NOTHING, steps).copies[c].certs, order), asked)
        == plan[c][|plan[c]| - 1].generated[name]
  {
    hide Run, Certificates.Saved, Certificates.Listing, Certificates.SameName, Enumerates, Sound;
    ShownOnceSaved(plan, steps, c);
    var certs := Run(plan, NOTHING, steps).copies[c].certs;
    Certificates.RoundTrip(NonEmpty(plan[c][|plan[c]| - 1].generated), certs, order, name, asked);
  }

  // Every write of a plan takes place in its turn, whatever comes between.
  lemma {:induction false} SavesTakePlace(plan: Plan, w: World, steps: seq<Step>, c: string)
    requires AllPossible(plan) && DoneOf(w, c) + Saves(steps, c) <= |Planned(plan, c)|
    ensures DoneOf(Run(plan, w, steps), c) == DoneOf(w, c) + Saves(steps, c)
    decreases |steps|
  {
    hide Planned, MayLoad, StoreOf, CachedFrom, Stored, KeyValues;
    if steps != [] {
      SavesTakePlace(plan, Do(plan, w, steps[0]), steps[1..], c);
    }
  }

  function Saves(steps: seq<Step>, c: string): nat {
    if steps == [] then 0 else (if steps[0] == Save(c) then 1 else 0) + Saves(steps[1..], c)
  }
}

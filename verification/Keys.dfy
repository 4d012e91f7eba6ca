/**
  The keys of the store: how they are formatted (pkg/common/common.go, pkg/managers/cluster_mgmt.go), split
  into segments and claimed by the classifiers of the watch loops (pkg/cache/cluster_manager.go).
 */
module Keys {
  import Text

  const ROOT := "lightning-monkey"
  const CLUSTERS := "clusters"
  const AGENTS := "agents"
  const CERTIFICATES := "certificates"
  const SETTINGS := "settings"
  const STATE := "state"
  const METADATA := "metadata"

  datatype Key =
    | Settings(clusterId: string, agentId: string)
    | State(clusterId: string, agentId: string)
    | Metadata(clusterId: string)
    | Certificate(clusterId: string, name: string)

  function Segments(key: Key): seq<string> {
    match key
    case Settings(c, a) => [ROOT, CLUSTERS, c, AGENTS, a, SETTINGS]
    case State(c, a) => [ROOT, CLUSTERS, c, AGENTS, a, STATE]
    case Metadata(c) => [ROOT, CLUSTERS, c, METADATA]
    case Certificate(c, name) => [ROOT, CLUSTERS, c, CERTIFICATES, name]
  }

  function Format(key: Key): string {
    ['/'] + Text.Join(Segments(key), '/')
  }

  // The segments of a key as the watch loops read them.
  function SubKeys(path: string): seq<string> {
    Text.Fields(path, '/')
  }

  // A segment that survives formatting and splitting.
  predicate Plain(s: string) {
    s != "" && '/' !in s
  }

  predicate PlainKey(key: Key) {
    && Plain(key.clusterId)
    && match key case Metadata(_) => true case Certificate(_, name) => Plain(name) case _ => Plain(key.agentId)
  }

  // ---------- the classifiers ----------

  // What a classifier answers; it panics when it indexes past the segments.
  datatype Claim = Panics | Foreign | Claimed(id: string)

  function IsAgentChanged(s: seq<string>): Claim {
    if |s| < 1 then Panics
    else if s[0] != ROOT then Foreign
    else if |s| < 2 then Panics
    else if s[1] != CLUSTERS then Foreign
    else if |s| < 4 then Panics
    else if s[3] != AGENTS then Foreign
    else if s[|s| - 1] == SETTINGS || s[|s| - 1] == STATE then Claimed(s[|s| - 2])
    else Foreign
  }

  function IsAgentSettingsChanged(s: seq<string>): Claim {
    if |s| < 1 then Panics
    else if s[0] != ROOT then Foreign
    else if |s| < 2 then Panics
    else if s[1] != CLUSTERS then Foreign
    else if |s| < 4 then Panics
    else if s[3] != AGENTS then Foreign
    else if s[|s| - 1] == SETTINGS then Claimed(s[|s| - 2])
    else Foreign
  }

  function IsClusterChanged(s: seq<string>): Claim {
    if |s| < 1 then Panics
    else if s[0] != ROOT then Foreign
    else if |s| < 2 then Panics
    else if s[1] != CLUSTERS then Foreign
    else if s[|s| - 1] == METADATA then Claimed(s[|s| - 2])
    else Foreign
  }

  function IsCertificatesChanged(s: seq<string>): Claim {
    if |s| < 1 then Panics
    else if s[0] != ROOT then Foreign
    else if |s| < 2 then Panics
    else if s[1] != CLUSTERS then Foreign
    else if s[|s| - 2] == CERTIFICATES then Claimed(s[|s| - 1])
    else Foreign
  }

  // ---------- formatting, splitting and classifying ----------

  lemma WordsArePlain()
    ensures Plain(ROOT) && Plain(CLUSTERS) && Plain(AGENTS) && Plain(CERTIFICATES) && Plain(SETTINGS) && Plain(STATE)
    ensures Plain(METADATA)
  {
  }

  lemma WordsDiffer()
    ensures SETTINGS != STATE && SETTINGS != METADATA && STATE != METADATA && AGENTS != METADATA
    ensures AGENTS != CERTIFICATES
    ensures SETTINGS != CERTIFICATES && STATE != CERTIFICATES && CERTIFICATES != METADATA && CLUSTERS != CERTIFICATES
  {
    assert SETTINGS[1] != STATE[1] && SETTINGS[0] != METADATA[0] && STATE[0] != METADATA[0] && AGENTS[0] != METADATA[0];
    assert AGENTS[0] != CERTIFICATES[0] && SETTINGS[0] != CERTIFICATES[0] && STATE[0] != CERTIFICATES[0];
    assert CERTIFICATES[0] != METADATA[0] && CLUSTERS[1] != CERTIFICATES[1];
  }

  // A formatted key splits back into its segments exactly when its ids are non-empty and free of slashes.
  lemma SplitsBackExactlyWhen(key: Key)
    ensures SubKeys(Format(key)) == Segments(key) <==> PlainKey(key)
  {
    hide ROOT, CLUSTERS, AGENTS, CERTIFICATES, SETTINGS, STATE, METADATA, Text.Fields, Text.Join;
    var segments := Segments(key);
    WordsArePlain();
    Text.FieldsUndoPath(segments, '/');
    assert (forall p :: p in segments ==> Plain(p)) <==> PlainKey(key) by {
      assert segments[2] == key.clusterId;
      match key
      case Metadata(_) =>
      case Certificate(_, name) => assert segments[4] == name;
      case _ => assert segments[4] == key.agentId;
    }
    assert (forall p :: p in segments ==> Plain(p)) <==> forall p :: p in segments ==> p != "" && '/' !in p;
  }

  lemma WordsAsText()
    ensures "/lightning-monkey/clusters/" == ['/'] + ROOT + ['/'] + CLUSTERS + ['/']
    ensures "/agents/" == ['/'] + AGENTS + ['/'] && "/certificates/" == ['/'] + CERTIFICATES + ['/']
    ensures "/settings" == ['/'] + SETTINGS && "/state" == ['/'] + STATE && "/metadata" == ['/'] + METADATA
  {
  }

  // Five segments after the first slash, of which the first two and the fourth are words.
  lemma FivePath(front: string, mid: string, r: string, k: string, c: string, g: string, a: string)
    requires front == ['/'] + r + ['/'] + k + ['/'] && mid == ['/'] + g + ['/']
    ensures ['/'] + Text.Join([r, k, c, g, a], '/') == front + c + mid + a
  {
    assert Text.Join([r], '/') == r;
    hide Text.Join;
    JoinLast([r], k);
    JoinLast([r, k], c);
    JoinLast([r, k, c], g);
    JoinLast([r, k, c, g], a);
    assert [r] + [k] == [r, k] && [r, k] + [c] == [r, k, c] && [r, k, c] + [g] == [r, k, c, g];
    assert [r, k, c, g] + [a] == [r, k, c, g, a];
  }

  lemma SixPath(front: string, mid: string, end: string, r: string, k: string, c: string, g: string, a: string,
                x: string)
    requires front == ['/'] + r + ['/'] + k + ['/'] && mid == ['/'] + g + ['/'] && end == ['/'] + x
    ensures ['/'] + Text.Join([r, k, c, g, a, x], '/') == front + c + mid + a + end
  {
    hide Text.Join;
    FivePath(front, mid, r, k, c, g, a);
    JoinLast([r, k, c, g, a], x);
    assert [r, k, c, g, a] + [x] == [r, k, c, g, a, x];
  }

  lemma FourPath(front: string, end: string, r: string, k: string, c: string, x: string)
    requires front == ['/'] + r + ['/'] + k + ['/'] && end == ['/'] + x
    ensures ['/'] + Text.Join([r, k, c, x], '/') == front + c + end
  {
    assert Text.Join([r], '/') == r;
    hide Text.Join;
    JoinLast([r], k);
    JoinLast([r, k], c);
    JoinLast([r, k, c], x);
    assert [r] + [k] == [r, k] && [r, k] + [c] == [r, k, c] && [r, k, c] + [x] == [r, k, c, x];
  }

  // The paths under which the store keeps agents, clusters and certificates.
  lemma PathsAre(c: string, a: string)
    ensures Format(Settings(c, a)) == "/lightning-monkey/clusters/" + c + "/agents/" + a + "/settings"
    ensures Format(State(c, a)) == "/lightning-monkey/clusters/" + c + "/agents/" + a + "/state"
    ensures Format(Metadata(c)) == "/lightning-monkey/clusters/" + c + "/metadata"
    ensures Format(Certificate(c, a)) == "/lightning-monkey/clusters/" + c + "/certificates/" + a
  {
    hide ROOT, CLUSTERS, AGENTS, CERTIFICATES, SETTINGS, STATE, METADATA, Text.Join;
    WordsAsText();
    var front := "/lightning-monkey/clusters/";
    SixPath(front, "/agents/", "/settings", ROOT, CLUSTERS, c, AGENTS, a, SETTINGS);
    SixPath(front, "/agents/", "/state", ROOT, CLUSTERS, c, AGENTS, a, STATE);
    FourPath(front, "/metadata", ROOT, CLUSTERS, c, METADATA);
    FivePath(front, "/certificates/", ROOT, CLUSTERS, c, CERTIFICATES, a);
  }

  // Different keys are different paths.
  lemma FormatIsInjective(a: Key, b: Key)
    requires PlainKey(a) && PlainKey(b) && Format(a) == Format(b)
    ensures a == b
  {
    hide ROOT, CLUSTERS, AGENTS, CERTIFICATES, SETTINGS, STATE, METADATA, Format, SubKeys;
    SplitsBackExactlyWhen(a);
    SplitsBackExactlyWhen(b);
    WordsDiffer();
    var s, t := Segments(a), Segments(b);
    assert s == t && s[2] == a.clusterId && t[2] == b.clusterId;
    assert |s| == 5 ==> s[4] == t[4];
    assert |s| == 6 ==> s[4] == t[4] && s[5] == t[5];
  }

  // The classifier of its own kind reads the id back from every plain key, and another kind's classifier
  // claims the key too exactly when an id is the reserved word certificates or a name is metadata; none of them panics.
  lemma ClaimedOnceExactlyWhen(key: Key)
    requires PlainKey(key)
    ensures var s := SubKeys(Format(key));
      && IsAgentChanged(s) == (if key.Settings? || key.State? then Claimed(key.agentId) else Foreign)
      && IsAgentSettingsChanged(s) == (if key.Settings? then Claimed(key.agentId) else Foreign)
      && (key.Metadata? ==> IsClusterChanged(s) == Claimed(key.clusterId))
      && (key.Certificate? ==> IsCertificatesChanged(s) == Claimed(key.name))
      && (!key.Metadata? ==>
          IsClusterChanged(s) == if key.Certificate? && key.name == METADATA then Claimed(CERTIFICATES) else Foreign)
      && (!key.Certificate? ==> IsCertificatesChanged(s) == match key
            case Metadata(c) => if c == CERTIFICATES then Claimed(METADATA) else Foreign
            case Settings(_, a) => if a == CERTIFICATES then Claimed(SETTINGS) else Foreign
            case _ => if key.agentId == CERTIFICATES then Claimed(STATE) else Foreign)
  {
    hide ROOT, CLUSTERS, AGENTS, CERTIFICATES, SETTINGS, STATE, METADATA, Format, SubKeys;
    SplitsBackExactlyWhen(key);
    WordsDiffer();
  }

  // The agent classifier gives an agent key's own id back exactly when that id is non-empty and free of slashes.
  lemma AgentIdReadBackExactlyWhen(c: string, a: string)
    requires Plain(c)
    ensures IsAgentChanged(SubKeys(Format(Settings(c, a)))) == Claimed(a) <==> Plain(a)
  {
    hide ROOT, CLUSTERS, AGENTS, CERTIFICATES, SETTINGS, STATE, METADATA, Format, Text.Fields;
    var s := SubKeys(Format(Settings(c, a)));
    FieldsArePlain(Format(Settings(c, a)));
    if Plain(a) {
      ClaimedOnceExactlyWhen(Settings(c, a));
    }
    assert IsAgentChanged(s).Claimed? ==> IsAgentChanged(s).id in s;
  }

  lemma FieldsArePlain(path: string)
    ensures forall p :: p in SubKeys(path) ==> Plain(p)
  {
    Text.FieldsArePlain(path, '/', "");
  }

  // For one agent the settings key sorts before the state key.
  lemma SettingsBeforeState(c: string, a: string)
    ensures Text.Less(Format(Settings(c, a)), Format(State(c, a)))
  {
    hide ROOT, CLUSTERS, AGENTS;
    var front := [ROOT, CLUSTERS, c, AGENTS, a];
    var prefix := ['/'] + Text.Join(front, '/') + ['/'];
    JoinLast(front, SETTINGS);
    JoinLast(front, STATE);
    assert Segments(Settings(c, a)) == front + [SETTINGS] && Segments(State(c, a)) == front + [STATE];
    assert Format(Settings(c, a)) == prefix + SETTINGS && Format(State(c, a)) == prefix + STATE;
    assert Text.Less(SETTINGS, STATE) by {
      assert SETTINGS[1..][0] == 'e' && STATE[1..][0] == 't';
    }
    Text.LessAfterPrefix(prefix, SETTINGS, STATE);
  }

  lemma {:induction false} JoinLast(front: seq<string>, last: string)
    requires front != []
    ensures Text.Join(front + [last], '/') == Text.Join(front, '/') + ['/'] + last
  {
    if |front| == 1 {
      assert front + [last] == [front[0], last] && [front[0], last][1..] == [last];
    } else {
      assert (front + [last])[1..] == front[1..] + [last];
      JoinLast(front[1..], last);
    }
  }
}

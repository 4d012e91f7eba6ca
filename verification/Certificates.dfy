/**
  Certificates of a cluster: their names are escaped into store keys (pkg/managers/cluster_mgmt.go), unescaped
  when the cached ones are listed (pkg/cache/cluster_controller.go), and looked up in any letter case
  (pkg/entities/cluster.go).
 */
module Certificates {
  import opened Entities
  import opened Caching
  import Text

  datatype KeyPair = KeyPair(name: string, value: string)

  function Escape(name: string): string {
    Text.ReplaceAll(name, '/', '_')
  }

  function Unescape(name: string): string {
    Text.ReplaceAll(name, '_', '/')
  }

  // A name survives the store exactly when it has no underscore.
  lemma UnescapeUndoesEscapeExactlyWhen(name: string)
    ensures Unescape(Escape(name)) == name <==> '_' !in name
  {
    var back := Unescape(Escape(name));
    forall i | 0 <= i < |name| ensures back[i] == if name[i] == '_' then '/' else name[i] {
      assert Escape(name)[i] == if name[i] == '/' then '_' else name[i];
    }
    if '_' in name {
      var i :| 0 <= i < |name| && name[i] == '_';
      assert back[i] != name[i];
    }
  }

  // An escaped name is one segment of a key.
  lemma EscapedHasNoSlash(name: string)
    ensures '/' !in Escape(name) && (Escape(name) == "" <==> name == "")
  {
  }

  // ---------- saving, listing, looking up ----------

  // What is stored under each escaped name is the content of some certificate of that escaped name.
  ghost predicate Saved(stored: map<string, string>, certs: map<string, string>) {
    && (forall n :: n in certs ==> Escape(n) in stored)
    && (forall k :: k in stored ==> exists n :: n in certs && Escape(n) == k && stored[k] == certs[n])
  }

  // The collection of the cached certificates when the runtime walks them in this order.
  function Listing(stored: map<string, string>, order: seq<string>): seq<KeyPair>
    requires forall k :: k in order ==> k in stored
  {
    seq(|order|, i requires 0 <= i < |order| => KeyPair(Unescape(order[i]), stored[order[i]]))
  }

  ghost predicate ListedInSomeOrder(stored: map<string, string>, collection: seq<KeyPair>) {
    exists order ::
      Enumerates(order, stored.Keys) && (forall k :: k in order ==> k in stored) && collection == Listing(stored, order)
  }

  method GetCertificates(stored: map<string, string>) returns (collection: seq<KeyPair>)
    ensures ListedInSomeOrder(stored, collection)
  {
    var rest := stored.Keys;
    ghost var order := [];
    collection := [];
    while rest != {}
      invariant rest <= stored.Keys && Enumerates(order, stored.Keys - rest)
      invariant forall k :: k in order ==> k in stored
      invariant collection == Listing(stored, order)
      decreases rest
    {
      var k :| k in rest;
      WalkedOneMore(order, stored.Keys, rest, k);
      collection := collection + [KeyPair(Unescape(k), stored[k])];
      assert Listing(stored, order + [k]) == Listing(stored, order) + [KeyPair(Unescape(k), stored[k])];
      order := order + [k];
      rest := rest - {k};
    }
    assert stored.Keys - rest == stored.Keys;
  }

  predicate SameName(a: string, b: string) {
    Text.ToLower(a) == Text.ToLower(b)
  }

  // Names are the same when they differ in the case of letters only.
  lemma SameNameExactlyWhen(a: string, b: string)
    ensures SameName(a, b) <==> |a| == |b| && forall i :: 0 <= i < |a| ==> Text.SameLetter(a[i], b[i])
  {
    Text.SameLettersExactlyWhen(a, b);
  }

  // The value of the first certificate of that name in any letter case, or nothing.
  method GetCertificateContent(collection: seq<KeyPair>, name: string) returns (content: string)
    ensures content == Find(collection, name)
  {
    for i := 0 to |collection|
      invariant Find(collection, name) == Find(collection[i..], name)
    {
      if SameName(collection[i].name, name) {
        return collection[i].value;
      }
      assert collection[i..][1..] == collection[i + 1..];
    }
    return "";
  }

  function Find(collection: seq<KeyPair>, name: string): string {
    if collection == [] then ""
    else if SameName(collection[0].name, name) then collection[0].value
    else Find(collection[1..], name)
  }

  // The first of that name is found; without one the answer is empty.
  lemma {:induction false} FindsTheFirst(collection: seq<KeyPair>, name: string, i: nat)
    requires i <= |collection| && forall j :: 0 <= j < i ==> !SameName(collection[j].name, name)
    requires i < |collection| ==> SameName(collection[i].name, name)
    ensures Find(collection, name) == if i < |collection| then collection[i].value else ""
  {
    hide SameName;
    if i > 0 {
      FindsTheFirst(collection[1..], name, i - 1);
    }
  }

  lemma {:induction false} FindsTheOne(collection: seq<KeyPair>, name: string, value: string)
    requires exists i :: 0 <= i < |collection| && SameName(collection[i].name, name)
    requires forall i :: 0 <= i < |collection| && SameName(collection[i].name, name) ==> collection[i].value == value
    ensures Find(collection, name) == value
  {
    if !SameName(collection[0].name, name) {
      var i :| 0 <= i < |collection| && SameName(collection[i].name, name);
      assert collection[1..][i - 1] == collection[i];
      FindsTheOne(collection[1..], name, value);
    }
  }

  // No two certificates that differ in content differ in letter case only.
  ghost predicate Distinct(certs: map<string, string>) {
    forall m, n :: m in certs && n in certs && SameName(m, n) ==> certs[m] == certs[n]
  }

  ghost predicate Survive(certs: map<string, string>) {
    forall name :: name in certs ==> '_' !in name
  }

  // Every certificate is found by its own name in any letter case.
  ghost predicate AllFound(collection: seq<KeyPair>, certs: map<string, string>) {
    forall name, asked :: name in certs && SameName(name, asked) ==> Find(collection, asked) == certs[name]
  }

  // Saving, listing in any order and looking up by name in any letter case returns every content
  // exactly when no name has an underscore and no two contents are told apart by letter case only.
  lemma RoundTripExactlyWhen(certs: map<string, string>, stored: map<string, string>, order: seq<string>)
    requires Saved(stored, certs) && forall name :: name in certs ==> certs[name] != ""
    requires Enumerates(order, stored.Keys) && forall k :: k in order ==> k in stored
    ensures AllFound(Listing(stored, order), certs) <==> Survive(certs) && Distinct(certs)
  {
    hide SameName, Enumerates, Escape, Unescape, Find, Listing, Saved;
    var collection := Listing(stored, order);
    if Survive(certs) && Distinct(certs) {
      forall name, asked | name in certs && SameName(name, asked) ensures Find(collection, asked) == certs[name] {
        RoundTrip(certs, stored, order, name, asked);
      }
    }
    if AllFound(collection, certs) {
      forall name | name in certs ensures '_' !in name {
        SameNameSelf(name);
        if '_' in name { NotListed(stored, order, name); }
      }
      forall m, n | m in certs && n in certs && SameName(m, n) ensures certs[m] == certs[n] {
        SameNameSelf(n);
        assert Find(collection, n) == certs[m];
      }
    }
  }

  // A name with an underscore is never found.
  lemma {:induction false} NotListed(stored: map<string, string>, order: seq<string>, name: string)
    requires '_' in name && forall k :: k in order ==> k in stored
    ensures Find(Listing(stored, order), name) == ""
  {
    if order != [] {
      var first := Unescape(order[0]);
      UnderscoreKept(first, name);
      assert Listing(stored, order)[1..] == Listing(stored, order[1..]);
      NotListed(stored, order[1..], name);
    }
  }

  lemma RoundTrip(certs: map<string, string>, stored: map<string, string>, order: seq<string>, name: string,
                  asked: string)
    requires Saved(stored, certs) && Survive(certs) && Distinct(certs)
    requires Enumerates(order, stored.Keys) && (forall k :: k in order ==> k in stored)
    requires name in certs && SameName(name, asked)
    ensures Find(Listing(stored, order), asked) == certs[name]
  {
    hide SameName, Enumerates, Escape, Unescape;
    var collection := Listing(stored, order);
    forall i | 0 <= i < |collection| && SameName(collection[i].name, asked) ensures collection[i].value == certs[name] {
      var n :| n in certs && Escape(n) == order[i] && stored[order[i]] == certs[n];
      UnescapeUndoesEscapeExactlyWhen(n);
      SameNameSame(name, asked, n);
    }
    KeyInOrder(stored, order, Escape(name));
    var i :| 0 <= i < |order| && order[i] == Escape(name);
    UnescapeUndoesEscapeExactlyWhen(name);
    assert SameName(collection[i].name, asked);
    FindsTheOne(collection, asked, certs[name]);
  }

  // Letter case does not touch underscores.
  lemma UnderscoreKept(a: string, b: string)
    ensures SameName(a, b) && '_' in b ==> '_' in a
  {
    if SameName(a, b) && '_' in b {
      var i :| 0 <= i < |b| && b[i] == '_';
      assert Text.ToLower(a)[i] == Text.ToLower(b)[i];
    }
  }

  lemma SameNameSelf(a: string)
    ensures SameName(a, a)
  {
  }

  lemma SameNameSame(a: string, b: string, c: string)
    requires SameName(a, b) && SameName(c, b)
    ensures SameName(a, c) && SameName(c, a)
  {
  }

  lemma KeyInOrder(stored: map<string, string>, order: seq<string>, k: string)
    requires Enumerates(order, stored.Keys)
    ensures k in order <==> k in stored
  {
    assert k in order <==> k in multiset(order);
    assert k in multiset(stored.Keys) <==> k in stored.Keys;
  }
}

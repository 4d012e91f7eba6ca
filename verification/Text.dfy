/**
  The string operations of Go's standard library that the control plane relies on:
  byte order and sorting, joining and splitting, replacing, letter case, decimals.
 */
module Text {

  // ---------- order and sorting ----------

  // Strict lexicographic order, as the string comparison of Go and the key order of etcd.
  predicate Less(a: string, b: string) {
    |b| > 0 && (|a| == 0 || a[0] < b[0] || (a[0] == b[0] && Less(a[1..], b[1..])))
  }

  // A string is below another where they first differ by a lower character, or when it is a proper prefix.
  ghost predicate DifferLowerAt(a: string, b: string, k: nat) {
    k <= |a| && k < |b| && a[..k] == b[..k] && (k == |a| || a[k] < b[k])
  }

  lemma {:induction false} LessExactlyWhen(a: string, b: string)
    ensures Less(a, b) <==> exists k: nat :: DifferLowerAt(a, b, k)
  {
    if Less(a, b) {
      if a == "" || a[0] < b[0] {
        assert DifferLowerAt(a, b, 0);
      } else {
        LessExactlyWhen(a[1..], b[1..]);
        var k: nat :| DifferLowerAt(a[1..], b[1..], k);
        assert a[..k + 1] == [a[0]] + a[1..][..k] && b[..k + 1] == [b[0]] + b[1..][..k];
        assert DifferLowerAt(a, b, k + 1);
      }
    }
    if k: nat :| DifferLowerAt(a, b, k) {
      if k > 0 {
        assert a[..k][0] == b[..k][0] && a[..k][1..] == a[1..][..k - 1] && b[..k][1..] == b[1..][..k - 1];
        LessExactlyWhen(a[1..], b[1..]);
        assert DifferLowerAt(a[1..], b[1..], k - 1);
      }
    }
  }

  lemma {:induction false} LessIsTotal(a: string, b: string)
    ensures !(Less(a, b) && Less(b, a))
    ensures Less(a, b) || Less(b, a) || a == b
    ensures !Less(a, a)
  {
    if a != [] {
      LessIsTotal(a[1..], a[1..]);
      if b != [] {
        LessIsTotal(a[1..], b[1..]);
        if a[0] == b[0] && a[1..] == b[1..] {
          assert a == [a[0]] + a[1..] == [b[0]] + b[1..] == b;
        }
      }
    }
  }

  lemma {:induction false} LessIsTransitive(a: string, b: string, c: string)
    requires Less(a, b) && Less(b, c)
    ensures Less(a, c)
  {
    if a != [] && a[0] == b[0] == c[0] {
      LessIsTransitive(a[1..], b[1..], c[1..]);
    }
  }

  lemma {:induction false} LessAfterPrefix(prefix: string, a: string, b: string)
    ensures Less(prefix + a, prefix + b) <==> Less(a, b)
  {
    if prefix == [] {
      assert prefix + a == a && prefix + b == b;
    } else {
      assert (prefix + a)[1..] == prefix[1..] + a;
      assert (prefix + b)[1..] == prefix[1..] + b;
      LessAfterPrefix(prefix[1..], a, b);
    }
  }

  ghost predicate Sorted(s: seq<string>) {
    forall i, j :: 0 <= i < j < |s| ==> !Less(s[j], s[i])
  }

  function Insert(x: string, s: seq<string>): (r: seq<string>)
    ensures |r| == |s| + 1
  {
    if s == [] || !Less(s[0], x) then [x] + s else [s[0]] + Insert(x, s[1..])
  }

  // sort.Strings, which promises an increasing permutation of its argument.
  function Sort(s: seq<string>): (r: seq<string>)
    ensures |r| == |s|
  {
    if s == [] then [] else Insert(s[0], Sort(s[1..]))
  }

  lemma TailBag(s: seq<string>)
    requires s != []
    ensures multiset(s[1..]) == multiset(s) - multiset{s[0]}
  {
    assert s == [s[0]] + s[1..];
  }

  lemma SortedInFront(x: string, s: seq<string>)
    requires Sorted(s) && (s != [] ==> !Less(s[0], x))
    ensures Sorted([x] + s)
  {
    hide Less;
    var r := [x] + s;
    forall i, j | 0 <= i < j < |r| ensures !Less(r[j], r[i]) {
      if i > 0 {
        assert r[i] == s[i - 1] && r[j] == s[j - 1];
      } else if j > 1 {
        assert r[j] == s[j - 1] && !Less(s[j - 1], s[0]);
        NotLessIsTransitive(x, s[0], s[j - 1]);
      }
    }
  }

  lemma NotLessIsTransitive(a: string, b: string, c: string)
    requires !Less(b, a) && !Less(c, b)
    ensures !Less(c, a)
  {
    hide Less;
    LessIsTotal(a, b);
    LessIsTotal(b, c);
    LessIsTotal(a, c);
    if Less(c, a) && Less(a, b) { LessIsTransitive(c, a, b); }
  }

  lemma {:induction false} InsertKeeps(x: string, s: seq<string>)
    requires Sorted(s)
    ensures Sorted(Insert(x, s)) && multiset(Insert(x, s)) == multiset(s) + multiset{x}
  {
    hide Less;
    if s == [] || !Less(s[0], x) {
      SortedInFront(x, s);
    } else {
      var rest := Insert(x, s[1..]);
      InsertKeeps(x, s[1..]);
      TailBag(s);
      assert rest[0] in multiset(rest);
      LessIsTotal(s[0], x);
      assert rest[0] == x || rest[0] in s[1..];
      SortedInFront(s[0], rest);
    }
  }

  lemma {:induction false} SortSorts(s: seq<string>)
    ensures Sorted(Sort(s)) && multiset(Sort(s)) == multiset(s)
  {
    if s != [] {
      SortSorts(s[1..]);
      InsertKeeps(s[0], Sort(s[1..]));
      assert s == [s[0]] + s[1..];
    }
  }

  lemma SameHead(s: seq<string>, t: seq<string>)
    requires Sorted(s) && Sorted(t) && multiset(s) == multiset(t) && s != [] && t != []
    ensures s[0] == t[0]
  {
    hide Less;
    assert s[0] in multiset(t) && t[0] in multiset(s);
    LessIsTotal(s[0], t[0]);
  }

  lemma {:induction false} SortedIsUnique(s: seq<string>, t: seq<string>)
    requires Sorted(s) && Sorted(t) && multiset(s) == multiset(t)
    ensures s == t
  {
    hide Less;
    assert |s| == |multiset(s)| == |multiset(t)| == |t|;
    if s != [] {
      SameHead(s, t);
      TailBag(s);
      TailBag(t);
      SortedIsUnique(s[1..], t[1..]);
      assert s == [s[0]] + s[1..] && t == [t[0]] + t[1..];
    }
  }

  // Sorting forgets the order in which the elements were collected.
  lemma SortIsCanonical(s: seq<string>, t: seq<string>)
    requires multiset(s) == multiset(t)
    ensures Sort(s) == Sort(t)
  {
    SortSorts(s);
    SortSorts(t);
    SortedIsUnique(Sort(s), Sort(t));
  }

  lemma SortIsIdempotent(s: seq<string>)
    ensures Sort(Sort(s)) == Sort(s)
  {
    SortSorts(s);
    SortIsCanonical(Sort(s), s);
  }

  // ---------- join, split and fields ----------

  function Join(parts: seq<string>, sep: char): string {
    if parts == [] then ""
    else if |parts| == 1 then parts[0]
    else parts[0] + [sep] + Join(parts[1..], sep)
  }

  // strings.Split: at least one part, empty parts included.
  function Split(s: string, sep: char): (r: seq<string>)
    ensures |r| > 0
  {
    if s == "" then [""]
    else
      var rest := Split(s[1..], sep);
      if s[0] == sep then [""] + rest else [[s[0]] + rest[0]] + rest[1..]
  }

  lemma {:induction false} SplitPlain(s: string, sep: char)
    requires sep !in s
    ensures Split(s, sep) == [s]
  {
    if s != "" {
      SplitPlain(s[1..], sep);
      assert [s[0]] + s[1..] == s;
    }
  }

  lemma {:induction false} SplitAfterPart(part: string, rest: string, sep: char)
    requires sep !in part
    ensures Split(part + [sep] + rest, sep) == [part] + Split(rest, sep)
  {
    var s := part + [sep] + rest;
    if part == "" {
      assert s[1..] == rest;
    } else {
      assert s[1..] == part[1..] + [sep] + rest;
      SplitAfterPart(part[1..], rest, sep);
      var tail := Split(rest, sep);
      assert ([part[1..]] + tail)[1..] == tail;
      assert [s[0]] + part[1..] == part;
    }
  }

  lemma {:induction false} SplitPartsArePlain(s: string, sep: char)
    ensures forall p :: p in Split(s, sep) ==> sep !in p
  {
    if s != "" {
      SplitPartsArePlain(s[1..], sep);
    }
  }

  lemma {:induction false} SplitUndoesJoinOn(parts: seq<string>, sep: char)
    requires parts != [] && forall p :: p in parts ==> sep !in p
    ensures Split(Join(parts, sep), sep) == parts
  {
    if |parts| == 1 {
      SplitPlain(parts[0], sep);
    } else {
      SplitUndoesJoinOn(parts[1..], sep);
      SplitAfterPart(parts[0], Join(parts[1..], sep), sep);
    }
  }

  // Splitting undoes joining exactly on non-empty lists of separator-free parts.
  lemma SplitUndoesJoin(parts: seq<string>, sep: char)
    ensures Split(Join(parts, sep), sep) == parts <==> parts != [] && forall p :: p in parts ==> sep !in p
  {
    if parts != [] && forall p :: p in parts ==> sep !in p {
      SplitUndoesJoinOn(parts, sep);
    }
    SplitPartsArePlain(Join(parts, sep), sep);
  }

  // strings.FieldsFunc: the maximal non-empty runs between separators. The accumulator is the run being read.
  function FieldsFrom(s: string, sep: char, run: string): seq<string> {
    if s == "" then (if run == "" then [] else [run])
    else if s[0] == sep then (if run == "" then [] else [run]) + FieldsFrom(s[1..], sep, "")
    else FieldsFrom(s[1..], sep, run + [s[0]])
  }

  function Fields(s: string, sep: char): seq<string> {
    FieldsFrom(s, sep, "")
  }

  lemma {:induction false} FieldsReadRun(part: string, rest: string, sep: char, run: string)
    requires sep !in part
    ensures FieldsFrom(part + rest, sep, run) == FieldsFrom(rest, sep, run + part)
  {
    if part == "" {
      assert part + rest == rest && run + part == run;
    } else {
      assert (part + rest)[1..] == part[1..] + rest;
      FieldsReadRun(part[1..], rest, sep, run + [part[0]]);
      assert run + [part[0]] + part[1..] == run + part;
    }
  }

  lemma {:induction false} FieldsArePlain(s: string, sep: char, run: string)
    requires sep !in run
    ensures forall p :: p in FieldsFrom(s, sep, run) ==> p != "" && sep !in p
  {
    if s != "" {
      if s[0] == sep { FieldsArePlain(s[1..], sep, ""); } else { FieldsArePlain(s[1..], sep, run + [s[0]]); }
    }
  }

  lemma {:induction false} FieldsUndoJoinOn(parts: seq<string>, sep: char)
    requires forall p :: p in parts ==> p != "" && sep !in p
    ensures Fields(Join(parts, sep), sep) == parts
  {
    if |parts| == 1 {
      assert parts[0] + "" == parts[0];
      FieldsReadRun(parts[0], "", sep, "");
    } else if |parts| > 1 {
      var rest := [sep] + Join(parts[1..], sep);
      assert Join(parts, sep) == parts[0] + rest;
      FieldsReadRun(parts[0], rest, sep, "");
      assert "" + parts[0] == parts[0];
      assert rest[1..] == Join(parts[1..], sep);
      FieldsUndoJoinOn(parts[1..], sep);
    }
  }

  // An absolute path splits back into its segments exactly when they are non-empty and separator-free.
  lemma FieldsUndoPath(parts: seq<string>, sep: char)
    ensures Fields([sep] + Join(parts, sep), sep) == parts <==> forall p :: p in parts ==> p != "" && sep !in p
  {
    var path := [sep] + Join(parts, sep);
    assert path[1..] == Join(parts, sep);
    assert Fields(path, sep) == Fields(Join(parts, sep), sep);
    FieldsArePlain(path, sep, "");
    if forall p :: p in parts ==> p != "" && sep !in p {
      FieldsUndoJoinOn(parts, sep);
    }
  }

  // ---------- characters ----------

  // strings.Replace of one character by another, every occurrence.
  function ReplaceAll(s: string, old_: char, new_: char): (r: string)
    ensures |r| == |s|
    ensures forall i :: 0 <= i < |s| ==> r[i] == if s[i] == old_ then new_ else s[i]
  {
    seq(|s|, i requires 0 <= i < |s| => if s[i] == old_ then new_ else s[i])
  }

  function LowerChar(c: char): char {
    if 'A' <= c <= 'Z' then c - 'A' + 'a' else c
  }

  // strings.ToLower on the ASCII letters.
  function ToLower(s: string): (r: string)
    ensures |r| == |s|
    ensures forall i :: 0 <= i < |s| ==> r[i] == LowerChar(s[i])
  {
    seq(|s|, i requires 0 <= i < |s| => LowerChar(s[i]))
  }

  // The characters are the same, or the upper and the lower case of the same letter of 26.
  predicate SameLetter(a: char, b: char) {
    a == b || ('A' <= a <= 'Z' && b as int == a as int + 32) || ('A' <= b <= 'Z' && a as int == b as int + 32)
  }

  // Two strings are equal in lower case exactly when they differ in the case of letters only.
  lemma SameLettersExactlyWhen(a: string, b: string)
    ensures ToLower(a) == ToLower(b) <==> |a| == |b| && forall i :: 0 <= i < |a| ==> SameLetter(a[i], b[i])
  {
    if |a| == |b| {
      forall i | 0 <= i < |a| ensures ToLower(a)[i] == ToLower(b)[i] <==> SameLetter(a[i], b[i]) {}
    }
  }

  // ---------- decimals ----------

  function Digits(n: nat): (r: string)
    ensures r != ""
  {
    var last := [('0' as int + n % 10) as char];
    if n < 10 then last else Digits(n / 10) + last
  }

  function Itoa(n: int): string {
    if n < 0 then "-" + Digits(-n) else Digits(n)
  }

  function Value(s: string): int {
    if s == "" then 0 else 10 * Value(s[..|s| - 1]) + (s[|s| - 1] as int - '0' as int)
  }

  // Decimals are read back, so different numbers are written differently.
  lemma {:induction false} DigitsReadBack(n: nat)
    ensures Value(Digits(n)) == n
  {
    if n >= 10 {
      DigitsReadBack(n / 10);
      var s := Digits(n);
      assert s[..|s| - 1] == Digits(n / 10);
    } else {
      var s := Digits(n);
      assert s[..|s| - 1] == "";
    }
  }

  // The hundreds, tens and ones of a number.
  function InDigits(n: nat): string
    requires n <= 999
  {
    [('0' as int + n / 100) as char, ('0' as int + n / 10 % 10) as char, ('0' as int + n % 10) as char]
  }

  // A number of three digits is written as these.
  lemma ThreeDigits(n: nat)
    requires 100 <= n <= 999
    ensures Itoa(n) == InDigits(n)
  {
    assert Digits(n / 100) == [('0' as int + n / 100) as char];
    assert Digits(n / 10) == Digits(n / 100) + [('0' as int + n / 10 % 10) as char];
  }
}

/** Input-view manifests: entries are sorted by path, checked for duplicates and for
    files that would be ancestors of other files, and encoded. */
module Manifest {
  import opened Idempotency
  import opened Encodings

  datatype Entry = Entry(path: Bytes, occurrence: Bytes, digest: Bytes, size: nat, mode: nat, sidecars: seq<Bytes>)

  // -------------------------------------------------------------------- the paths above

  /** The position of the last separator; the length when there is none. */
  function LastSlash(p: Bytes): (i: nat)
    ensures i <= |p| && (i < |p| ==> p[i] == SLASH)
    ensures forall j | i < j < |p| :: p[j] != SLASH
    ensures i == |p| ==> SLASH !in p
    decreases |p|
  {
    if p == [] then 0
    else if p[|p| - 1] == SLASH then |p| - 1
    else
      var i := LastSlash(p[..|p| - 1]);
      if i == |p| - 1 then |p| else i
  }

  /** A path is under another if that one, and a separator, comes before the rest of it. */
  predicate Under(p: Bytes, ancestor: Bytes) {
    |ancestor| < |p| && p[..|ancestor|] == ancestor && p[|ancestor|] == SLASH
  }

  lemma {:induction false} AncestorIsLess(p: Bytes, a: Bytes)
    requires Under(p, a)
    ensures Less(a, p)
    decreases |a|
  {
    if a != [] {
      assert p[..|a|][0] == a[0] && p[1..][..|a| - 1] == p[..|a|][1..] == a[1..];
      AncestorIsLess(p[1..], a[1..]);
    }
  }

  /** Walks from a path to its parent until there is none, looking each one up. */
  method HasSeenAncestor(p: Bytes, seen: set<Bytes>) returns (found: bool)
    ensures found == exists a :: a in seen && Under(p, a)
  {
    assert forall a | Under(p, a) :: p[|a|] in p;
    var i := LastSlash(p);
    if i == |p| { return false; }
    var parent := p[..i];
    while true
      invariant |parent| < |p| && parent == p[..|parent|] && p[|parent|] == SLASH
      invariant forall a | a in seen && Under(p, a) :: |a| <= |parent|
      decreases |parent|
    {
      if parent in seen { return true; }
      forall a | a in seen && Under(p, a) ensures |a| < |parent| { assert |a| == |parent| ==> a == parent; }
      assert forall k | 0 <= k < |parent| :: parent[k] == p[k] && parent[k] in parent;
      i := LastSlash(parent);
      if i == |parent| { return false; }
      parent := parent[..i];
    }
  }

  // ---------------------------------------------------------------------- construction

  /** What a manifest may contain, whatever the order: at least one entry, every path
      once, and no path under another. */
  ghost predicate Acceptable(m: multiset<Entry>) {
    && |m| > 0
    && (forall e | e in m :: e.path != [] && e.digest != [] && m[e] == 1)
    && (forall e, f | e in m && f in m && e.path == f.path :: e == f)
    && (forall e, f | e in m && f in m :: !Under(e.path, f.path))
  }

  predicate ByPath(entries: seq<Entry>) {
    forall i, j | 0 <= i < j < |entries| :: !Less(entries[j].path, entries[i].path)
  }

  function Inserted(e: Entry, entries: seq<Entry>): (r: seq<Entry>)
    requires ByPath(entries)
    ensures ByPath(r) && multiset(r) == multiset(entries) + multiset{e}
  {
    if entries == [] then [e]
    else if !Less(entries[0].path, e.path) then
      InsertedFirst(e, entries);
      assert multiset([e] + entries) == multiset{e} + multiset(entries);
      [e] + entries
    else
      var rest := Inserted(e, entries[1..]);
      InsertedRest(e, entries, rest);
      [entries[0]] + rest
  }

  lemma InsertedFirst(e: Entry, entries: seq<Entry>)
    requires ByPath(entries) && entries != [] && !Less(entries[0].path, e.path)
    ensures ByPath([e] + entries)
  {
    forall j | 0 <= j < |entries| ensures !Less(entries[j].path, e.path) {
      LessTotal(entries[0].path, e.path);
      LessTotal(entries[j].path, entries[0].path);
      if j > 0 && Less(entries[j].path, e.path) {
        LessTotal(entries[0].path, entries[j].path);
        if entries[0].path != entries[j].path { LessTransitive(entries[0].path, entries[j].path, e.path); }
      }
    }
  }

  lemma InsertedRest(e: Entry, entries: seq<Entry>, rest: seq<Entry>)
    requires ByPath(entries) && entries != [] && Less(entries[0].path, e.path) && ByPath(rest)
    requires multiset(rest) == multiset(entries[1..]) + multiset{e}
    ensures ByPath([entries[0]] + rest) && multiset([entries[0]] + rest) == multiset(entries) + multiset{e}
  {
    assert entries == [entries[0]] + entries[1..];
    LessTotal(entries[0].path, e.path);
    forall j | 0 <= j < |rest| ensures !Less(rest[j].path, entries[0].path) {
      assert rest[j] in multiset(rest);
      if rest[j] != e { assert rest[j] in entries[1..]; }
    }
  }

  method SortByPath(entries: seq<Entry>) returns (r: seq<Entry>)
    ensures ByPath(r) && multiset(r) == multiset(entries)
  {
    r := [];
    for i := 0 to |entries|
      invariant ByPath(r) && multiset(r) == multiset(entries[..i])
    {
      assert entries[..i + 1] == entries[..i] + [entries[i]];
      r := Inserted(entries[i], r);
    }
    assert entries[..|entries|] == entries;
  }

  predicate DistinctPaths(entries: seq<Entry>) {
    forall i, j | 0 <= i < j < |entries| :: entries[i].path != entries[j].path
  }

  lemma {:induction false} Twice(entries: seq<Entry>, i: nat, j: nat)
    requires i < j < |entries| && entries[i] == entries[j]
    ensures multiset(entries)[entries[i]] >= 2
  {
    assert entries == entries[..j] + [entries[j]] + entries[j + 1..];
    assert entries[..j][i] == entries[i] && entries[i] in multiset(entries[..j]);
  }

  lemma Once(entries: seq<Entry>, i: nat)
    requires DistinctPaths(entries) && i < |entries|
    ensures multiset(entries)[entries[i]] == 1
  {
    var e, before, after := entries[i], entries[..i], entries[i + 1..];
    assert entries == before + [e] + after;
    assert e !in before && e !in after;
    CountedApart(before, e, after);
  }

  lemma CountedApart(before: seq<Entry>, e: Entry, after: seq<Entry>)
    requires e !in before && e !in after
    ensures multiset(before + [e] + after)[e] == 1
  {
    assert multiset(before + [e] + after) == multiset(before) + multiset{e} + multiset(after);
    assert e !in multiset(before) && e !in multiset(after);
  }

  /** A repeated path, an empty field or an ancestor makes the entries unacceptable. */
  lemma RepeatedPath(entries: seq<Entry>, i: nat, j: nat)
    requires i < j < |entries| && entries[i].path == entries[j].path
    ensures !Acceptable(multiset(entries))
  {
    assert entries[i] in multiset(entries) && entries[j] in multiset(entries);
    if entries[i] == entries[j] { Twice(entries, i, j); }
  }

  lemma SortedAcceptable(entries: seq<Entry>)
    requires entries != [] && DistinctPaths(entries)
    requires forall i | 0 <= i < |entries| :: entries[i].path != [] && entries[i].digest != []
    requires forall i, j | 0 <= i < |entries| && 0 <= j < |entries| :: !Under(entries[i].path, entries[j].path)
    ensures Acceptable(multiset(entries))
  {
    forall e | e in multiset(entries) ensures e.path != [] && e.digest != [] && multiset(entries)[e] == 1 {
      var i :| 0 <= i < |entries| && entries[i] == e;
      Once(entries, i);
    }
  }

  /** A path above another comes before it in the order, so it has been seen by then. */
  lemma LaterIsNoAncestor(entries: seq<Entry>, i: nat, j: nat)
    requires ByPath(entries) && i <= j < |entries|
    ensures !Under(entries[i].path, entries[j].path)
  {
    if Under(entries[i].path, entries[j].path) {
      AncestorIsLess(entries[i].path, entries[j].path);
      LessTotal(entries[i].path, entries[j].path);
    }
  }

  /** The paths met so far. */
  ghost predicate SeenSoFar(entries: seq<Entry>, i: nat, seen: set<Bytes>)
    requires i <= |entries|
  {
    && (forall k | 0 <= k < i :: entries[k].path in seen)
    && (forall p | p in seen :: exists k :: 0 <= k < i && entries[k].path == p)
  }

  /** The entries met so far cause no conflict among themselves. */
  ghost predicate ClearSoFar(entries: seq<Entry>, i: nat)
    requires i <= |entries|
  {
    && (forall k | 0 <= k < i :: entries[k].path != [] && entries[k].digest != [])
    && (forall j, k | 0 <= j < k < i :: entries[j].path != entries[k].path)
    && (forall j, k | 0 <= k < j < i :: !Under(entries[j].path, entries[k].path))
  }

  lemma SeenRefuses(entries: seq<Entry>, i: nat, seen: set<Bytes>, p: Bytes)
    requires i < |entries| && SeenSoFar(entries, i, seen) && p in seen
            && (p == entries[i].path || Under(entries[i].path, p))
    ensures !Acceptable(multiset(entries))
  {
    var k :| 0 <= k < i && entries[k].path == p;
    assert entries[i] in multiset(entries) && entries[k] in multiset(entries);
    if p == entries[i].path { RepeatedPath(entries, k, i); }
  }

  lemma ClearNext(entries: seq<Entry>, i: nat, seen: set<Bytes>)
    requires i < |entries| && SeenSoFar(entries, i, seen) && ClearSoFar(entries, i)
    requires entries[i].path != [] && entries[i].digest != [] && entries[i].path !in seen
    requires forall a | a in seen :: !Under(entries[i].path, a)
    ensures SeenSoFar(entries, i + 1, seen + {entries[i].path}) && ClearSoFar(entries, i + 1)
  {}

  lemma ClearAccepts(entries: seq<Entry>)
    requires entries != [] && ByPath(entries) && ClearSoFar(entries, |entries|)
    ensures Acceptable(multiset(entries)) && DistinctPaths(entries)
  {
    forall i, j | 0 <= i < |entries| && 0 <= j < |entries| ensures !Under(entries[i].path, entries[j].path) {
      if i <= j { LaterIsNoAncestor(entries, i, j); }
    }
    SortedAcceptable(entries);
  }

  /** The constructor accepts exactly the acceptable entries, and keeps them in path order. */
  method NewManifest(entries: seq<Entry>) returns (ok: bool, owned: seq<Entry>)
    ensures ok == Acceptable(multiset(entries))
    ensures ok ==> ByPath(owned) && DistinctPaths(owned) && multiset(owned) == multiset(entries)
  {
    owned := SortByPath(entries);
    if |owned| == 0 { return false, owned; }
    var seen: set<Bytes> := {};
    for i := 0 to |owned|
      invariant SeenSoFar(owned, i, seen) && ClearSoFar(owned, i)
    {
      if owned[i].path == [] || owned[i].digest == [] {
        assert owned[i] in multiset(owned);
        return false, owned;
      }
      if owned[i].path in seen {
        SeenRefuses(owned, i, seen, owned[i].path);
        return false, owned;
      }
      var found := HasSeenAncestor(owned[i].path, seen);
      if found {
        ghost var a :| a in seen && Under(owned[i].path, a);
        SeenRefuses(owned, i, seen, a);
        return false, owned;
      }
      ClearNext(owned, i, seen);
      seen := seen + {owned[i].path};
    }
    ClearAccepts(owned);
    ok := true;
  }

  // --------------------------------------------------------------------- encoding

  function Strings(xs: seq<Bytes>): Bytes { if xs == [] then [] else Str(xs[0]) + Strings(xs[1..]) }

  function EntryBytes(e: Entry): Bytes {
    Str(e.path) + (Str(e.occurrence)
        + (Str(e.digest) + (BigEndian(e.size, 8)
        + (BigEndian(e.mode, 4) + (BigEndian(|e.sidecars|, 4) + Strings(e.sidecars))))))
  }

  function EntriesBytes(entries: seq<Entry>): Bytes {
    if entries == [] then [] else EntryBytes(entries[0]) + EntriesBytes(entries[1..])
  }

  function ManifestBytes(header: Bytes, entries: seq<Entry>): Bytes {
    Str(header) + (BigEndian(|entries|, 4) + EntriesBytes(entries))
  }

  /** The strings and numbers of an entry in their order, and then its sidecars. */
  method WriteEntry(start: Bytes, e: Entry) returns (buffer: Bytes)
    ensures buffer == start + EntryBytes(e)
  {
    var sidecars := Strings(e.sidecars);
    buffer := start + Str(e.path);
    buffer := buffer + Str(e.occurrence);
    buffer := buffer + Str(e.digest);
    buffer := buffer + BigEndian(e.size, 8);
    buffer := buffer + BigEndian(e.mode, 4);
    buffer := buffer + BigEndian(|e.sidecars|, 4);
    Assembled(start, Str(e.path), Str(e.occurrence), Str(e.digest), BigEndian(e.size, 8), BigEndian(e.mode, 4),
              BigEndian(|e.sidecars|, 4), sidecars);
    buffer := WriteStrings(buffer, e.sidecars);
  }

  lemma Assembled(s: Bytes, a: Bytes, b: Bytes, c: Bytes, d: Bytes, e: Bytes, f: Bytes, g: Bytes)
    ensures s + a + b + c + d + e + f + g == s + (a + (b + (c + (d + (e + (f + g))))))
  {
    Assoc(s + a + b + c + d + e, f, g);
    Assoc(s + a + b + c + d, e, f + g);
    Assoc(s + a + b + c, d, e + (f + g));
    Assoc(s + a + b, c, d + (e + (f + g)));
    Assoc(s + a, b, c + (d + (e + (f + g))));
    Assoc(s, a, b + (c + (d + (e + (f + g)))));
  }

  method WriteStrings(start: Bytes, xs: seq<Bytes>) returns (buffer: Bytes)
    ensures buffer == start + Strings(xs)
  {
    buffer := start;
    assert xs[0..] == xs;
    for i := 0 to |xs|
      invariant buffer + Strings(xs[i..]) == start + Strings(xs)
    {
      assert xs[i..][0] == xs[i] && xs[i..][1..] == xs[i + 1..];
      Assoc(buffer, Str(xs[i]), Strings(xs[i + 1..]));
      buffer := buffer + Str(xs[i]);
    }
    assert xs[|xs|..] == [];
    Nothing(buffer);
  }

  method WriteManifest(header: Bytes, entries: seq<Entry>) returns (buffer: Bytes)
    ensures buffer == ManifestBytes(header, entries)
  {
    buffer := Str(header) + BigEndian(|entries|, 4);
    ghost var all := buffer + EntriesBytes(entries);
    Assoc(Str(header), BigEndian(|entries|, 4), EntriesBytes(entries));
    assert entries[0..] == entries;
    for i := 0 to |entries|
      invariant buffer + EntriesBytes(entries[i..]) == all
    {
      assert entries[i..][0] == entries[i] && entries[i..][1..] == entries[i + 1..];
      Assoc(buffer, EntryBytes(entries[i]), EntriesBytes(entries[i + 1..]));
      buffer := WriteEntry(buffer, entries[i]);
    }
    assert entries[|entries|..] == [];
    Nothing(buffer);
  }

  /** Every length fits its field. */
  ghost predicate Encodable(e: Entry) {
    && |e.path| < WORD && |e.occurrence| < WORD && |e.digest| < WORD && e.size < Power(8) && e.mode < WORD
    && |e.sidecars| < WORD && forall k | 0 <= k < |e.sidecars| :: |e.sidecars[k]| < WORD
  }

  lemma {:induction false} StringsSplit(xs: seq<Bytes>, x: Bytes, ys: seq<Bytes>, y: Bytes)
    requires |xs| == |ys| && (forall k | 0 <= k < |xs| :: |xs[k]| < WORD)
            && (forall k | 0 <= k < |ys| :: |ys[k]| < WORD)
    requires Strings(xs) + x == Strings(ys) + y
    ensures xs == ys && x == y
    decreases |xs|
  {
    if xs == [] {
      Nothing(x);
      Nothing(y);
    } else {
      Assoc(Str(xs[0]), Strings(xs[1..]), x);
      Assoc(Str(ys[0]), Strings(ys[1..]), y);
      StrSplit(xs[0], Strings(xs[1..]) + x, ys[0], Strings(ys[1..]) + y);
      StringsSplit(xs[1..], x, ys[1..], y);
      HeadAndRest(xs);
      HeadAndRest(ys);
    }
  }

  lemma Assoc8(a: Bytes, b: Bytes, c: Bytes, d: Bytes, e: Bytes, f: Bytes, g: Bytes, x: Bytes)
    ensures (a + (b + (c + (d + (e + (f + g)))))) + x == a + (b + (c + (d + (e + (f + (g + x))))))
  {}

  /** The numbers and strings after the three leading strings of an entry. */
  function Fields(e: Entry, x: Bytes): Bytes {
    BigEndian(e.size, 8) + (BigEndian(e.mode, 4) + (BigEndian(|e.sidecars|, 4) + (Strings(e.sidecars) + x)))
  }

  lemma FieldsSplit(e: Entry, x: Bytes, f: Entry, y: Bytes)
    requires Encodable(e) && Encodable(f) && Fields(e, x) == Fields(f, y)
    ensures e.size == f.size && e.mode == f.mode && e.sidecars == f.sidecars && x == y
  {
    Power4();
    var u, v := Strings(e.sidecars) + x, Strings(f.sidecars) + y;
    CountSplit(e.size, BigEndian(e.mode, 4) + (BigEndian(|e.sidecars|, 4) + u), f.size,
        BigEndian(f.mode, 4) + (BigEndian(|f.sidecars|, 4) + v), 8);
    CountSplit(e.mode, BigEndian(|e.sidecars|, 4) + u, f.mode, BigEndian(|f.sidecars|, 4) + v, 4);
    CountSplit(|e.sidecars|, u, |f.sidecars|, v, 4);
    StringsSplit(e.sidecars, x, f.sidecars, y);
  }

  lemma EntrySplit(e: Entry, x: Bytes, f: Entry, y: Bytes)
    requires Encodable(e) && Encodable(f) && EntryBytes(e) + x == EntryBytes(f) + y
    ensures e == f && x == y
  {
    Assoc8(Str(e.path), Str(e.occurrence), Str(e.digest), BigEndian(e.size, 8), BigEndian(e.mode, 4),
        BigEndian(|e.sidecars|, 4), Strings(e.sidecars), x);
    Assoc8(Str(f.path), Str(f.occurrence), Str(f.digest), BigEndian(f.size, 8), BigEndian(f.mode, 4),
        BigEndian(|f.sidecars|, 4), Strings(f.sidecars), y);
    StrSplit(e.path, Str(e.occurrence) + (Str(e.digest) + Fields(e, x)), f.path,
        Str(f.occurrence) + (Str(f.digest) + Fields(f, y)));
    StrSplit(e.occurrence, Str(e.digest) + Fields(e, x), f.occurrence, Str(f.digest) + Fields(f, y));
    StrSplit(e.digest, Fields(e, x), f.digest, Fields(f, y));
    FieldsSplit(e, x, f, y);
  }

  lemma {:induction false} EntriesSplitAll(es: seq<Entry>, fs: seq<Entry>)
    requires |es| == |fs| && (forall k | 0 <= k < |es| :: Encodable(es[k]))
            && (forall k | 0 <= k < |fs| :: Encodable(fs[k]))
    requires EntriesBytes(es) == EntriesBytes(fs)
    ensures es == fs
    decreases |es|
  {
    if es != [] {
      EntrySplit(es[0], EntriesBytes(es[1..]), fs[0], EntriesBytes(fs[1..]));
      EntriesSplitAll(es[1..], fs[1..]);
      assert es == [es[0]] + es[1..] && fs == [fs[0]] + fs[1..];
    }
  }

  /** The bytes of a manifest determine its entries. */
  lemma ManifestInjective(header: Bytes, es: seq<Entry>, fs: seq<Entry>)
    requires |header| < WORD && |es| < WORD && |fs| < WORD
    requires (forall k | 0 <= k < |es| :: Encodable(es[k])) && (forall k | 0 <= k < |fs| :: Encodable(fs[k]))
    requires ManifestBytes(header, es) == ManifestBytes(header, fs)
    ensures es == fs
  {
    Power4();
    StrSplit(header, BigEndian(|es|, 4) + EntriesBytes(es), header, BigEndian(|fs|, 4) + EntriesBytes(fs));
    CountSplit(|es|, EntriesBytes(es), |fs|, EntriesBytes(fs), 4);
    EntriesSplitAll(es, fs);
  }

  /** The order in which the entries are given does not matter: two accepted manifests
      with the same entries have the same bytes. */
  lemma OrderDoesNotMatter(header: Bytes, es: seq<Entry>, fs: seq<Entry>)
    requires ByPath(es) && DistinctPaths(es) && ByPath(fs) && DistinctPaths(fs) && multiset(es) == multiset(fs)
    ensures ManifestBytes(header, es) == ManifestBytes(header, fs)
  {
    SortedUnique(es, fs);
  }

  lemma {:induction false} SortedUnique(es: seq<Entry>, fs: seq<Entry>)
    requires ByPath(es) && DistinctPaths(es) && ByPath(fs) && DistinctPaths(fs) && multiset(es) == multiset(fs)
    ensures es == fs
    decreases |es|
  {
    assert |es| == |multiset(es)| && |fs| == |multiset(fs)|;
    if es != [] {
      FirstAlike(es, fs);
      Without(es);
      Without(fs);
      SortedUnique(es[1..], fs[1..]);
    }
  }

  lemma Without(es: seq<Entry>)
    requires es != []
    ensures es == [es[0]] + es[1..] && multiset(es[1..]) == multiset(es) - multiset{es[0]}
  {
    assert es == [es[0]] + es[1..];
  }

  lemma FirstAlike(es: seq<Entry>, fs: seq<Entry>)
    requires ByPath(es) && DistinctPaths(es) && ByPath(fs) && DistinctPaths(fs) && multiset(es) == multiset(fs)
            && es != [] && fs != []
    ensures es[0] == fs[0]
  {
    assert es[0] in multiset(fs) && fs[0] in multiset(es);
    var i :| 0 <= i < |fs| && fs[i] == es[0];
    var j :| 0 <= j < |es| && es[j] == fs[0];
    LessTotal(es[0].path, fs[0].path);
  }
}

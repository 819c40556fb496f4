/** `DomainMatcher`: a trie of domain names read from the right, its two upper levels sorted after
    loading, searched by bisection. */
module Domains {
  import opened Bytes
  import opened Trojan

  /** `DomainLinkData`. */
  datatype Node = Node(suffix: bytes, prefix: seq<Node>)

  const COM: bytes := [99, 111, 109]
  const ORG: bytes := [111, 114, 103]
  const NET: bytes := [110, 101, 116]
  const INT: bytes := [105, 110, 116]
  const EDU: bytes := [101, 100, 117]
  const GOV: bytes := [103, 111, 118]
  const MIL: bytes := [109, 105, 108]

  predicate IsTop(suffix: bytes) {
    suffix == COM || suffix == ORG || suffix == NET || suffix == INT || suffix == EDU || suffix == GOV || suffix == MIL
  }

  // ---- order ----

  predicate Less(a: bytes, b: bytes) {
    b != [] && (a == [] || a[0] < b[0] || (a[0] == b[0] && Less(a[1..], b[1..])))
  }

  lemma {:induction false} Irreflexive(a: bytes)
    ensures !Less(a, a)
  {
    if a != [] {
      Irreflexive(a[1..]);
    }
  }

  lemma {:induction false} Transitive(a: bytes, b: bytes, c: bytes)
    requires Less(a, b) && Less(b, c)
    ensures Less(a, c)
  {
    if a != [] && a[0] == b[0] == c[0] {
      Transitive(a[1..], b[1..], c[1..]);
    }
  }

  lemma {:induction false} Trichotomy(a: bytes, b: bytes)
    ensures Less(a, b) || Less(b, a) || a == b
  {
    if a != [] && b != [] && a[0] == b[0] {
      Trichotomy(a[1..], b[1..]);
      if a[1..] == b[1..] {
        assert a == [a[0]] + a[1..] == b;
      }
    }
  }

  ghost predicate Ascending(list: seq<Node>) {
    forall i, j :: 0 <= i < j < |list| ==> Less(list[i].suffix, list[j].suffix)
  }

  ghost predicate Distinct(list: seq<Node>) {
    forall i, j :: 0 <= i < j < |list| ==> list[i].suffix != list[j].suffix
  }

  // ---- linear and bisecting search ----

  /** The first sibling of that name. */
  function Get(list: seq<Node>, seg: bytes): (r: Option<Node>)
    ensures r.Some? ==> r.value.suffix == seg && r.value in list
  {
    if list == [] then None else if list[0].suffix == seg then Some(list[0]) else Get(list[1..], seg)
  }

  lemma {:induction false} GetAt(list: seq<Node>, i: nat)
    requires i < |list| && forall j :: 0 <= j < i ==> list[j].suffix != list[i].suffix
    ensures Get(list, list[i].suffix) == Some(list[i])
  {
    if i > 0 {
      assert list[0].suffix != list[i].suffix;
      GetAt(list[1..], i - 1);
    }
  }

  lemma GetNone(list: seq<Node>, seg: bytes)
    ensures Get(list, seg).None? <==> forall i :: 0 <= i < |list| ==> list[i].suffix != seg
  {
  }

  /** std::lower_bound on a part of the siblings. */
  function LowerBound(list: seq<Node>, seg: bytes, first: nat, length: nat): (r: nat)
    requires first + length <= |list|
    ensures first <= r <= first + length
    decreases length
  {
    if length == 0 then first
    else
      var half := length / 2;
      if Less(list[first + half].suffix, seg) then LowerBound(list, seg, first + half + 1, length - half - 1)
      else LowerBound(list, seg, first, half)
  }

  lemma BelowMiddle(list: seq<Node>, seg: bytes, mid: nat)
    requires mid < |list| && Ascending(list) && Less(list[mid].suffix, seg)
    ensures forall i :: 0 <= i < mid + 1 ==> Less(list[i].suffix, seg)
  {
    hide Less;
    forall i | 0 <= i < mid
      ensures Less(list[i].suffix, seg)
    {
      Transitive(list[i].suffix, list[mid].suffix, seg);
    }
  }

  lemma AboveMiddle(list: seq<Node>, seg: bytes, mid: nat)
    requires mid < |list| && Ascending(list) && !Less(list[mid].suffix, seg)
    ensures forall i :: mid <= i < |list| ==> !Less(list[i].suffix, seg)
  {
    hide Less;
    forall i | mid < i < |list|
      ensures !Less(list[i].suffix, seg)
    {
      if Less(list[i].suffix, seg) {
        Transitive(list[mid].suffix, list[i].suffix, seg);
      }
    }
  }

  lemma {:induction false} LowerBoundIs(list: seq<Node>, seg: bytes, first: nat, length: nat)
    requires first + length <= |list| && Ascending(list)
    requires forall i :: 0 <= i < first ==> Less(list[i].suffix, seg)
    requires forall i :: first + length <= i < |list| ==> !Less(list[i].suffix, seg)
    ensures var k := LowerBound(list, seg, first, length);
      && (forall i :: 0 <= i < k ==> Less(list[i].suffix, seg))
      && (forall i :: k <= i < |list| ==> !Less(list[i].suffix, seg))
    decreases length
  {
    hide Less, Ascending;
    if length > 0 {
      var half := length / 2;
      if Less(list[first + half].suffix, seg) {
        BelowMiddle(list, seg, first + half);
        LowerBoundIs(list, seg, first + half + 1, length - half - 1);
      } else {
        AboveMiddle(list, seg, first + half);
        LowerBoundIs(list, seg, first, half);
      }
    }
  }

  /** `find_domain_seg`. */
  function Find(list: seq<Node>, seg: bytes): (r: Option<Node>) {
    var k := LowerBound(list, seg, 0, |list|);
    if k < |list| && !Less(seg, list[k].suffix) then Some(list[k]) else None
  }

  /** Among ascending siblings, bisection finds what a linear search finds. */
  lemma FindIsGet(list: seq<Node>, seg: bytes)
    requires Ascending(list)
    ensures Find(list, seg) == Get(list, seg)
  {
    hide Less, Get, LowerBound;
    var k := LowerBound(list, seg, 0, |list|);
    LowerBoundIs(list, seg, 0, |list|);
    Irreflexive(seg);
    if k < |list| && !Less(seg, list[k].suffix) {
      Trichotomy(seg, list[k].suffix);
      GetAt(list, k);
    } else {
      forall i | 0 <= i < |list|
        ensures list[i].suffix != seg
      {
        if i > k {
          assert Less(list[k].suffix, list[i].suffix);
        }
      }
      GetNone(list, seg);
    }
  }

  // ---- paths ----

  /** The node at the end of a path of names, from the top. */
  function Locate(list: seq<Node>, path: seq<bytes>): (r: Option<Node>)
    requires path != []
    decreases |path|
  {
    var g := Get(list, path[0]);
    if g.None? || |path| == 1 then g else Locate(g.value.prefix, path[1..])
  }

  predicate In(list: seq<Node>, path: seq<bytes>) {
    path == [] || Locate(list, path).Some?
  }

  lemma {:induction false} LocateAppend(list: seq<Node>, path: seq<bytes>, seg: bytes)
    requires path != []
    ensures var n := Locate(list, path);
      Locate(list, path + [seg]) == if n.None? then None else Get(n.value.prefix, seg)
    decreases |path|
  {
    hide Get;
    var g := Get(list, path[0]);
    assert (path + [seg])[1..] == path[1..] + [seg];
    if |path| == 1 {
      assert path[1..] + [seg] == [seg];
    } else if g.Some? {
      LocateAppend(g.value.prefix, path[1..], seg);
    }
  }

  /** A path without continuation is that of a node without children. */
  lemma LeafIff(list: seq<Node>, path: seq<bytes>)
    requires path != [] && Locate(list, path).Some?
    ensures Locate(list, path).value.prefix == [] <==> forall seg :: !In(list, path + [seg])
  {
    hide Locate;
    var children := Locate(list, path).value.prefix;
    if children == [] {
      forall seg
        ensures !In(list, path + [seg])
      {
        LocateAppend(list, path, seg);
      }
    } else {
      LocateAppend(list, path, children[0].suffix);
      assert In(list, path + [children[0].suffix]);
    }
  }

  // ---- insertion ----

  /** `insert_domain_seg` along a path: the first sibling of each name, or a new last one. */
  function Insert(list: seq<Node>, path: seq<bytes>): (r: seq<Node>)
    decreases |path|, |list|
  {
    if path == [] then list
    else if list == [] then [Node(path[0], Insert([], path[1..]))]
    else if list[0].suffix == path[0] then [Node(path[0], Insert(list[0].prefix, path[1..]))] + list[1..]
    else [list[0]] + Insert(list[1..], path)
  }

  function Children(list: seq<Node>, seg: bytes): (r: seq<Node>) {
    var g := Get(list, seg);
    if g.None? then [] else g.value.prefix
  }

  lemma {:induction false} GetInsert(list: seq<Node>, path: seq<bytes>, seg: bytes)
    requires path != []
    ensures Get(Insert(list, path), seg)
      == if seg == path[0] then Some(Node(seg, Insert(Children(list, seg), path[1..]))) else Get(list, seg)
    decreases |list|
  {
    var r := Insert(list, path);
    if list != [] {
      if list[0].suffix == path[0] {
        assert r[1..] == list[1..];
      } else {
        GetInsert(list[1..], path, seg);
        assert r[0] == list[0] && r[1..] == Insert(list[1..], path);
      }
    } else {
      assert r[1..] == [];
    }
  }

  function ChildrenAt(list: seq<Node>, path: seq<bytes>): (r: seq<Node>)
    requires path != []
  {
    var n := Locate(list, path);
    if n.None? then [] else n.value.prefix
  }

  lemma InsertNothing(list: seq<Node>)
    ensures Insert(list, []) == list
  {
  }

  lemma NothingIn(q: seq<bytes>)
    requires q != []
    ensures Locate([], q) == None
  {
  }

  lemma FirstAndRest(q: seq<bytes>, path: seq<bytes>)
    requires path != [] && q != [] && q[0] == path[0]
    ensures q <= path <==> q[1..] <= path[1..]
    ensures q <= path ==> path[1..][|q| - 1..] == path[|q|..]
  {
  }

  /** Inserting a path makes its nodes, and changes no other. */
  lemma {:induction false} LocateInsert(list: seq<Node>, path: seq<bytes>, q: seq<bytes>)
    requires q != []
    ensures Locate(Insert(list, path), q)
      == if q <= path then Some(Node(q[|q| - 1], Insert(ChildrenAt(list, q), path[|q|..]))) else Locate(list, q)
    decreases |path|
  {
    hide Get, Insert;
    if path == [] {
      assert Insert(list, path) == list by { InsertNothing(list); }
    } else {
      GetInsert(list, path, q[0]);
      if q[0] == path[0] {
        FirstAndRest(q, path);
        if |q| > 1 {
          LocateInsert(Children(list, q[0]), path[1..], q[1..]);
          NothingIn(q[1..]);
        }
      }
    }
  }

  function InsertAll(list: seq<Node>, paths: seq<seq<bytes>>): (r: seq<Node>) {
    if paths == [] then list
    else Insert(InsertAll(list, paths[..|paths| - 1]), paths[|paths| - 1])
  }

  /** A path some listed path begins with. */
  ghost predicate Listed(paths: seq<seq<bytes>>, q: seq<bytes>) {
    q == [] || exists i :: 0 <= i < |paths| && q <= paths[i]
  }

  lemma {:induction false} InsertAllIn(paths: seq<seq<bytes>>, q: seq<bytes>)
    ensures In(InsertAll([], paths), q) <==> Listed(paths, q)
  {
    hide Insert, Locate;
    if q != [] && paths == [] {
      NothingIn(q);
    } else if q != [] {
      var n := |paths| - 1;
      InsertAllIn(paths[..n], q);
      LocateInsert(InsertAll([], paths[..n]), paths[n], q);
      assert Listed(paths, q) <==> Listed(paths[..n], q) || q <= paths[n] by {
        assert forall i :: 0 <= i < n ==> paths[..n][i] == paths[i];
      }
    }
  }

  /** Siblings of the two upper levels have different names. */
  ghost predicate Upper(list: seq<Node>) {
    Distinct(list) && forall i :: 0 <= i < |list| ==> Distinct(list[i].prefix)
  }

  lemma DistinctCons(x: Node, list: seq<Node>)
    requires Distinct(list) && forall i :: 0 <= i < |list| ==> list[i].suffix != x.suffix
    ensures Distinct([x] + list)
  {
  }

  lemma {:induction false} DistinctInsert(list: seq<Node>, path: seq<bytes>)
    requires Distinct(list)
    ensures Distinct(Insert(list, path))
    decreases |list|
  {
    if path != [] && list != [] {
      var r := Insert(list, path);
      if list[0].suffix == path[0] {
        assert forall i :: 0 <= i < |list| ==> r[i].suffix == list[i].suffix;
      } else {
        var more := Insert(list[1..], path);
        DistinctInsert(list[1..], path);
        GetNone(list[1..], list[0].suffix);
        GetInsert(list[1..], path, list[0].suffix);
        GetNone(more, list[0].suffix);
        DistinctCons(list[0], more);
      }
    }
  }

  lemma DistinctNone()
    ensures Distinct([])
  {
  }

  lemma {:induction false} LowerInsert(list: seq<Node>, path: seq<bytes>)
    requires forall i :: 0 <= i < |list| ==> Distinct(list[i].prefix)
    ensures forall i :: 0 <= i < |Insert(list, path)| ==> Distinct(Insert(list, path)[i].prefix)
    decreases |list|
  {
    hide Distinct;
    if path != [] {
      var r := Insert(list, path);
      if list == [] {
        DistinctNone();
        DistinctInsert([], path[1..]);
      } else if list[0].suffix == path[0] {
        DistinctInsert(list[0].prefix, path[1..]);
        assert forall i :: 1 <= i < |r| ==> r[i] == list[i];
      } else {
        var more := Insert(list[1..], path);
        LowerInsert(list[1..], path);
        assert forall i :: 1 <= i < |r| ==> r[i] == more[i - 1];
      }
    }
  }

  lemma {:induction false} UpperInsert(list: seq<Node>, path: seq<bytes>)
    requires Upper(list)
    ensures Upper(Insert(list, path))
    decreases |list|
  {
    DistinctInsert(list, path);
    LowerInsert(list, path);
  }

  lemma {:induction false} UpperAll(list: seq<Node>, paths: seq<seq<bytes>>)
    requires Upper(list)
    ensures Upper(InsertAll(list, paths))
    decreases |paths|
  {
    hide Upper, Insert;
    if paths != [] {
      UpperAll(list, paths[..|paths| - 1]);
      UpperInsert(InsertAll(list, paths[..|paths| - 1]), paths[|paths| - 1]);
    }
  }

  // ---- sorting ----

  function Place(x: Node, list: seq<Node>): (r: seq<Node>) {
    if list == [] || !Less(list[0].suffix, x.suffix) then [x] + list else [list[0]] + Place(x, list[1..])
  }

  /** std::sort by name. */
  function Sort(list: seq<Node>): (r: seq<Node>) {
    if list == [] then [] else Place(list[0], Sort(list[1..]))
  }

  lemma {:induction false} GetPlace(x: Node, list: seq<Node>, seg: bytes)
    ensures Get(Place(x, list), seg) == if seg == x.suffix then Some(x) else Get(list, seg)
    decreases |list|
  {
    hide Less;
    var r := Place(x, list);
    if list == [] || !Less(list[0].suffix, x.suffix) {
      assert r[1..] == list;
    } else {
      Irreflexive(x.suffix);
      GetPlace(x, list[1..], seg);
      assert r[1..] == Place(x, list[1..]);
    }
  }

  lemma {:induction false} GetSort(list: seq<Node>, seg: bytes)
    ensures Get(Sort(list), seg) == Get(list, seg)
  {
    hide Place;
    if list != [] {
      GetSort(list[1..], seg);
      GetPlace(list[0], Sort(list[1..]), seg);
    }
  }

  lemma AscendingCons(x: Node, list: seq<Node>)
    requires Ascending(list) && (list != [] ==> Less(x.suffix, list[0].suffix))
    ensures Ascending([x] + list)
  {
    hide Less;
    var r := [x] + list;
    forall i, j | 0 <= i < j < |r|
      ensures Less(r[i].suffix, r[j].suffix)
    {
      assert r[j] == list[j - 1] && (i > 0 ==> r[i] == list[i - 1]);
      if i == 0 && j > 1 {
        Transitive(x.suffix, list[0].suffix, list[j - 1].suffix);
      }
    }
  }

  lemma {:induction false} AscendingPlace(x: Node, list: seq<Node>)
    requires Ascending(list) && Get(list, x.suffix).None?
    ensures Ascending(Place(x, list))
    ensures Place(x, list)[0] == x || (list != [] && Place(x, list)[0] == list[0])
    decreases |list|
  {
    hide Less;
    if list == [] || !Less(list[0].suffix, x.suffix) {
      if list != [] {
        Trichotomy(x.suffix, list[0].suffix);
      }
      AscendingCons(x, list);
    } else {
      AscendingPlace(x, list[1..]);
      AscendingCons(list[0], Place(x, list[1..]));
    }
  }

  /** Siblings of different names come out ascending. */
  lemma {:induction false} AscendingSort(list: seq<Node>)
    requires Distinct(list)
    ensures Ascending(Sort(list))
  {
    hide Place, Less;
    if list != [] {
      AscendingSort(list[1..]);
      GetNone(list[1..], list[0].suffix);
      GetSort(list[1..], list[0].suffix);
      AscendingPlace(list[0], Sort(list[1..]));
    }
  }

  function SortEach(list: seq<Node>): (r: seq<Node>)
    ensures |r| == |list|
    ensures forall i :: 0 <= i < |r| ==> r[i] == Node(list[i].suffix, Sort(list[i].prefix))
  {
    if list == [] then [] else [Node(list[0].suffix, Sort(list[0].prefix))] + SortEach(list[1..])
  }

  lemma {:induction false} GetEach(list: seq<Node>, seg: bytes)
    ensures var g := Get(list, seg);
      Get(SortEach(list), seg) == if g.None? then None else Some(Node(seg, Sort(g.value.prefix)))
  {
    hide Sort;
    if list != [] {
      GetEach(list[1..], seg);
      assert SortEach(list)[1..] == SortEach(list[1..]);
    }
  }

  /** What loading does at its end: sort the top level, and the level under it. */
  function Arranged(list: seq<Node>): (r: seq<Node>) {
    SortEach(Sort(list))
  }

  /** It moves nothing, and below the second level it changes nothing. */
  lemma LocateArranged(list: seq<Node>, path: seq<bytes>)
    requires path != []
    ensures var n := Locate(list, path);
      Locate(Arranged(list), path) ==
        if n.None? then None
        else if |path| == 1 then Some(Node(n.value.suffix, Sort(n.value.prefix)))
        else n
  {
    hide Get, Sort, SortEach;
    GetSort(list, path[0]);
    GetEach(Sort(list), path[0]);
    var g := Get(list, path[0]);
    if g.Some? && |path| > 1 {
      GetSort(g.value.prefix, path[1]);
    }
  }

  /** Every list of siblings is ascending. */
  ghost predicate AllAscending(list: seq<Node>) {
    Ascending(list) && forall path :: path != [] && Locate(list, path).Some? ==>
      Ascending(Locate(list, path).value.prefix)
  }

  /** Those of the third level and below are. */
  ghost predicate DeepAscending(list: seq<Node>) {
    forall path :: |path| >= 2 && Locate(list, path).Some? ==> Ascending(Locate(list, path).value.prefix)
  }

  lemma LocateTop(list: seq<Node>, path: seq<bytes>)
    requires |path| == 1 && Locate(list, path).Some?
    ensures Locate(list, path).value in list
  {
  }

  lemma ArrangedAscending(list: seq<Node>)
    requires Upper(list) && DeepAscending(list)
    ensures AllAscending(Arranged(list))
  {
    hide Locate, Sort, Less;
    AscendingSort(list);
    assert Ascending(Arranged(list)) by {
      var t := Sort(list);
      assert forall i :: 0 <= i < |t| ==> Arranged(list)[i].suffix == t[i].suffix;
    }
    forall path | path != [] && Locate(Arranged(list), path).Some?
      ensures Ascending(Locate(Arranged(list), path).value.prefix)
    {
      LocateArranged(list, path);
      if |path| == 1 {
        LocateTop(list, path);
        AscendingSort(Locate(list, path).value.prefix);
      }
    }
  }

  // ---- matching ----

  /** `is_match`, from the node reached (none yet at the top) and the labels still ahead; the last of
      these is the leftmost, the one no dot follows. */
  function Decide(domains: seq<Node>, link: Option<Node>, level: nat, labels: seq<bytes>): (r: bool)
    requires labels != []
    decreases |labels|
  {
    var list := if link.None? then domains else link.value.prefix;
    var found := Find(list, labels[0]);
    if |labels| == 1 then
      (link.Some? && list == []) || (found.Some? && found.value.prefix == [])
    else if found.None? then
      link.Some? && !IsTop(link.value.suffix) && level > 2
    else
      Decide(domains, found, level + 1, labels[1..])
  }

  /** A listed path no listed path goes beyond. */
  ghost predicate IsLeaf(paths: seq<seq<bytes>>, q: seq<bytes>) {
    q != [] && Listed(paths, q) && forall i :: 0 <= i < |paths| && q <= paths[i] ==> q == paths[i]
  }

  /** How many of the first `k` labels begin some listed path. */
  ghost function Reach(paths: seq<seq<bytes>>, q: seq<bytes>, k: nat): (j: nat)
    requires k <= |q|
    ensures j <= k
  {
    if k == 0 || Listed(paths, q[..k]) then k else Reach(paths, q, k - 1)
  }

  /** What is matched, said of the list alone: names that run into the end of a listed domain, or leave
      the listed domains after two labels or more, at one that is not generic. */
  ghost predicate Matches(paths: seq<seq<bytes>>, q: seq<bytes>)
    requires q != []
  {
    var k := |q| - 1;
    var j := Reach(paths, q, k);
    if j < k then j >= 2 && !IsTop(q[j - 1]) else IsLeaf(paths, q[..k]) || IsLeaf(paths, q)
  }

  function Loaded(paths: seq<seq<bytes>>): (r: seq<Node>) {
    Arranged(InsertAll([], paths))
  }

  lemma LoadedIn(paths: seq<seq<bytes>>, q: seq<bytes>)
    requires q != []
    ensures Locate(Loaded(paths), q).Some? <==> Listed(paths, q)
  {
    hide Locate, InsertAll, Arranged, Listed;
    LocateArranged(InsertAll([], paths), q);
    InsertAllIn(paths, q);
  }

  lemma Beyond(paths: seq<seq<bytes>>, q: seq<bytes>, seg: bytes)
    requires IsLeaf(paths, q)
    ensures !Listed(paths, q + [seg])
  {
  }

  lemma LoadedLeaf(paths: seq<seq<bytes>>, q: seq<bytes>)
    requires q != [] && Locate(Loaded(paths), q).Some?
    ensures Locate(Loaded(paths), q).value.prefix == [] <==> IsLeaf(paths, q)
  {
    hide Locate, Loaded;
    LoadedIn(paths, q);
    LeafIff(Loaded(paths), q);
    if IsLeaf(paths, q) {
      forall seg
        ensures !In(Loaded(paths), q + [seg])
      {
        LoadedIn(paths, q + [seg]);
        Beyond(paths, q, seg);
      }
    } else {
      var i :| 0 <= i < |paths| && q <= paths[i] && q != paths[i];
      var seg := paths[i][|q|];
      assert q + [seg] <= paths[i];
      LoadedIn(paths, q + [seg]);
      assert In(Loaded(paths), q + [seg]);
    }
  }

  lemma ListedShorter(paths: seq<seq<bytes>>, q: seq<bytes>, j: nat, k: nat)
    requires j <= k <= |q|
    ensures Listed(paths, q[..k]) ==> Listed(paths, q[..j])
  {
  }

  lemma {:induction false} ReachStops(paths: seq<seq<bytes>>, q: seq<bytes>, d: nat, k: nat)
    requires d < k <= |q| && Listed(paths, q[..d]) && !Listed(paths, q[..d + 1])
    ensures Reach(paths, q, k) == d
    decreases k
  {
    ListedShorter(paths, q, d + 1, k);
    if k > d + 1 {
      ReachStops(paths, q, d, k - 1);
    }
  }

  /** The node the walk has reached after `d` labels. */
  function Reached(t: seq<Node>, q: seq<bytes>, d: nat): (r: Option<Node>)
    requires d <= |q|
  {
    if d == 0 then None else Locate(t, q[..d])
  }

  lemma {:induction false} LocateSuffix(list: seq<Node>, path: seq<bytes>)
    requires path != [] && Locate(list, path).Some?
    ensures Locate(list, path).value.suffix == path[|path| - 1]
    decreases |path|
  {
    if |path| > 1 {
      LocateSuffix(Get(list, path[0]).value.prefix, path[1..]);
    }
  }

  lemma FindNext(paths: seq<seq<bytes>>, q: seq<bytes>, d: nat)
    requires AllAscending(Loaded(paths)) && d < |q| && Listed(paths, q[..d])
    ensures var t := Loaded(paths);
      var link := Reached(t, q, d);
      && (d > 0 ==> link.Some? && link.value.suffix == q[d - 1])
      && Find(if link.None? then t else link.value.prefix, q[d]) == Reached(t, q, d + 1)
  {
    hide Loaded, Find, Get, Listed, Ascending;
    var t := Loaded(paths);
    if d == 0 {
      assert q[..1] == [q[0]];
      FindIsGet(t, q[0]);
    } else {
      LoadedIn(paths, q[..d]);
      LocateSuffix(t, q[..d]);
      LocateAppend(t, q[..d], q[d]);
      assert q[..d + 1] == q[..d] + [q[d]];
      FindIsGet(Locate(t, q[..d]).value.prefix, q[d]);
    }
  }

  lemma AtTheEnd(paths: seq<seq<bytes>>, q: seq<bytes>)
    requires q != [] && Listed(paths, q[..|q| - 1])
    ensures var t, k := Loaded(paths), |q| - 1;
      && Reach(paths, q, k) == k
      && (k > 0 ==> Locate(t, q[..k]).Some? && (Locate(t, q[..k]).value.prefix == [] <==> IsLeaf(paths, q[..k])))
      && (Locate(t, q).Some? && Locate(t, q).value.prefix == [] <==> IsLeaf(paths, q))
      && q[..k + 1] == q
  {
    hide Loaded, Locate;
    var k := |q| - 1;
    assert q[..k + 1] == q;
    if k > 0 {
      LoadedIn(paths, q[..k]);
      LoadedLeaf(paths, q[..k]);
    }
    LoadedIn(paths, q);
    if Locate(Loaded(paths), q).Some? {
      LoadedLeaf(paths, q);
    }
  }

  /** The bisecting walk over the trie decides exactly what the list says. */
  lemma {:induction false} DecideIs(paths: seq<seq<bytes>>, q: seq<bytes>, d: nat)
    requires AllAscending(Loaded(paths)) && d < |q| && Listed(paths, q[..d])
    ensures Decide(Loaded(paths), Reached(Loaded(paths), q, d), d + 1, q[d..]) <==> Matches(paths, q)
    decreases |q| - d
  {
    hide Loaded, Find, Listed, AllAscending, Locate, IsTop;
    var t, k := Loaded(paths), |q| - 1;
    FindNext(paths, q, d);
    LoadedIn(paths, q[..d + 1]);
    if d == k {
      AtTheEnd(paths, q);
    } else if Listed(paths, q[..d + 1]) {
      DecideIs(paths, q, d + 1);
      assert q[d..][1..] == q[d + 1..];
    } else {
      ReachStops(paths, q, d, k);
    }
  }

  // ---- the order the list has to be in ----

  /** Below the second level, a label new among its siblings is greater than those listed before it. */
  ghost predicate InOrder(paths: seq<seq<bytes>>) {
    forall i, j, d ::
      && 0 <= i < j < |paths| && 2 <= d < |paths[i]| && d < |paths[j]|
      && paths[i][..d] == paths[j][..d] && !Listed(paths[..j], paths[j][..d + 1])
      ==> Less(paths[i][d], paths[j][d])
  }

  lemma {:induction false} InsertLast(list: seq<Node>, path: seq<bytes>)
    requires path != []
    ensures var r := Insert(list, path);
      if Get(list, path[0]).None? then r == list + [Node(path[0], Insert([], path[1..]))]
      else |r| == |list| && forall i :: 0 <= i < |r| ==> r[i].suffix == list[i].suffix
    decreases |list|
  {
    if list != [] && list[0].suffix != path[0] {
      InsertLast(list[1..], path);
    }
  }

  lemma AscendingInsert(list: seq<Node>, path: seq<bytes>)
    requires Ascending(list)
    requires path == [] || Get(list, path[0]).Some? || forall i :: 0 <= i < |list| ==> Less(list[i].suffix, path[0])
    ensures Ascending(Insert(list, path))
  {
    hide Less, Get, Insert;
    if path == [] {
      InsertNothing(list);
    } else {
      InsertLast(list, path);
    }
  }

  /** A label new to the children of `q` is greater than all of them. */
  lemma NewIsGreater(paths: seq<seq<bytes>>, n: nat, q: seq<bytes>)
    requires n < |paths| && InOrder(paths) && 2 <= |q| < |paths[n]| && q <= paths[n]
    requires Locate(InsertAll([], paths[..n]), q).Some?
    ensures var c, b := Locate(InsertAll([], paths[..n]), q).value.prefix, paths[n][|q|];
      Get(c, b).Some? || forall i :: 0 <= i < |c| ==> Less(c[i].suffix, b)
  {
    hide InsertAll, Locate, Less;
    var t, b, d := InsertAll([], paths[..n]), paths[n][|q|], |q|;
    var c := Locate(t, q).value.prefix;
    LocateAppend(t, q, b);
    InsertAllIn(paths[..n], q + [b]);
    assert q + [b] == paths[n][..d + 1];
    if Get(c, b).None? {
      forall i | 0 <= i < |c|
        ensures Less(c[i].suffix, b)
      {
        var a := c[i].suffix;
        LocateAppend(t, q, a);
        GetNone(c, a);
        InsertAllIn(paths[..n], q + [a]);
        var h :| 0 <= h < n && q + [a] <= paths[..n][h];
        assert paths[h][..d] == q == paths[n][..d] && paths[h][d] == a;
        assert !Listed(paths[..n], paths[n][..d + 1]);
        assert Less(paths[h][d], paths[n][d]);
      }
    }
  }

  /** Then all siblings end up ascending, below the levels that are sorted. */
  lemma {:induction false} InOrderAscends(paths: seq<seq<bytes>>)
    requires InOrder(paths)
    ensures DeepAscending(InsertAll([], paths))
  {
    hide Insert, Less, Locate;
    if paths == [] {
      forall q | |q| >= 2
        ensures Locate([], q).None?
      {
        NothingIn(q);
      }
    } else {
      var n := |paths| - 1;
      var t, path := InsertAll([], paths[..n]), paths[n];
      assert InOrder(paths[..n]) by {
        assert forall j :: 0 <= j < n ==> paths[..n][..j] == paths[..j];
      }
      InOrderAscends(paths[..n]);
      forall q | |q| >= 2 && Locate(Insert(t, path), q).Some?
        ensures Ascending(Locate(Insert(t, path), q).value.prefix)
      {
        LocateInsert(t, path, q);
        if q <= path {
          if |q| < |path| && Locate(t, q).Some? {
            NewIsGreater(paths, n, q);
          }
          AscendingInsert(ChildrenAt(t, q), path[|q|..]);
        }
      }
    }
  }

  lemma LoadedAscends(paths: seq<seq<bytes>>)
    requires InOrder(paths)
    ensures AllAscending(Loaded(paths))
  {
    hide InOrder, InsertAll, DeepAscending, AllAscending;
    InOrderAscends(paths);
    UpperAll([], paths);
    ArrangedAscending(InsertAll([], paths));
  }

  // ---- what is matched ----

  /** Over a list in order, the bisecting walk decides exactly what the list says, for every name. */
  lemma WalkIsExact(paths: seq<seq<bytes>>, q: seq<bytes>)
    requires InOrder(paths) && q != []
    ensures Decide(Loaded(paths), None, 1, q) <==> Matches(paths, q)
  {
    hide Loaded, Matches, InOrder, AllAscending, Decide;
    LoadedAscends(paths);
    assert q[..0] == [] && q[0..] == q;
    DecideIs(paths, q, 0);
  }

  /** Completeness: a listed domain of two labels or more that no listed domain extends, and whose
      leftmost label is not generic, is matched, and so is every name under it. */
  lemma SubdomainsMatch(paths: seq<seq<bytes>>, p: seq<bytes>, q: seq<bytes>)
    requires IsLeaf(paths, p) && |p| >= 2 && !IsTop(p[|p| - 1]) && p <= q
    ensures Matches(paths, q)
  {
    hide IsTop;
    var k := |q| - 1;
    assert q[..|p|] == p;
    if |p| == |q| {
      assert p == q;
      ListedShorter(paths, q, k, k + 1);
      assert q[..k + 1] == q;
    } else {
      assert q[..|p| + 1] == p + [q[|p|]];
      Beyond(paths, p, q[|p|]);
      if k > |p| {
        ReachStops(paths, q, |p|, k);
      }
    }
  }

  /** The name is a listed domain or lies under one. */
  ghost predicate Covered(paths: seq<seq<bytes>>, q: seq<bytes>) {
    exists i :: 0 <= i < |paths| && paths[i] <= q
  }

  lemma LeafCovers(paths: seq<seq<bytes>>, q: seq<bytes>, m: nat)
    requires m <= |q|
    ensures IsLeaf(paths, q[..m]) ==> Covered(paths, q)
  {
  }

  lemma {:induction false} ReachIsLast(paths: seq<seq<bytes>>, q: seq<bytes>, k: nat, m: nat)
    requires m <= k <= |q|
    ensures Listed(paths, q[..m]) ==> m <= Reach(paths, q, k)
    decreases k
  {
    if m < k {
      ReachIsLast(paths, q, k - 1, m);
    }
  }

  lemma CoveredIff(paths: seq<seq<bytes>>, q: seq<bytes>, j: nat)
    requires q != [] && j == Reach(paths, q, |q| - 1) < |q| - 1
    ensures Covered(paths, q) <==> exists m :: 0 <= m <= j && q[..m] in paths
  {
    if Covered(paths, q) {
      var i :| 0 <= i < |paths| && paths[i] <= q;
      var m := |paths[i]|;
      assert q[..m] == paths[i] && Listed(paths, q[..m]);
      ReachIsLast(paths, q, |q| - 1, if m < |q| then m else |q| - 1);
      ListedShorter(paths, q, |q| - 1, |q|);
      assert q[..|q|] == q;
    }
  }

  /** Too much is matched exactly where a name leaves the listed domains beside one of them: at least two
      of its labels begin some listed domain, the last of these is not generic and not the end of one. */
  lemma OverMatchIff(paths: seq<seq<bytes>>, q: seq<bytes>)
    requires q != []
    ensures var j := Reach(paths, q, |q| - 1);
      (Matches(paths, q) && !Covered(paths, q))
      <==> 2 <= j < |q| - 1 && !IsTop(q[j - 1]) && forall m :: 0 <= m <= j ==> q[..m] !in paths
  {
    hide IsTop;
    var k := |q| - 1;
    var j := Reach(paths, q, k);
    if j == k {
      LeafCovers(paths, q, k);
      LeafCovers(paths, q, k + 1);
      assert q[..k + 1] == q;
    } else {
      CoveredIff(paths, q, j);
    }
  }

  const OTHERS: bytes := [111, 116, 104, 101, 114, 115]
  const API: bytes := [97, 112, 105]
  const WWW: bytes := [119, 119, 119]

  lemma NotGeneric()
    ensures !IsTop(OTHERS)
  {
  }

  /** As x.www.others.com does where api.others.com is all there is. */
  lemma BesideListed(x: bytes)
    ensures var paths, q := [[COM, OTHERS, API]], [COM, OTHERS, WWW, x];
      Decide(Loaded(paths), None, 1, q) && !Covered(paths, q)
  {
    hide Decide, Loaded, IsTop;
    var paths, q := [[COM, OTHERS, API]], [COM, OTHERS, WWW, x];
    assert q[..3][2] == WWW && q[..2] == [COM, OTHERS] == paths[0][..2];
    assert !IsTop(OTHERS) by { NotGeneric(); }
    assert Reach(paths, q, 3) == 2;
    WalkIsExact(paths, q);
    assert paths[0][2] != q[2];
  }

  // ---- the matcher ----

  /** The labels of a name from the right, `seg` being the part of the next one already read. */
  function Labels(s: bytes, seg: bytes): (r: seq<bytes>)
    ensures r != []
    decreases |s|
  {
    if s == [] then [seg]
    else
      var n := |s| - 1;
      if s[n] == DOT then [seg] + Labels(s[..n], []) else Labels(s[..n], [s[n]] + seg)
  }

  /** The path a line stands for: its labels, without an empty leftmost one. */
  function Path(line: bytes): (r: seq<bytes>) {
    var l := Labels(line, []);
    if l[|l| - 1] == [] then l[..|l| - 1] else l
  }

  lemma {:induction false} LabelsUnder(x: bytes, line: bytes, seg: bytes)
    ensures Labels(x + [DOT] + line, seg) == Labels(line, seg) + Labels(x, [])
    decreases |line|
  {
    var s := x + [DOT] + line;
    var n := |s| - 1;
    if line == [] {
      assert s[..n] == x;
    } else {
      var m := |line| - 1;
      assert s[..n] == x + [DOT] + line[..m];
      LabelsUnder(x, line[..m], if line[m] == DOT then [] else [line[m]] + seg);
    }
  }

  predicate Allowed(c: byte) {
    97 <= c <= 122 || 65 <= c <= 90 || 48 <= c <= 57 || c == 45 || c == DOT
  }

  datatype Scan = Scan(lines: seq<bytes>, line: bytes)

  function Closed(t: Scan): (r: seq<bytes>) {
    if t.line == [] then t.lines else t.lines + [t.line]
  }

  /** The lines read from a text, the last one unfinished. */
  function Scanned(s: bytes): (r: Scan) {
    if s == [] then Scan([], [])
    else
      var n := |s| - 1;
      var t := Scanned(s[..n]);
      if s[n] == LF then Scan(Closed(t), []) else if Allowed(s[n]) then t.(line := t.line + [s[n]]) else t
  }

  function Lines(s: bytes): (r: seq<bytes>) {
    Closed(Scanned(s))
  }

  function Paths(lines: seq<bytes>): (r: seq<seq<bytes>>)
    ensures |r| == |lines|
    ensures forall i :: 0 <= i < |r| ==> r[i] == Path(lines[i])
  {
    if lines == [] then [] else Paths(lines[..|lines| - 1]) + [Path(lines[|lines| - 1])]
  }

  lemma PathsAppend(lines: seq<bytes>, line: bytes)
    ensures Paths(lines + [line]) == Paths(lines) + [Path(line)]
  {
  }

  /** A loaded text makes a name under one of its lines match, as the list promises. */
  lemma LoadedTextMatches(text: bytes, line: bytes, x: bytes)
    requires InOrder(Paths(Lines(text)))
    requires line != [] && line[0] != DOT && IsLeaf(Paths(Lines(text)), Path(line))
    requires |Path(line)| >= 2 && !IsTop(Path(line)[|Path(line)| - 1])
    ensures Decide(Loaded(Paths(Lines(text))), None, 1, Labels(line, []))
    ensures Decide(Loaded(Paths(Lines(text))), None, 1, Labels(x + [DOT] + line, []))
  {
    hide InOrder, Loaded, Matches, Decide, IsTop, IsLeaf, Lines, Labels;
    var paths := Paths(Lines(text));
    LabelsUnder(x, line, []);
    var q := Labels(line, []) + Labels(x, []);
    SubdomainsMatch(paths, Path(line), Labels(line, []));
    SubdomainsMatch(paths, Path(line), q);
    WalkIsExact(paths, Labels(line, []));
    WalkIsExact(paths, q);
  }

  class DomainMatcher {
    var domains: seq<Node>

    constructor ()
      ensures domains == []
    {
      domains := [];
    }

    method ParseLine(line: bytes)
      modifies this
      ensures domains == if line == [] then old(domains) else Insert(old(domains), Path(line))
    {
      if |line| == 0 {
        return;
      }
      var path, seg: bytes, r := [], [], |line|;
      assert line[..r] == line;
      while r > 0
        invariant 0 <= r <= |line|
        invariant Labels(line, []) == path + Labels(line[..r], seg)
      {
        r := r - 1;
        assert line[..r + 1][..r] == line[..r];
        if line[r] == DOT {
          path := path + [seg];
          seg := [];
        } else {
          seg := [line[r]] + seg;
        }
      }
      if |seg| != 0 {
        path := path + [seg];
      }
      domains := Insert(domains, path);
    }

    /** The number of lines loaded is the result. */
    method LoadFromStream(text: bytes) returns (loadedCount: nat)
      modifies this
      ensures loadedCount == |Lines(text)|
      ensures domains == Arranged(InsertAll(old(domains), Paths(Lines(text))))
    {
      hide Insert, Path, Allowed;
      loadedCount := 0;
      var line: bytes, i := [], 0;
      ghost var lines: seq<bytes> := [];
      while i < |text|
        invariant 0 <= i <= |text| && Scan(lines, line) == Scanned(text[..i]) && loadedCount == |lines|
        invariant domains == InsertAll(old(domains), Paths(lines))
      {
        assert text[..i + 1][..i] == text[..i];
        if text[i] == LF {
          if |line| != 0 {
            loadedCount := loadedCount + 1;
            ParseLine(line);
            PathsAppend(lines, line);
            lines := lines + [line];
            line := [];
          }
        } else if Allowed(text[i]) {
          line := line + [text[i]];
        }
        i := i + 1;
      }
      assert text[..i] == text;
      if |line| != 0 {
        loadedCount := loadedCount + 1;
        ParseLine(line);
        PathsAppend(lines, line);
      }
      domains := Arranged(domains);
    }

    method IsMatch(domain: bytes) returns (b: bool)
      ensures b <==> domain != [] && Decide(domains, None, 1, Labels(domain, []))
    {
      hide Find, IsTop;
      if |domain| == 0 {
        return false;
      }
      var seg: bytes, link: Option<Node>, level, r := [], None, 1, |domain|;
      assert domain[..r] == domain;
      while r > 0
        invariant 0 <= r <= |domain| && level >= 1
        invariant link.Some? <==> level > 1
        invariant Decide(domains, None, 1, Labels(domain, [])) == Decide(domains, link, level, Labels(domain[..r], seg))
      {
        r := r - 1;
        assert domain[..r + 1][..r] == domain[..r];
        if domain[r] == DOT {
          var ahead := Labels(domain[..r], []);
          assert ([seg] + ahead)[1..] == ahead;
          var isTop := link.None? || IsTop(link.value.suffix);
          link := Find(if link.None? then domains else link.value.prefix, seg);
          if link.None? {
            return !isTop && level > 2;
          }
          level := level + 1;
          seg := [];
        } else {
          seg := [domain[r]] + seg;
        }
      }
      if level > 1 && link.value.prefix == [] {
        return true;
      }
      link := Find(if level == 1 then domains else link.value.prefix, seg);
      return link.Some? && link.value.prefix == [];
    }
  }
}

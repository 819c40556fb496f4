/** Pipelines in `Service`: keeping a fixed number of them per server configuration, interleaving the
    configurations in place, and the rotating choice for a new session. */
module Scheduler {
  import opened Bytes

  /** `config` 0 is the main configuration, the others are the load-balance ones. A pipeline that is
      not `alive` is an expired weak pointer still in the list. */
  datatype Pipeline = Pipeline(config: nat, serial: nat, alive: bool, connected: bool)

  // ---- counting ----

  /** How many pipelines of a configuration are in the list. */
  function Count(s: seq<Pipeline>, c: nat): (n: nat) {
    if s == [] then 0 else B(s[0].config == c) + Count(s[1..], c)
  }

  lemma {:induction false} CountSplit(a: seq<Pipeline>, b: seq<Pipeline>, c: nat)
    ensures Count(a + b, c) == Count(a, c) + Count(b, c)
  {
    if a == [] {
      assert a + b == b;
    } else {
      assert (a + b)[1..] == a[1..] + b;
      CountSplit(a[1..], b, c);
    }
  }

  lemma CountOne(p: Pipeline, c: nat)
    ensures Count([p], c) == B(p.config == c)
  {
  }

  lemma {:induction false} CountPositive(s: seq<Pipeline>, c: nat) returns (j: nat)
    requires Count(s, c) > 0
    ensures j < |s| && s[j].config == c
  {
    if s[0].config == c {
      j := 0;
    } else {
      var m := CountPositive(s[1..], c);
      j := m + 1;
    }
  }

  function Swap(s: seq<Pipeline>, i: nat, j: nat): (t: seq<Pipeline>)
    requires i < |s| && j < |s|
  {
    s[i := s[j]][j := s[i]]
  }

  lemma CountFive(a: seq<Pipeline>, p: Pipeline, m: seq<Pipeline>, q: Pipeline, z: seq<Pipeline>, c: nat)
    ensures Count(a + ([p] + (m + ([q] + z))), c)
         == Count(a, c) + B(p.config == c) + Count(m, c) + B(q.config == c) + Count(z, c)
  {
    CountSplit(a, [p] + (m + ([q] + z)), c);
    CountSplit([p], m + ([q] + z), c);
    CountSplit(m, [q] + z, c);
    CountSplit([q], z, c);
    CountOne(p, c);
    CountOne(q, c);
  }

  lemma SwapCount(s: seq<Pipeline>, i: nat, j: nat, c: nat)
    requires i < j < |s|
    ensures Count(Swap(s, i, j), c) == Count(s, c)
    ensures Swap(s, i, j)[..i] == s[..i] && |Swap(s, i, j)| == |s|
  {
    var t := Swap(s, i, j);
    var a, m, z := s[..i], s[i + 1..j], s[j + 1..];
    assert s == a + ([s[i]] + (m + ([s[j]] + z)));
    assert t == a + ([s[j]] + (m + ([s[i]] + z)));
    CountFive(a, s[i], m, s[j], z, c);
    CountFive(a, s[j], m, s[i], z, c);
  }

  // ---- positions ----

  /** `q` rounds of `k` positions. */
  function Times(q: nat, k: nat): (n: nat) {
    if q == 0 then 0 else Times(q - 1, k) + k
  }

  /** The place of position `i` in its round: `i % k`. */
  function Slot(i: nat, k: nat): (r: nat)
    requires k > 0
    ensures r < k
  {
    if i == 0 then 0 else if Slot(i - 1, k) + 1 == k then 0 else Slot(i - 1, k) + 1
  }

  /** The round of position `i`: `i / k`. */
  function Round(i: nat, k: nat): (q: nat)
    requires k > 0
  {
    if i == 0 then 0 else if Slot(i - 1, k) + 1 == k then Round(i - 1, k) + 1 else Round(i - 1, k)
  }

  lemma {:induction false} Position(i: nat, k: nat)
    requires k > 0
    ensures i == Times(Round(i, k), k) + Slot(i, k)
  {
    if i > 0 {
      Position(i - 1, k);
    }
  }

  lemma {:induction false} TimesMonotone(a: nat, b: nat, k: nat)
    requires a <= b
    ensures Times(a, k) <= Times(b, k)
    ensures a < b ==> Times(a, k) + k <= Times(b, k)
    decreases b
  {
    if a < b {
      TimesMonotone(a, b - 1, k);
    }
  }

  /** A position before `m` full rounds is in one of them, and conversely. */
  lemma InRound(i: nat, m: nat, k: nat)
    requires k > 0
    ensures i < Times(m, k) <==> Round(i, k) < m
  {
    Position(i, k);
    if Round(i, k) < m {
      TimesMonotone(Round(i, k), m, k);
    } else {
      TimesMonotone(m, Round(i, k), k);
    }
  }

  lemma Boundary(m: nat, k: nat)
    requires k > 0
    ensures Round(Times(m, k), k) == m && Slot(Times(m, k), k) == 0
  {
    var i := Times(m, k);
    Position(i, k);
    InRound(i, m, k);
    InRound(i, m + 1, k);
  }

  lemma {:induction false} TimesIsProduct(q: nat, k: nat)
    ensures Times(q, k) == q * k
  {
    if q > 0 {
      TimesIsProduct(q - 1, k);
      assert (q - 1) * k + k == q * k;
    }
  }

  lemma Remainder(x: nat, k: nat, q: nat, r: nat)
    requires r < k && x == q * k + r
    ensures x % k == r
  {
    var d := x / k - q;
    assert d * k == r - x % k by {
      assert x == (x / k) * k + x % k;
      assert d * k == (x / k) * k - q * k;
    }
    assert d >= 1 ==> d * k >= k;
    assert d <= -1 ==> d * k + k <= 0;
  }

  lemma SlotIsMod(i: nat, k: nat)
    requires k > 0
    ensures Slot(i, k) == i % k
  {
    Position(i, k);
    TimesIsProduct(Round(i, k), k);
    Remainder(i, k, Round(i, k), Slot(i, k));
  }

  // ---- the arrangement ----

  /** `n` of each of the `k` configurations, and nothing else. */
  ghost predicate Balanced(s: seq<Pipeline>, n: nat, k: nat) {
    && |s| == Times(n, k)
    && (forall c :: 0 <= c < k ==> Count(s, c) == n)
  }

  /** The first `m` positions repeat the configurations in order. */
  ghost predicate Cyclic(s: seq<Pipeline>, k: nat, m: int)
    requires k > 0
  {
    forall i :: 0 <= i < m && i < |s| ==> s[i].config == Slot(i, k)
  }

  /** Position `i` is preceded by one pipeline of each configuration per full round, and one more of
      the configurations already placed in its own round. */
  lemma {:induction false} CyclicCount(s: seq<Pipeline>, k: nat, i: nat, c: nat)
    requires c < k && i <= |s| && Cyclic(s, k, i)
    ensures Count(s[..i], c) == Round(i, k) + B(c < Slot(i, k))
  {
    if i > 0 {
      assert s[..i] == s[..i - 1] + [s[i - 1]];
      CountSplit(s[..i - 1], [s[i - 1]], c);
      CountOne(s[i - 1], c);
      CyclicCount(s, k, i - 1, c);
    }
  }

  /** While a whole round is left to place, a pipeline of the wanted configuration lies further on. */
  lemma NextExists(s: seq<Pipeline>, n: nat, k: nat, i: nat) returns (j: nat)
    requires k > 0 && n > 0 && Balanced(s, n, k) && i < Times(n - 1, k) && Cyclic(s, k, i)
    ensures i < j < |s| && s[j].config == Slot(i, k)
  {
    var r := Slot(i, k);
    InRound(i, n - 1, k);
    assert i < |s|;
    CyclicCount(s, k, i, r);
    assert s == s[..i] + ([s[i]] + s[i + 1..]);
    CountSplit(s[..i], [s[i]] + s[i + 1..], r);
    CountSplit([s[i]], s[i + 1..], r);
    CountOne(s[i], r);
    var m := CountPositive(s[i + 1..], r);
    j := i + 1 + m;
  }

  lemma CyclicShorter(s: seq<Pipeline>, k: nat, m: int, l: int)
    requires k > 0 && l <= m && Cyclic(s, k, m)
    ensures Cyclic(s, k, l)
  {
  }

  /** Every aligned block of `k` positions has each configuration exactly once. */
  lemma Blocks(s: seq<Pipeline>, n: nat, k: nat, q: nat, c: nat)
    requires q < n && c < k && Balanced(s, n, k) && Cyclic(s, k, Times(n - 1, k))
    ensures Times(q + 1, k) <= |s| && Count(s[Times(q, k)..Times(q + 1, k)], c) == 1
  {
    hide Count, Round, Slot, Cyclic;
    var lo, hi := Times(q, k), Times(q + 1, k);
    TimesMonotone(q + 1, n, k);
    TimesMonotone(q, n - 1, k);
    CyclicShorter(s, k, Times(n - 1, k), lo);
    assert s[..hi] == s[..lo] + s[lo..hi];
    CountSplit(s[..lo], s[lo..hi], c);
    Boundary(q, k);
    CyclicCount(s, k, lo, c);
    if q + 1 < n {
      TimesMonotone(q + 1, n - 1, k);
      CyclicShorter(s, k, Times(n - 1, k), hi);
      Boundary(q + 1, k);
      CyclicCount(s, k, hi, c);
    } else {
      assert s[..hi] == s;
    }
  }

  // ---- replenishing ----

  /** The pipelines that are not expired, in order. */
  function Live(s: seq<Pipeline>): (r: seq<Pipeline>) {
    if s == [] then [] else Live(s[..|s| - 1]) + (if s[|s| - 1].alive then [s[|s| - 1]] else [])
  }

  predicate AllAlive(s: seq<Pipeline>) {
    forall i :: 0 <= i < |s| ==> s[i].alive
  }

  lemma {:induction false} LiveOfAlive(s: seq<Pipeline>)
    ensures AllAlive(Live(s)) && |Live(s)| <= |s|
    ensures AllAlive(s) <==> Live(s) == s
    ensures AllAlive(s) <==> |Live(s)| == |s|
  {
    if s != [] {
      var t := s[..|s| - 1];
      LiveOfAlive(t);
      assert s == t + [s[|s| - 1]];
      assert AllAlive(s) ==> AllAlive(t);
    }
  }

  lemma {:induction false} LiveCount(s: seq<Pipeline>, c: nat)
    ensures Count(Live(s), c) <= Count(s, c)
  {
    if s != [] {
      var t, p := s[..|s| - 1], s[|s| - 1];
      LiveCount(t, c);
      assert s == t + [p];
      CountSplit(t, [p], c);
      CountSplit(Live(t), [p], c);
      CountOne(p, c);
      assert Live(t) + [] == Live(t);
    }
  }

  function Deficit(n: nat, have: nat): (d: nat) {
    if have < n then n - have else 0
  }

  /** How many pipelines have a configuration whose hash is that of configuration 0. */
  function SameHash(s: seq<Pipeline>, hash: nat -> int): (n: nat) {
    if s == [] then 0 else B(hash(s[0].config) == hash(0)) + SameHash(s[1..], hash)
  }

  ghost predicate DistinctHashes(hash: nat -> int, k: nat) {
    forall c :: 0 < c < k ==> hash(c) != hash(0)
  }

  ghost predicate Known(s: seq<Pipeline>, k: nat) {
    forall i :: 0 <= i < |s| ==> s[i].config < k
  }

  lemma {:induction false} SameHashCounts(s: seq<Pipeline>, hash: nat -> int, k: nat)
    requires Known(s, k)
    ensures Count(s, 0) <= SameHash(s, hash)
    ensures DistinctHashes(hash, k) ==> SameHash(s, hash) == Count(s, 0)
  {
    if s != [] {
      assert Known(s[1..], k);
      SameHashCounts(s[1..], hash, k);
    }
  }

  /** What replenishing makes of the count of the main configuration, whose pipelines are counted by
      hash: it reaches `n` exactly when it had `n`, or no other live pipeline shares the hash. */
  lemma MainReachesIff(s: seq<Pipeline>, hash: nat -> int, k: nat, n: nat)
    requires Known(s, k) && Count(s, 0) <= n
    ensures Count(s, 0) + Deficit(n, SameHash(s, hash)) == n
       <==> Count(s, 0) == n || SameHash(s, hash) == Count(s, 0)
  {
    SameHashCounts(s, hash, k);
  }

  /** Fresh pipelines appended for one configuration. */
  function Fresh(c: nat, serial: nat, m: nat): (r: seq<Pipeline>)
    ensures |r| == m && AllAlive(r)
    decreases m
  {
    if m == 0 then [] else [Pipeline(c, serial, true, false)] + Fresh(c, serial + 1, m - 1)
  }

  lemma {:induction false} FreshCount(c: nat, serial: nat, m: nat, d: nat)
    ensures Count(Fresh(c, serial, m), d) == if d == c then m else 0
    decreases m
  {
    if m > 0 {
      FreshCount(c, serial + 1, m - 1, d);
    }
  }

  lemma {:induction false} FreshAppend(c: nat, serial: nat, m: nat)
    ensures Fresh(c, serial, m + 1) == Fresh(c, serial, m) + [Pipeline(c, serial + m, true, false)]
    decreases m
  {
    if m > 0 {
      FreshAppend(c, serial + 1, m - 1);
    }
  }

  lemma {:induction false} TimesZero(n: nat)
    ensures Times(n, 0) == 0
  {
    if n > 0 {
      TimesZero(n - 1);
    }
  }

  lemma {:induction false} TimesNext(n: nat, k: nat)
    ensures Times(n, k + 1) == Times(n, k) + n
  {
    if n > 0 {
      TimesNext(n - 1, k);
    }
  }

  function Without(s: seq<Pipeline>, c: nat): (r: seq<Pipeline>) {
    if s == [] then [] else (if s[0].config == c then [] else [s[0]]) + Without(s[1..], c)
  }

  lemma {:induction false} WithoutCount(s: seq<Pipeline>, c: nat, d: nat)
    requires d != c
    ensures Count(Without(s, c), d) == Count(s, d)
  {
    if s != [] {
      WithoutCount(s[1..], c, d);
      CountSplit(if s[0].config == c then [] else [s[0]], Without(s[1..], c), d);
      CountOne(s[0], d);
    }
  }

  lemma {:induction false} WithoutCounts(s: seq<Pipeline>, c: nat, k: nat)
    requires Known(s, k) && k == c + 1
    ensures |s| == |Without(s, c)| + Count(s, c) && Known(Without(s, c), c)
  {
    if s != [] {
      assert Known(s[1..], k) && s[0].config < k;
      WithoutCounts(s[1..], c, k);
    }
  }

  /** In a full list of `n` per configuration the length is right. */
  lemma {:induction false} LengthFromCounts(s: seq<Pipeline>, n: nat, k: nat)
    requires Known(s, k) && forall c :: 0 <= c < k ==> Count(s, c) == n
    ensures |s| == Times(n, k)
    decreases k
  {
    if k == 0 {
      TimesZero(n);
      assert s == [];
    } else {
      var t := Without(s, k - 1);
      WithoutCounts(s, k - 1, k);
      forall c | 0 <= c < k - 1
        ensures Count(t, c) == n
      {
        WithoutCount(s, k - 1, c);
      }
      LengthFromCounts(t, n, k - 1);
      TimesNext(n, k - 1);
    }
  }

  // ---- the service ----

  /** The list a full round of preparation aims at. */
  ghost predicate Arranged(s: seq<Pipeline>, n: nat, k: nat)
    requires k > 0 && n > 0
  {
    Balanced(s, n, k) && Cyclic(s, k, Times(n - 1, k))
  }

  ghost predicate Full(s: seq<Pipeline>, n: nat, k: nat) {
    forall c :: 0 <= c < k ==> Count(s, c) == n
  }

  ghost predicate NotOver(s: seq<Pipeline>, n: nat, k: nat) {
    forall c :: 0 <= c < k ==> Count(s, c) <= n
  }

  lemma SameConfigs(s: seq<Pipeline>, t: seq<Pipeline>, n: nat, k: nat)
    requires |s| == |t| && forall i :: 0 <= i < |s| ==> s[i].config == t[i].config
    ensures forall c :: Count(s, c) == Count(t, c)
    ensures k > 0 ==> forall m: int :: Cyclic(s, k, m) ==> Cyclic(t, k, m)
  {
  }

  lemma EraseCounts(s: seq<Pipeline>, i: nat, n: nat, k: nat)
    requires i < |s| && Known(s, k) && NotOver(s, n, k)
    ensures var t := s[..i] + s[i + 1..]; Known(t, k) && NotOver(t, n, k) && !Full(t, n, k)
  {
    var t, p := s[..i] + s[i + 1..], s[i];
    assert s == s[..i] + ([p] + s[i + 1..]);
    forall c | 0 <= c < k
      ensures Count(t, c) + B(p.config == c) == Count(s, c)
    {
      CountSplit(s[..i], [p] + s[i + 1..], c);
      CountSplit([p], s[i + 1..], c);
      CountOne(p, c);
      CountSplit(s[..i], s[i + 1..], c);
    }
    assert Count(t, p.config) < n;
  }

  predicate FirstConnected(s: seq<Pipeline>, start: nat, j: nat) {
    start <= j < |s| && s[j].connected && forall i :: start <= i < j ==> !s[i].connected
  }

  predicate NoneConnected(s: seq<Pipeline>, start: nat) {
    forall i :: start <= i < |s| ==> !s[i].connected
  }

  /** The pipeline chosen and the index left behind. */
  ghost predicate Chosen(s: seq<Pipeline>, idx: nat, chosen: nat, after: nat)
    requires s != []
  {
    var start := if idx >= |s| then 0 else idx;
    && chosen < |s|
    && after <= |s| + 1
    && (if idx >= |s| && s[0].connected then chosen == 0 && after == 0
        else if NoneConnected(s, start) then chosen == 0 && after == |s| + 1
        else FirstConnected(s, start, chosen) && after == chosen + 1)
  }

  /** The first position from `j` on with configuration `c`, or the length. */
  function Behind(s: seq<Pipeline>, c: nat, j: nat): (r: nat)
    requires j <= |s|
    ensures j <= r <= |s| && (r < |s| ==> s[r].config == c)
    ensures forall i :: j <= i < r ==> s[i].config != c
    decreases |s| - j
  {
    if j == |s| || s[j].config == c then j else Behind(s, c, j + 1)
  }

  lemma {:induction false} BehindIs(s: seq<Pipeline>, c: nat, from: nat, j: nat)
    requires from <= j <= |s| && (forall i :: from <= i < j ==> s[i].config != c) && (j < |s| ==> s[j].config == c)
    ensures Behind(s, c, from) == j
    decreases j - from
  {
  }

  /** The interleaving loop from position `curr` on: bring the next pipeline of the wanted
      configuration forward, if there is one behind the position. */
  function Turned(s: seq<Pipeline>, k: nat, curr: nat, configIdx: nat): (r: seq<Pipeline>)
    requires curr <= |s|
    decreases |s| - curr
  {
    if curr == |s| then s
    else
      var j := Behind(s, configIdx, curr + 1);
      if j < |s| then Turned(Swap(s, curr, j), k, curr + 1, if configIdx + 1 >= k then 0 else configIdx + 1)
      else Turned(s, k, curr + 1, configIdx)
  }

  lemma SwapKeeps(s: seq<Pipeline>, i: nat, j: nat)
    requires i < j < |s|
    ensures forall c :: Count(Swap(s, i, j), c) == Count(s, c)
    ensures multiset(Swap(s, i, j)) == multiset(s) && |Swap(s, i, j)| == |s|
  {
    forall c
      ensures Count(Swap(s, i, j), c) == Count(s, c)
    {
      SwapCount(s, i, j, c);
    }
  }

  /** Whatever it starts from, the loop only permutes. */
  lemma {:induction false} TurnedPermutes(s: seq<Pipeline>, k: nat, curr: nat, configIdx: nat)
    requires curr <= |s|
    ensures multiset(Turned(s, k, curr, configIdx)) == multiset(s)
    ensures forall c :: Count(Turned(s, k, curr, configIdx), c) == Count(s, c)
    decreases |s| - curr
  {
    hide Count;
    if curr < |s| {
      var j := Behind(s, configIdx, curr + 1);
      if j < |s| {
        SwapKeeps(s, curr, j);
        TurnedPermutes(Swap(s, curr, j), k, curr + 1, if configIdx + 1 >= k then 0 else configIdx + 1);
      } else {
        TurnedPermutes(s, k, curr + 1, configIdx);
      }
    }
  }

  /** The state of the interleaving loop: cyclic as far as it got, or as far as it can get, and the
      wanted configuration in step with the position. */
  ghost predicate UpTo(s: seq<Pipeline>, n: nat, k: nat, curr: nat, configIdx: nat)
    requires n > 0 && k > 0
  {
    && Balanced(s, n, k)
    && Cyclic(s, k, if curr <= Times(n - 1, k) then curr else Times(n - 1, k))
    && (curr <= Times(n - 1, k) ==> configIdx == Slot(curr, k))
  }

  lemma UpToEnd(s: seq<Pipeline>, n: nat, k: nat, curr: nat, configIdx: nat)
    requires n > 0 && k > 0 && UpTo(s, n, k, curr, configIdx) && curr >= |s|
    ensures Arranged(s, n, k)
  {
  }

  lemma UpToStep(s: seq<Pipeline>, n: nat, k: nat, curr: nat, configIdx: nat, found: bool, next: nat)
    requires n > 0 && k > 0 && UpTo(s, n, k, curr, configIdx) && curr < |s| && configIdx < k
    requires found ==> curr < next < |s| && s[next].config == configIdx
    requires !found ==> forall j :: curr < j < |s| ==> s[j].config != configIdx
    ensures found ==> UpTo(Swap(s, curr, next), n, k, curr + 1, if configIdx + 1 >= k then 0 else configIdx + 1)
    ensures !found ==> UpTo(s, n, k, curr + 1, configIdx)
  {
    hide Count, Times;
    if curr < Times(n - 1, k) {
      var j := NextExists(s, n, k, curr);
      assert found;
    }
    if found {
      SwapKeeps(s, curr, next);
      assert Balanced(Swap(s, curr, next), n, k);
    }
  }

  /** From any order of a balanced list it ends arranged. */
  lemma {:induction false} TurnedArranges(s: seq<Pipeline>, n: nat, k: nat, curr: nat, configIdx: nat)
    requires n > 0 && configIdx < k && curr <= |s| && UpTo(s, n, k, curr, configIdx)
    ensures Arranged(Turned(s, k, curr, configIdx), n, k)
    decreases |s| - curr
  {
    hide UpTo, Arranged, Count, Behind;
    if curr == |s| {
      UpToEnd(s, n, k, curr, configIdx);
    } else {
      var j := Behind(s, configIdx, curr + 1);
      UpToStep(s, n, k, curr, configIdx, j < |s|, j);
      if j < |s| {
        TurnedArranges(Swap(s, curr, j), n, k, curr + 1, if configIdx + 1 >= k then 0 else configIdx + 1);
      } else {
        TurnedArranges(s, n, k, curr + 1, configIdx);
      }
    }
  }

  /** The list still starts with the live pipelines it had, and everything in it is alive. */
  ghost predicate Grown(live: seq<Pipeline>, s: seq<Pipeline>, k: nat) {
    live <= s && AllAlive(s) && Known(s, k)
  }

  lemma {:induction false} LiveKnown(s: seq<Pipeline>, k: nat)
    requires Known(s, k)
    ensures Known(Live(s), k)
  {
    if s != [] {
      LiveKnown(s[..|s| - 1], k);
    }
  }

  lemma LiveFacts(s: seq<Pipeline>, n: nat, k: nat)
    requires Known(s, k) && NotOver(s, n, k)
    ensures Known(Live(s), k) && NotOver(Live(s), n, k) && AllAlive(Live(s))
    ensures AllAlive(s) ==> Live(s) == s
  {
    LiveOfAlive(s);
    LiveKnown(s, k);
    forall c | 0 <= c < k
      ensures Count(Live(s), c) <= n
    {
      LiveCount(s, c);
    }
  }

  lemma {:induction false} FreshKnown(c: nat, serial: nat, m: nat)
    ensures forall i :: 0 <= i < m ==> Fresh(c, serial, m)[i].config == c
    decreases m
  {
    if m > 0 {
      FreshKnown(c, serial + 1, m - 1);
    }
  }

  lemma AppendFresh(s: seq<Pipeline>, c: nat, serial: nat, m: nat, k: nat)
    requires c < k && Known(s, k) && AllAlive(s)
    ensures var t := s + Fresh(c, serial, m);
      && Known(t, k) && AllAlive(t)
      && (forall d :: Count(t, d) == Count(s, d) + (if d == c then m else 0))
      && (m == 0 ==> t == s)
  {
    var f := Fresh(c, serial, m);
    FreshKnown(c, serial, m);
    forall d
      ensures Count(s + f, d) == Count(s, d) + (if d == c then m else 0)
    {
      CountSplit(s, f, d);
      FreshCount(c, serial, m, d);
    }
  }

  lemma NotOverMain(live: seq<Pipeline>, hash: nat -> int, k: nat, n: nat)
    requires k > 0 && Known(live, k) && NotOver(live, n, k)
    ensures Count(live, 0) + Deficit(n, SameHash(live, hash)) <= n
  {
    SameHashCounts(live, hash, k);
  }

  lemma Reaches(live: seq<Pipeline>, s: seq<Pipeline>, hash: nat -> int, k: nat, n: nat)
    requires k > 0 && n > 0 && Known(live, k) && NotOver(live, n, k) && Grown(live, s, k)
    requires Count(s, 0) == Count(live, 0) + Deficit(n, SameHash(live, hash))
    requires forall d :: 0 < d < k ==> Count(s, d) == n
    ensures NotOver(s, n, k) && (DistinctHashes(hash, k) ==> Full(s, n, k))
    ensures Full(s, n, k) ==> Balanced(s, n, k)
  {
    hide Count, SameHash;
    NotOverMain(live, hash, k, n);
    SameHashCounts(live, hash, k);
    if Full(s, n, k) {
      LengthFromCounts(s, n, k);
    }
  }

  lemma Kept(live: seq<Pipeline>, before: seq<Pipeline>, after: seq<Pipeline>)
    requires live <= before && multiset(before) == multiset(after) && AllAlive(before)
    ensures multiset(live) <= multiset(after) && AllAlive(after)
  {
    assert before == live + before[|live|..];
    forall i | 0 <= i < |after|
      ensures after[i].alive
    {
      assert after[i] in multiset(after);
      assert after[i] in before;
    }
  }

  lemma SameCounts(before: seq<Pipeline>, after: seq<Pipeline>, n: nat, k: nat)
    requires multiset(before) == multiset(after) && Known(before, k)
    requires forall c :: Count(after, c) == Count(before, c)
    ensures Known(after, k) && |after| == |before|
    ensures NotOver(before, n, k) ==> NotOver(after, n, k)
    ensures Full(after, n, k) <==> Full(before, n, k)
    ensures Balanced(after, n, k) <==> Balanced(before, n, k)
  {
    assert |multiset(after)| == |after| && |multiset(before)| == |before|;
    forall i | 0 <= i < |after|
      ensures after[i].config < k
    {
      assert after[i] in multiset(after);
      assert after[i] in before;
    }
  }

  lemma UpToStart(s: seq<Pipeline>, n: nat, k: nat)
    requires n > 0 && k > 0 && Balanced(s, n, k)
    ensures UpTo(s, n, k, 0, 0)
  {
  }

  class Service {
    const n: nat              // pipeline_num
    const k: nat              // the main configuration and the load-balance ones
    const hash: nat -> int    // Config::compare_hash
    var pipelines: seq<Pipeline>
    var serial: nat
    var selectIdx: nat

    /** Never more than `n` of a configuration; and a list that is full and has no expired entry has
        been arranged, so that preparing it again may leave it alone. */
    ghost predicate Valid()
      reads this
    {
      && n > 0 && k > 0
      && Known(pipelines, k) && NotOver(pipelines, n, k)
      && (k > 1 && AllAlive(pipelines) && Full(pipelines, n, k) ==> Arranged(pipelines, n, k))
    }

    constructor (n: nat, k: nat, hash: nat -> int)
      requires n > 0 && k > 0
      ensures Valid() && pipelines == [] && selectIdx == 0
      ensures this.n == n && this.k == k && this.hash == hash
    {
      this.n, this.k, this.hash := n, k, hash;
      pipelines, serial, selectIdx := [], 0, 0;
      assert Count([], 0) == 0;
    }

    /** `clear_weak_ptr_list`. */
    method ClearExpired() returns (changed: bool)
      modifies `pipelines
      ensures pipelines == Live(old(pipelines))
      ensures changed <==> !AllAlive(old(pipelines))
    {
      var kept: seq<Pipeline> := [];
      var i := 0;
      changed := false;
      while i < |pipelines|
        invariant 0 <= i <= |pipelines| && pipelines == old(pipelines)
        invariant kept == Live(pipelines[..i])
        invariant changed <==> !AllAlive(pipelines[..i])
      {
        assert pipelines[..i + 1][..i] == pipelines[..i];
        if pipelines[i].alive {
          kept := kept + [pipelines[i]];
        } else {
          assert !pipelines[..i + 1][i].alive;
          changed := true;
        }
        i := i + 1;
      }
      assert pipelines[..i] == pipelines;
      pipelines := kept;
    }

    /** The loops that start pipelines for configuration `c` until `have` reaches `n`. */
    method StartPipelines(c: nat, have: nat) returns (changed: bool)
      modifies `pipelines, `serial
      ensures pipelines == old(pipelines) + Fresh(c, old(serial), Deficit(n, have))
      ensures changed <==> have < n
    {
      var curr := have;
      changed := false;
      ghost var m := 0;
      while curr < n
        invariant m == curr - have && serial == old(serial) + m
        invariant (have < n ==> curr <= n) && (have >= n ==> curr == have)
        invariant pipelines == old(pipelines) + Fresh(c, old(serial), m)
        invariant changed <==> m > 0
        decreases n - curr
      {
        FreshAppend(c, old(serial), m);
        pipelines := pipelines + [Pipeline(c, serial, true, false)];
        serial := serial + 1;
        changed := true;
        curr := curr + 1;
        m := m + 1;
      }
    }

    method CountMain() returns (have: nat)
      ensures have == SameHash(pipelines, hash)
    {
      have := 0;
      var i := |pipelines|;
      while i > 0
        invariant 0 <= i <= |pipelines| && have == SameHash(pipelines[i..], hash)
      {
        i := i - 1;
        assert pipelines[i..][1..] == pipelines[i + 1..];
        if hash(pipelines[i].config) == hash(0) {
          have := have + 1;
        }
      }
      assert pipelines[0..] == pipelines;
    }

    method CountConfig(c: nat) returns (have: nat)
      ensures have == Count(pipelines, c)
    {
      have := 0;
      var i := |pipelines|;
      while i > 0
        invariant 0 <= i <= |pipelines| && have == Count(pipelines[i..], c)
      {
        i := i - 1;
        assert pipelines[i..][1..] == pipelines[i + 1..];
        if pipelines[i].config == c {
          have := have + 1;
        }
      }
      assert pipelines[0..] == pipelines;
    }

    /** The in-place interleaving. */
    method Arrange()
      requires n > 0 && k > 0
      modifies `pipelines
      ensures pipelines == Turned(old(pipelines), k, 0, 0)
    {
      var curr, configIdx := 0, 0;
      while curr < |pipelines|
        invariant 0 <= curr <= |pipelines| && 0 <= configIdx < k
        invariant Turned(old(pipelines), k, 0, 0) == Turned(pipelines, k, curr, configIdx)
      {
        var next := curr + 1;
        while next < |pipelines| && pipelines[next].config != configIdx
          invariant curr < next <= |pipelines|
          invariant forall j :: curr < j < next ==> pipelines[j].config != configIdx
        {
          next := next + 1;
        }
        BehindIs(pipelines, configIdx, curr + 1, next);
        if next < |pipelines| {
          pipelines := Swap(pipelines, curr, next);
          configIdx := configIdx + 1;
          if configIdx >= k {
            configIdx := 0;
          }
        }
        curr := curr + 1;
      }
    }

    /** `prepare_pipelines`: drop the expired, start the missing, and interleave if anything changed.
        The main configuration is recognised by its hash, the others by identity. */
    method PreparePipelines()
      requires Valid()
      modifies `pipelines, `serial
      ensures Valid() && AllAlive(pipelines)
      ensures multiset(Live(old(pipelines))) <= multiset(pipelines)
      ensures Count(pipelines, 0) == Count(Live(old(pipelines)), 0) + Deficit(n, SameHash(Live(old(pipelines)), hash))
      ensures forall c :: 0 < c < k ==> Count(pipelines, c) == n
      ensures DistinctHashes(hash, k) ==> Balanced(pipelines, n, k) && (k > 1 ==> Arranged(pipelines, n, k))
    {
      hide Count, Balanced, Cyclic, Times, SameHash, Live, Turned, UpTo;
      ghost var live := Live(pipelines);
      LiveFacts(pipelines, n, k);
      var changed := ClearExpired();
      var have := CountMain();
      var more := StartPipelines(0, have);
      changed := changed || more;
      AppendFresh(live, 0, old(serial), Deficit(n, have), k);
      NotOverMain(live, hash, k, n);
      var c := 1;
      while c < k
        invariant 1 <= c <= k
        invariant Grown(live, pipelines, k)
        invariant Count(pipelines, 0) == Count(live, 0) + Deficit(n, SameHash(live, hash))
        invariant forall d :: 0 < d < c ==> Count(pipelines, d) == n
        invariant forall d :: c <= d < k ==> Count(pipelines, d) == Count(live, d)
        invariant !changed ==> pipelines == old(pipelines)
      {
        ghost var before := pipelines;
        have := CountConfig(c);
        ghost var s := serial;
        more := StartPipelines(c, have);
        changed := changed || more;
        AppendFresh(before, c, s, Deficit(n, have), k);
        c := c + 1;
      }
      Reaches(live, pipelines, hash, k, n);
      ghost var before := pipelines;
      if k > 1 && changed {
        Arrange();
        TurnedPermutes(before, k, 0, 0);
        if Balanced(before, n, k) {
          UpToStart(before, n, k);
          TurnedArranges(before, n, k, 0, 0);
        }
      }
      Kept(live, before, pipelines);
      SameCounts(before, pipelines, n, k);
    }

    /** A pipeline is gone; its weak pointer stays in the list. */
    method Expire(i: nat)
      requires Valid() && i < |pipelines|
      modifies `pipelines
      ensures Valid() && pipelines == old(pipelines)[i := old(pipelines)[i].(alive := false, connected := false)]
    {
      ghost var was := pipelines;
      pipelines := pipelines[i := pipelines[i].(alive := false, connected := false)];
      assert !pipelines[i].alive;
      SameConfigs(was, pipelines, n, k);
    }

    /** Sending and closing sessions also erase the expired pointers they pass. */
    method EraseExpired(i: nat)
      requires Valid() && i < |pipelines| && !pipelines[i].alive
      modifies `pipelines
      ensures Valid() && pipelines == old(pipelines)[..i] + old(pipelines)[i + 1..]
    {
      ghost var was := pipelines;
      EraseCounts(pipelines, i, n, k);
      pipelines := pipelines[..i] + pipelines[i + 1..];
    }

    /** The pipeline's connection is up. */
    method Connect(i: nat)
      requires Valid() && i < |pipelines| && pipelines[i].alive
      modifies `pipelines
      ensures Valid() && pipelines == old(pipelines)[i := old(pipelines)[i].(connected := true)]
    {
      ghost var was := pipelines;
      pipelines := pipelines[i := pipelines[i].(connected := true)];
      SameConfigs(was, pipelines, n, k);
    }

    /** The choice `start_session` makes among the prepared pipelines: the first connected one at or
        after the index. The wrap-around that finds the first pipeline connected does not advance the
        index; a scan that finds none falls back to the first pipeline, connected or not. */
    method SelectPipeline() returns (chosen: nat)
      requires pipelines != []
      modifies `selectIdx
      ensures Chosen(pipelines, old(selectIdx), chosen, selectIdx)
    {
      chosen := 0;
      var have := false;
      if selectIdx >= |pipelines| {
        selectIdx := 0;
        have := true;
      }
      if !have || !pipelines[0].connected {
        ghost var start := selectIdx;
        var idx := 0;
        while idx < |pipelines|
          invariant 0 <= idx <= |pipelines| && chosen == 0
          invariant selectIdx == if idx <= start then start else idx
          invariant forall j :: start <= j < idx ==> !pipelines[j].connected
        {
          if idx >= selectIdx {
            if pipelines[idx].connected {
              chosen := idx;
              break;
            }
            selectIdx := selectIdx + 1;
          }
          idx := idx + 1;
        }
        selectIdx := selectIdx + 1;
      }
    }
  }

  // ---- the choice ----

  /** A connected pipeline is chosen exactly when one lies at or after the index, wrapped if it ran
      off the list, or the first pipeline, the fallback, is connected. */
  lemma ConnectedIff(s: seq<Pipeline>, idx: nat, chosen: nat, after: nat)
    requires s != [] && Chosen(s, idx, chosen, after)
    ensures s[chosen].connected <==> s[0].connected || !NoneConnected(s, if idx >= |s| then 0 else idx)
  {
  }

  predicate AllConnected(s: seq<Pipeline>) {
    forall i :: 0 <= i < |s| ==> s[i].connected
  }

  /** The choice and the index among `n` connected pipelines. */
  function Pick(n: nat, idx: nat): (chosen: nat) {
    if idx < n then idx else 0
  }

  function Next(n: nat, idx: nat): (after: nat) {
    if idx < n then idx + 1 else 0
  }

  lemma PickIsChosen(s: seq<Pipeline>, idx: nat, chosen: nat, after: nat)
    requires s != [] && AllConnected(s) && Chosen(s, idx, chosen, after)
    ensures chosen == Pick(|s|, idx) && after == Next(|s|, idx)
  {
    var start := if idx >= |s| then 0 else idx;
    assert s[start].connected;
  }

  function Picks(n: nat, idx: nat, m: nat): (r: seq<nat>)
    decreases m
  {
    if m == 0 then [] else [Pick(n, idx)] + Picks(n, Next(n, idx), m - 1)
  }

  function Occurs(c: nat, s: seq<nat>): (n: nat) {
    if s == [] then 0 else B(s[0] == c) + Occurs(c, s[1..])
  }

  /** Up to the end of the list the choices just count up. */
  lemma {:induction false} Ramp(n: nat, idx: nat, m: nat, l: nat, c: nat)
    requires idx + m <= n
    ensures Occurs(c, Picks(n, idx, m + l)) == B(idx <= c < idx + m) + Occurs(c, Picks(n, idx + m, l))
    decreases m
  {
    if m > 0 {
      Ramp(n, idx + 1, m - 1, l, c);
      assert Picks(n, idx, m + l)[1..] == Picks(n, idx + 1, m - 1 + l);
    }
  }

  lemma FairPicks(n: nat, idx: nat, c: nat)
    requires c < n
    ensures Occurs(c, Picks(n, idx, n + 1)) == if c == 0 then 2 else 1
  {
    if idx >= n {
      assert Picks(n, idx, n + 1)[1..] == Picks(n, 0, n);
      Ramp(n, 0, n, 0, c);
    } else {
      Ramp(n, idx, n - idx, idx + 1, c);
      assert Picks(n, n, idx + 1)[1..] == Picks(n, 0, idx);
      Ramp(n, 0, idx, 0, c);
    }
  }

  /** Calls of `SelectPipeline` in a row on one list: `cs` are the choices, `idxs` the index before the first
      and after each. */
  ghost predicate Calls(s: seq<Pipeline>, idxs: seq<nat>, cs: seq<nat>)
    requires s != []
  {
    |idxs| == |cs| + 1 && forall i :: 0 <= i < |cs| ==> Chosen(s, idxs[i], cs[i], idxs[i + 1])
  }

  lemma {:induction false} CallsPick(s: seq<Pipeline>, idxs: seq<nat>, cs: seq<nat>)
    requires s != [] && AllConnected(s) && Calls(s, idxs, cs)
    ensures cs == Picks(|s|, idxs[0], |cs|)
    decreases |cs|
  {
    hide Chosen, AllConnected, Pick, Next;
    if cs != [] {
      assert Chosen(s, idxs[0], cs[0], idxs[1]);
      PickIsChosen(s, idxs[0], cs[0], idxs[1]);
      assert forall i :: 0 <= i < |cs[1..]| ==> cs[1..][i] == cs[i + 1] && idxs[1..][i + 1] == idxs[i + 2];
      CallsPick(s, idxs[1..], cs[1..]);
    }
  }

  /** Fairness: while all `n` pipelines are connected, any `n + 1` calls in a row choose every pipeline once,
      and the first one once more. */
  lemma Fair(s: seq<Pipeline>, idxs: seq<nat>, cs: seq<nat>, c: nat)
    requires s != [] && AllConnected(s) && Calls(s, idxs, cs) && |cs| == |s| + 1 && c < |s|
    ensures Occurs(c, cs) == if c == 0 then 2 else 1
  {
    hide Chosen, AllConnected, Picks, Occurs;
    CallsPick(s, idxs, cs);
    FairPicks(|s|, idxs[0], c);
  }

  /** In an arranged list, all but the last round hold configuration `i % k` at position `i`. */
  lemma ArrangedPositions(s: seq<Pipeline>, n: nat, k: nat, i: nat)
    requires n > 0 && k > 0 && Arranged(s, n, k) && i < (n - 1) * k
    ensures |s| == n * k && i < |s| && s[i].config == i % k
  {
    hide Count, Round, Slot, Times;
    TimesIsProduct(n, k);
    TimesIsProduct(n - 1, k);
    assert n * k == (n - 1) * k + k;
    SlotIsMod(i, k);
  }

  /** And every aligned block of `k`, the last one too, holds each configuration exactly once. */
  lemma ArrangedBlocks(s: seq<Pipeline>, n: nat, k: nat, q: nat, c: nat)
    requires q < n && c < k && Arranged(s, n, k)
    ensures 0 <= q * k <= (q + 1) * k <= |s| && Count(s[q * k..(q + 1) * k], c) == 1
  {
    hide Count, Round, Slot, Times;
    TimesIsProduct(q, k);
    TimesIsProduct(q + 1, k);
    assert (q + 1) * k == q * k + k;
    Blocks(s, n, k, q, c);
  }

  lemma TurnedStep(s: seq<Pipeline>, curr: nat, configIdx: nat, j: nat, t: seq<Pipeline>)
    requires curr < j <= |s| == |t| && forall i :: curr < i < j ==> s[i].config != configIdx
    requires if j < |s| then s[j].config == configIdx && t == Swap(s, curr, j) else t == s
    ensures Turned(s, 4, curr, configIdx)
      == Turned(t, 4, curr + 1, if j == |s| then configIdx else if configIdx + 1 >= 4 then 0 else configIdx + 1)
  {
  }

  /** The last round need not be in order: with four configurations of two pipelines each, the loop
      leaves 0 2 1 3 there. */
  lemma LastRoundOutOfOrder(p: Pipeline, q: Pipeline, r: Pipeline, s: Pipeline)
    requires p.config == 0 && q.config == 1 && r.config == 2 && s.config == 3
    ensures Turned([p, p, q, q, r, r, s, s], 4, 0, 0) == [p, q, r, s, p, r, q, s]
  {
    var a, b := [p, p, q, q, r, r, s, s], [p, q, p, q, r, r, s, s];
    var c, d := [p, q, r, q, p, r, s, s], [p, q, r, s, p, r, q, s];
    TurnedStep(a, 0, 0, 1, a);
    TurnedStep(a, 1, 1, 2, b);
    TurnedStep(b, 2, 2, 4, c);
    TurnedStep(c, 3, 3, 6, d);
    TurnedStep(d, 4, 0, 8, d);
    TurnedStep(d, 5, 0, 8, d);
    TurnedStep(d, 6, 0, 8, d);
    TurnedStep(d, 7, 0, 8, d);
  }
}

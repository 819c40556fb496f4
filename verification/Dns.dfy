/** Domain names in DNS messages: `dns_header::read_label` and `dns_header::write_label`, against the
    message compression of section 4.1.4 of RFC 1035. */
module Dns {
  import opened Bytes
  import opened Trojan

  // ---- reading ----

  datatype Named = Named(name: bytes, after: nat)

  /** The position a pointer is taken for: its two halves are added. */
  function Jump(sign: int, low: int): (r: int) {
    sign % 0x40 + low
  }

  /** The standard's. */
  function Offset(sign: int, low: int): (r: int) {
    (sign - 0xC0) * 0x100 + low
  }

  /** Where the nested call of `read_label` starts reading, if a call at `pos` makes one. Any of the two
      high bits makes a pointer. */
  function Next(s: bytes, pos: nat): (r: Option<nat>)
    ensures r.Some? ==> pos < |s|
  {
    if pos >= |s| || s[pos] == 0 then None
    else if s[pos] >= 0x40 then if pos + 1 >= |s| then None else Some(Jump(s[pos], s[pos + 1]))
    else if pos + 1 + s[pos] > |s| then None
    else Some(pos + 1 + s[pos])
  }

  /** The calls nested in one at `pos` are no more than `n` deep. */
  predicate Ends(s: bytes, pos: nat, n: nat)
    decreases n
  {
    Next(s, pos).None? || (n > 0 && Ends(s, Next(s, pos).value, n - 1))
  }

  function Extend(name: bytes, piece: bytes): (r: bytes) {
    (if name != [] then name + [DOT] else name) + piece
  }

  /** `read_label`, appending to `name`: None is a stream left failed. It returns if its calls end. */
  function Read(s: bytes, pos: nat, name: bytes, n: nat): (r: Option<Named>)
    requires Ends(s, pos, n)
    decreases n
  {
    if pos >= |s| then None
    else if s[pos] >= 0x40 then
      if pos + 1 >= |s| then None
      else
        var r := Read(s, Jump(s[pos], s[pos + 1]), name, n - 1);
        if r.None? then None else Some(Named(r.value.name, pos + 2))
    else if s[pos] == 0 then Some(Named(name, pos + 1))
    else if pos + 1 + s[pos] > |s| then None
    else Read(s, pos + 1 + s[pos], Extend(name, s[pos + 1..pos + 1 + s[pos]]), n - 1)
  }

  lemma {:induction false} EndsMore(s: bytes, pos: nat, n: nat, m: nat)
    requires Ends(s, pos, n) && n <= m
    ensures Ends(s, pos, m)
    decreases n
  {
    if Next(s, pos).Some? {
      EndsMore(s, Next(s, pos).value, n - 1, m - 1);
    }
  }

  lemma {:induction false} ReadSame(s: bytes, pos: nat, name: bytes, n: nat, m: nat)
    requires Ends(s, pos, n) && Ends(s, pos, m)
    ensures Read(s, pos, name, n) == Read(s, pos, name, m)
    decreases n
  {
    if Next(s, pos).Some? {
      var piece := if s[pos] < 0x40 then Extend(name, s[pos + 1..pos + 1 + s[pos]]) else name;
      ReadSame(s, Next(s, pos).value, piece, n - 1, m - 1);
    }
  }

  lemma {:induction false} Below(v: set<nat>, n: nat)
    requires forall x :: x in v ==> x < n
    ensures |v| <= n
  {
    if n == 0 {
      assert v == {};
    } else {
      Below(v - {n - 1}, n - 1);
    }
  }

  /** No position is read twice: with `v` the positions read before, each deeper than this one. */
  lemma {:induction false} DepthBound(s: bytes, pos: nat, n: nat, v: set<nat>)
    requires Ends(s, pos, n) && (n > 0 ==> !Ends(s, pos, n - 1))
    requires forall x :: x in v ==> x < |s| && !Ends(s, x, n)
    ensures |v| + n <= |s|
    decreases n
  {
    if n == 0 {
      Below(v, |s|);
    } else {
      var next := Next(s, pos).value;
      forall x | x in v + {pos}
        ensures x < |s| && !Ends(s, x, n - 1)
      {
        if Ends(s, x, n - 1) {
          EndsMore(s, x, n - 1, n);
        }
      }
      assert pos !in v;
      DepthBound(s, next, n - 1, v + {pos});
    }
  }

  /** `read_label` returns if and only if it does so within as many calls as the message has bytes. */
  lemma {:induction false} ReturnsIff(s: bytes, pos: nat, n: nat)
    requires Ends(s, pos, n)
    ensures Ends(s, pos, |s|)
    decreases n
  {
    if n > 0 && Ends(s, pos, n - 1) {
      ReturnsIff(s, pos, n - 1);
    } else {
      DepthBound(s, pos, n, {});
      EndsMore(s, pos, n, |s|);
    }
  }

  // ---- the calls that never end ----

  /** Where the k-th call nested in one at `pos` starts, if there are that many. */
  function Chain(s: bytes, pos: nat, k: nat): (r: Option<nat>)
    decreases k
  {
    if k == 0 then Some(pos)
    else match Next(s, pos)
      case None => None
      case Some(p) => Chain(s, p, k - 1)
  }

  lemma {:induction false} EndsIffChain(s: bytes, pos: nat, n: nat)
    ensures Ends(s, pos, n) <==> Chain(s, pos, n + 1) == None
    decreases n
  {
    if n > 0 && Next(s, pos).Some? {
      EndsIffChain(s, Next(s, pos).value, n - 1);
    }
  }

  lemma {:induction false} ChainSplit(s: bytes, pos: nat, i: nat, m: nat)
    ensures Chain(s, pos, i + m) ==
      match Chain(s, pos, i) case None => None case Some(p) => Chain(s, p, m)
    decreases i
  {
    if i > 0 && Next(s, pos).Some? {
      ChainSplit(s, Next(s, pos).value, i - 1, m);
    }
  }

  /** A position that comes back after `d` calls keeps coming back. */
  lemma {:induction false} Circular(s: bytes, x: nat, d: nat, m: nat)
    requires d > 0 && Chain(s, x, d) == Some(x)
    ensures Chain(s, x, m).Some?
    decreases m
  {
    if m < d {
      ChainSplit(s, x, m, d - m);
    } else {
      ChainSplit(s, x, d, m - d);
      Circular(s, x, d, m - d);
    }
  }

  /** Some position is read from twice. */
  ghost predicate GoesRound(s: bytes, pos: nat) {
    exists i, j :: 0 <= i < j && Chain(s, pos, i).Some? && Chain(s, pos, i) == Chain(s, pos, j)
  }

  ghost predicate VisitedBy(s: bytes, pos: nat, k: nat, x: nat) {
    exists i :: 0 <= i < k && Chain(s, pos, i) == Some(x)
  }

  /** The first `k` positions, as long as none comes back. */
  lemma {:induction false} Visited(s: bytes, pos: nat, k: nat) returns (v: set<nat>)
    requires Chain(s, pos, k).Some? && !GoesRound(s, pos)
    ensures |v| == k && forall x :: x in v ==> x < |s| && VisitedBy(s, pos, k, x)
    decreases k
  {
    if k == 0 {
      v := {};
    } else {
      ChainSplit(s, pos, k - 1, 1);
      var x := Chain(s, pos, k - 1).value;
      assert Chain(s, x, 1).Some? && Next(s, x).Some?;
      var w := Visited(s, pos, k - 1);
      assert x !in w;
      v := w + {x};
    }
  }

  lemma RoundNeverEnds(s: bytes, pos: nat, i: nat, j: nat, n: nat)
    requires i < j && Chain(s, pos, i).Some? && Chain(s, pos, i) == Chain(s, pos, j)
    ensures !Ends(s, pos, n)
  {
    var x := Chain(s, pos, i).value;
    ChainSplit(s, pos, i, j - i);
    EndsIffChain(s, pos, n);
    if n + 1 <= i {
      ChainSplit(s, pos, n + 1, i - n - 1);
    } else {
      ChainSplit(s, pos, i, n + 1 - i);
      Circular(s, x, j - i, n + 1 - i);
    }
  }

  /** `read_label` never returns if and only if the calls nested in it come back to a position. */
  lemma NeverReturnsIff(s: bytes, pos: nat)
    ensures (forall n: nat :: !Ends(s, pos, n)) <==> GoesRound(s, pos)
  {
    if GoesRound(s, pos) {
      var i, j :| 0 <= i < j && Chain(s, pos, i).Some? && Chain(s, pos, i) == Chain(s, pos, j);
      forall n: nat
        ensures !Ends(s, pos, n)
      {
        RoundNeverEnds(s, pos, i, j, n);
      }
    } else {
      EndsIffChain(s, pos, |s|);
      if Chain(s, pos, |s| + 1).Some? {
        var v := Visited(s, pos, |s| + 1);
        Below(v, |s|);
      }
      assert Ends(s, pos, |s|);
    }
  }

  /** As two bytes that point at themselves do. */
  lemma SelfPointer(s: bytes, pos: nat)
    requires pos + 1 < |s| && s[pos] >= 0x40 && Jump(s[pos], s[pos + 1]) == pos
    ensures forall n: nat :: !Ends(s, pos, n)
  {
    assert Chain(s, pos, 0) == Chain(s, pos, 1);
    NeverReturnsIff(s, pos);
  }

  // ---- the standard's reading ----

  datatype Expansion = Expansion(labels: seq<bytes>, after: nat)

  /** The name at `pos`, its segment having begun at `start`: labels up to a zero byte, or up to a
      pointer to a name that begins before this segment. */
  function Expand(s: bytes, start: nat, pos: nat): (r: Option<Expansion>)
    decreases start, |s| - pos
  {
    if pos >= |s| then None
    else if s[pos] == 0 then Some(Expansion([], pos + 1))
    else if s[pos] < 0x40 then
      if pos + 1 + s[pos] > |s| then None
      else
        var e := Expand(s, start, pos + 1 + s[pos]);
        if e.None? then None
        else Some(Expansion([s[pos + 1..pos + 1 + s[pos]]] + e.value.labels, e.value.after))
    else if s[pos] < 0xC0 || pos + 1 >= |s| then None
    else
      var p := Offset(s[pos], s[pos + 1]);
      if p >= start then None
      else
        var e := Expand(s, p, p);
        if e.None? then None else Some(Expansion(e.value.labels, pos + 2))
  }

  /** Along that name: no reserved length byte, and every pointer below 256 and to before its segment. */
  predicate Proper(s: bytes, start: nat, pos: nat)
    decreases start, |s| - pos
  {
    if pos >= |s| || s[pos] == 0 then true
    else if s[pos] < 0x40 then pos + 1 + s[pos] <= |s| ==> Proper(s, start, pos + 1 + s[pos])
    else
      && s[pos] >= 0xC0
      && (pos + 1 < |s| ==> s[pos] == 0xC0 && s[pos + 1] < start && Proper(s, s[pos + 1], s[pos + 1]))
  }

  function Joined(name: bytes, labels: seq<bytes>): (r: bytes)
    decreases |labels|
  {
    if labels == [] then name else Joined(Extend(name, labels[0]), labels[1..])
  }

  /** The pointer the sources compute is the standard's exactly when its six high bits are zero. */
  lemma PointerIff(sign: byte, low: byte)
    requires sign >= 0xC0
    ensures Jump(sign, low) == Offset(sign, low) <==> sign == 0xC0
  {
  }

  lemma ReadNothing(s: bytes, pos: nat, name: bytes)
    requires Next(s, pos).None?
    ensures Ends(s, pos, 0)
    ensures Read(s, pos, name, 0) == if pos < |s| && s[pos] == 0 then Some(Named(name, pos + 1)) else None
  {
  }

  lemma ReadPointer(s: bytes, pos: nat, name: bytes, n: nat)
    requires pos + 1 < |s| && s[pos] >= 0x40 && n > 0 && Ends(s, Jump(s[pos], s[pos + 1]), n - 1)
    ensures Ends(s, pos, n)
    ensures var r := Read(s, Jump(s[pos], s[pos + 1]), name, n - 1);
      Read(s, pos, name, n) == if r.None? then None else Some(Named(r.value.name, pos + 2))
  {
  }

  predicate Good(g: bytes) {
    1 <= |g| < 0x40
  }

  /** One plain label read. */
  lemma ReadPlain(s: bytes, pos: nat, piece: bytes, name: bytes, n: nat)
    requires pos + 1 + |piece| <= |s| && Good(piece) && s[pos] == |piece| && s[pos + 1..pos + 1 + |piece|] == piece
    requires n > 0
    ensures Ends(s, pos, n) <==> Ends(s, pos + 1 + |piece|, n - 1)
    ensures Ends(s, pos, n) ==> Read(s, pos, name, n) == Read(s, pos + 1 + |piece|, Extend(name, piece), n - 1)
  {
  }

  /** On proper names `read_label` returns, with the standard's expansion, just past the name; and it
      fails exactly when the standard gives the name no meaning. */
  lemma {:induction false} ReadsTheStandard(s: bytes, start: nat, pos: nat, name: bytes) returns (n: nat)
    requires Proper(s, start, pos)
    ensures Ends(s, pos, n)
    ensures var e := Expand(s, start, pos);
      Read(s, pos, name, n) == if e.None? then None else Some(Named(Joined(name, e.value.labels), e.value.after))
    decreases start, |s| - pos
  {
    hide Read, Ends, Extend;
    if Next(s, pos).None? {
      n := 0;
      ReadNothing(s, pos, name);
    } else if s[pos] < 0x40 {
      var piece := s[pos + 1..pos + 1 + s[pos]];
      var m := ReadsTheStandard(s, start, pos + 1 + s[pos], Extend(name, piece));
      n := m + 1;
      ReadPlain(s, pos, piece, name, n);
      var e := Expand(s, start, pos + 1 + s[pos]);
      assert e.Some? ==> ([piece] + e.value.labels)[1..] == e.value.labels;
    } else {
      var m := ReadsTheStandard(s, s[pos + 1], s[pos + 1], name);
      n := m + 1;
      ReadPointer(s, pos, name, n);
    }
  }

  // ---- writing ----

  /** The pieces between dots; always at least one. */
  function Split(name: bytes): (r: seq<bytes>)
    ensures |r| > 0
  {
    if name == [] then [[]]
    else
      var n := |name| - 1;
      var t := Split(name[..n]);
      if name[n] == DOT then t + [[]] else t[..|t| - 1] + [t[|t| - 1] + [name[n]]]
  }

  function Join(labels: seq<bytes>): (r: bytes) {
    var n := |labels| - 1;
    if n <= 0 then (if n < 0 then [] else labels[0]) else Join(labels[..n]) + [DOT] + labels[n]
  }

  lemma JoinEnd(front: seq<bytes>, g: bytes)
    ensures Join(front + [g]) == if front == [] then g else Join(front) + [DOT] + g
  {
  }

  lemma {:induction false} JoinSplit(name: bytes)
    ensures Join(Split(name)) == name
  {
    hide Join;
    if name == [] {
      JoinEnd([], []);
      assert [] + [[]] == Split(name);
    } else {
      var n := |name| - 1;
      JoinSplit(name[..n]);
      var t := Split(name[..n]);
      var front, g := t[..|t| - 1], t[|t| - 1];
      assert t == front + [g];
      assert name == name[..n] + [name[n]];
      if name[n] == DOT {
        JoinEnd(t, []);
      } else {
        JoinEnd(front, g);
        JoinEnd(front, g + [name[n]]);
      }
    }
  }

  /** A length byte, and as much of the piece as that byte says. */
  function Emit(g: bytes): (r: bytes)
    ensures |r| == 1 + |g| % 0x100
  {
    [|g| % 0x100] + g[..|g| % 0x100]
  }

  /** What is written for the pieces: a last piece of length zero leaves nothing. */
  function Wire(pieces: seq<bytes>): (r: bytes)
    requires pieces != []
    ensures |r| >= 1
  {
    if |pieces| == 1 then (if |pieces[0]| % 0x100 > 0 then Emit(pieces[0]) else []) + [0]
    else Emit(pieces[0]) + Wire(pieces[1..])
  }

  function Emits(pieces: seq<bytes>): (r: bytes) {
    if pieces == [] then [] else Emits(pieces[..|pieces| - 1]) + Emit(pieces[|pieces| - 1])
  }

  lemma {:induction false} EmitsFirst(g: bytes, pieces: seq<bytes>)
    ensures Emits([g] + pieces) == Emit(g) + Emits(pieces)
    decreases |pieces|
  {
    hide Emit;
    if pieces == [] {
      assert [g] + pieces == [g];
      assert [g][..0] == [];
    } else {
      var n := |pieces| - 1;
      assert ([g] + pieces)[..n + 1] == [g] + pieces[..n];
      EmitsFirst(g, pieces[..n]);
    }
  }

  lemma {:induction false} WireIs(pieces: seq<bytes>)
    requires pieces != []
    ensures var n := |pieces| - 1;
      Wire(pieces) == Emits(pieces[..n]) + (if |pieces[n]| % 0x100 > 0 then Emit(pieces[n]) else []) + [0]
  {
    hide Emit;
    var n := |pieces| - 1;
    if n > 0 {
      WireIs(pieces[1..]);
      EmitsFirst(pieces[0], pieces[1..n]);
      assert pieces[..n] == [pieces[0]] + pieces[1..n];
      assert pieces[1..][..n - 1] == pieces[1..n];
    }
  }

  predicate AllGood(pieces: seq<bytes>) {
    forall i :: 0 <= i < |pieces| ==> Good(pieces[i])
  }

  /** The length of the pieces joined behind a name. */
  function Full(name: bytes, pieces: seq<bytes>): (r: int) {
    if pieces == [] then |name| + (if name == [] then -1 else 0)
    else Full(name, pieces[..|pieces| - 1]) + 1 + |pieces[|pieces| - 1]|
  }

  lemma {:induction false} FullFirst(name: bytes, g: bytes, pieces: seq<bytes>)
    ensures Full(name, [g] + pieces) == Full(name, pieces) + 1 + |g|
    decreases |pieces|
  {
    if pieces == [] {
      assert [g] + pieces == [g];
      assert [g][..0] == [];
    } else {
      var n := |pieces| - 1;
      assert ([g] + pieces)[..n + 1] == [g] + pieces[..n];
      FullFirst(name, g, pieces[..n]);
    }
  }

  lemma {:induction false} FullMoves(name: bytes, other: bytes, pieces: seq<bytes>)
    ensures Full(name, pieces) - Full(name, []) == Full(other, pieces) - Full(other, [])
    decreases |pieces|
  {
    if pieces != [] {
      FullMoves(name, other, pieces[..|pieces| - 1]);
    }
  }

  /** Reading a first label leaves that much less to read, unless the label was cut. */
  lemma FullExtend(name: bytes, g: bytes, piece: bytes, more: seq<bytes>)
    requires piece != []
    ensures Full(name, [g] + more) == Full(Extend(name, piece), more) + |g| - |piece|
  {
    FullFirst(name, g, more);
    FullMoves(name, Extend(name, piece), more);
  }

  lemma {:induction false} FullIsLength(pieces: seq<bytes>)
    requires pieces != []
    ensures Full([], pieces) == |Join(pieces)|
  {
    var n := |pieces| - 1;
    if n > 0 {
      FullIsLength(pieces[..n]);
    } else {
      assert pieces[..n] == [];
      assert Full([], pieces[..n]) == -1;
    }
  }

  // ---- the round trip ----

  lemma {:induction false} JoinedAppend(name: bytes, a: seq<bytes>, x: bytes)
    ensures Joined(name, a + [x]) == Extend(Joined(name, a), x)
    decreases |a|
  {
    if a == [] {
      assert a + [x] == [x];
      assert [x][1..] == [];
    } else {
      assert (a + [x])[1..] == a[1..] + [x];
      JoinedAppend(Extend(name, a[0]), a[1..], x);
    }
  }

  lemma {:induction false} JoinedIsJoin(pieces: seq<bytes>)
    requires pieces != [] && AllGood(pieces)
    ensures Joined([], pieces) == Join(pieces) != []
  {
    var n := |pieces| - 1;
    if n > 0 {
      JoinedIsJoin(pieces[..n]);
      JoinedAppend([], pieces[..n], pieces[n]);
      assert pieces == pieces[..n] + [pieces[n]];
    } else {
      assert Good(pieces[0]);
      assert pieces[1..] == [];
      assert Joined([], pieces) == Joined(Extend([], pieces[0]), []);
      assert Extend([], pieces[0]) == pieces[0];
    }
  }

  /** How a piece lies in the message. */
  lemma Laid(pre: bytes, g: bytes, tail: bytes)
    ensures var s, m := pre + Emit(g) + tail, |g| % 0x100;
      && s[|pre|] == m && s[|pre| + 1..|pre| + 1 + m] == g[..m]
      && |s| == |pre| + 1 + m + |tail| && (tail != [] ==> s[|pre| + 1 + m] == tail[0])
  {
  }

  lemma ReadsLast(pre: bytes, g: bytes, rest: bytes, name: bytes, n: nat)
    requires 1 <= |g| % 0x100 < 0x40 && n > 0
    ensures var s := pre + Wire([g]) + rest;
      && Ends(s, |pre|, n)
      && Read(s, |pre|, name, n) == Some(Named(Extend(name, g[..|g| % 0x100]), |pre| + |Wire([g])|))
  {
    hide Emit, Extend;
    var s, m := pre + Wire([g]) + rest, |g| % 0x100;
    Laid(pre, g, [0] + rest);
    assert s == pre + Emit(g) + ([0] + rest);
    ReadPlain(s, |pre|, g[..m], name, n);
  }

  lemma WireFirst(pieces: seq<bytes>)
    requires |pieces| > 1
    ensures Wire(pieces) == Emit(pieces[0]) + Wire(pieces[1..])
  {
  }

  lemma ReadsOne(pre: bytes, g: bytes, more: seq<bytes>, rest: bytes, name: bytes, n: nat)
    requires 1 <= |g| % 0x100 < 0x40 && more != [] && n > 0
    ensures var s, next := pre + Wire([g] + more) + rest, pre + Emit(g);
      && s == next + Wire(more) + rest
      && |next| + |Wire(more)| == |pre| + |Wire([g] + more)|
      && (Ends(s, |pre|, n) <==> Ends(s, |next|, n - 1))
      && (Ends(s, |pre|, n) ==> Read(s, |pre|, name, n) == Read(s, |next|, Extend(name, g[..|g| % 0x100]), n - 1))
  {
    hide Emit, Extend, Wire, Read, Ends;
    var s, m := pre + Wire([g] + more) + rest, |g| % 0x100;
    assert ([g] + more)[1..] == more;
    WireFirst([g] + more);
    Laid(pre, g, Wire(more) + rest);
    assert s == pre + Emit(g) + (Wire(more) + rest);
    assert s == (pre + Emit(g)) + Wire(more) + rest;
    ReadPlain(s, |pre|, g[..m], name, n);
  }

  lemma AllGoodMore(pieces: seq<bytes>)
    requires pieces != []
    ensures AllGood(pieces) <==> Good(pieces[0]) && AllGood(pieces[1..])
  {
  }

  /** Good pieces are read back, whatever is before and after them. */
  lemma {:induction false} ReadsGood(pre: bytes, pieces: seq<bytes>, rest: bytes, name: bytes, n: nat)
    requires pieces != [] && AllGood(pieces) && n >= |pieces|
    ensures var s := pre + Wire(pieces) + rest;
      Ends(s, |pre|, n) && Read(s, |pre|, name, n) == Some(Named(Joined(name, pieces), |pre| + |Wire(pieces)|))
    decreases |pieces|
  {
    hide Read, Ends, Emit, Wire, Extend;
    var g, more := pieces[0], pieces[1..];
    assert Good(g) && g[..|g|] == g;
    assert pieces == [g] + more;
    if more == [] {
      assert pieces == [g];
      ReadsLast(pre, g, rest, name, n);
      assert Joined(Extend(name, g), more) == Extend(name, g);
    } else {
      ReadsOne(pre, g, more, rest, name, n);
      AllGoodMore(pieces);
      ReadsGood(pre + Emit(g), more, rest, Extend(name, g), n - 1);
    }
  }

  lemma {:induction false} FullAtLeast(name: bytes, pieces: seq<bytes>)
    ensures Full(name, pieces) >= |name| - (if name == [] then 1 else 0)
    decreases |pieces|
  {
    if pieces != [] {
      FullAtLeast(name, pieces[..|pieces| - 1]);
    }
  }

  lemma FullNone(name: bytes)
    requires name != []
    ensures Full(name, []) == |name|
  {
  }

  lemma EndsPositive(pre: bytes, g: bytes, more: seq<bytes>, rest: bytes, n: nat)
    requires 1 <= |g| % 0x100 < 0x40 && Ends(pre + Wire([g] + more) + rest, |pre|, n)
    ensures n > 0
  {
  }

  lemma ExtendNonEmpty(name: bytes, piece: bytes)
    requires piece != []
    ensures Extend(name, piece) != []
  {
  }

  /** If the reader stops where the writer did, then it has read no more than was given, and as much
      only if every piece was good. */
  lemma {:induction false} ReadsNoMore(pre: bytes, pieces: seq<bytes>, rest: bytes, name: bytes, n: nat)
    requires pieces != [] && Ends(pre + Wire(pieces) + rest, |pre|, n)
    ensures var r := Read(pre + Wire(pieces) + rest, |pre|, name, n);
      r.Some? && r.value.after == |pre| + |Wire(pieces)| ==>
        && |r.value.name| <= Full(name, pieces)
        && (|r.value.name| == Full(name, pieces) ==> AllGood(pieces) || (name == [] && pieces == [[]]))
    decreases |pieces|
  {
    var g, more := pieces[0], pieces[1..];
    assert pieces == [g] + more;
    var s := pre + Wire(pieces) + rest;
    var m := |g| % 0x100;
    if m == 0 {
      assert s[|pre|] == 0;
      FullFirst(name, g, more);
      FullAtLeast(name, more);
    } else {
      assert s[|pre|] == m;
      if m < 0x40 {
        ReadsFirst(pre, g, more, rest, name, n);
      }
    }
  }

  lemma ReadsFirst(pre: bytes, g: bytes, more: seq<bytes>, rest: bytes, name: bytes, n: nat)
    requires 1 <= |g| % 0x100 < 0x40 && Ends(pre + Wire([g] + more) + rest, |pre|, n)
    ensures var r := Read(pre + Wire([g] + more) + rest, |pre|, name, n);
      r.Some? && r.value.after == |pre| + |Wire([g] + more)| ==>
        && |r.value.name| <= Full(name, [g] + more)
        && (|r.value.name| == Full(name, [g] + more) ==> AllGood([g] + more))
    decreases |more| + 1, 0
  {
    hide Read, Ends, Emit, Wire, Full, Extend;
    var piece := g[..|g| % 0x100];
    FullExtend(name, g, piece, more);
    EndsPositive(pre, g, more, rest, n);
    ExtendNonEmpty(name, piece);
    AllGoodMore([g] + more);
    if more == [] {
      assert [g] + more == [g];
      ReadsLast(pre, g, rest, name, n);
      FullNone(Extend(name, piece));
    } else {
      assert ([g] + more)[1..] == more;
      ReadsOne(pre, g, more, rest, name, n);
      ReadsNoMore(pre + Emit(g), more, rest, Extend(name, piece), n - 1);
    }
  }

  function Written(name: bytes): (r: bytes) {
    Wire(Split(name))
  }

  lemma ReadsEmpty(pre: bytes, rest: bytes)
    ensures var s := pre + Written([]) + rest;
      Ends(s, |pre|, |s|) && Read(s, |pre|, [], |s|) == Some(Named([], |pre| + |Written([])|))
  {
  }

  /** `read_label` undoes `write_label`, stopping right behind it, if and only if the name is empty or
      every label has from 1 to 63 bytes. */
  lemma RoundTripIff(pre: bytes, name: bytes, rest: bytes)
    ensures var s := pre + Written(name) + rest;
      (Ends(s, |pre|, |s|) && Read(s, |pre|, [], |s|) == Some(Named(name, |pre| + |Written(name)|)))
      <==> name == [] || AllGood(Split(name))
  {
    hide Wire, Split, Join, Joined, Full;
    var s := pre + Written(name) + rest;
    var pieces := Split(name);
    JoinSplit(name);
    FullIsLength(pieces);
    if name == [] {
      ReadsEmpty(pre, rest);
    } else if AllGood(pieces) {
      JoinedIsJoin(pieces);
      ReadsGood(pre, pieces, rest, [], |pieces|);
      ReturnsIff(s, |pre|, |pieces|);
      ReadSame(s, |pre|, [], |pieces|, |s|);
    } else if Ends(s, |pre|, |s|) {
      ReadsNoMore(pre, pieces, rest, [], |s|);
      var none: seq<bytes> := [];
      assert none + [[]] == [[]];
      JoinEnd(none, []);
    }
  }

  predicate NoDots(g: bytes) {
    forall i :: 0 <= i < |g| ==> g[i] != DOT
  }

  lemma {:induction false} SplitLast(p: bytes, g: bytes)
    requires NoDots(g)
    ensures Split(p + [DOT] + g) == Split(p) + [g]
    decreases |g|
  {
    var s := p + [DOT] + g;
    var n := |s| - 1;
    if g == [] {
      assert s[..n] == p;
    } else {
      var k := |g| - 1;
      SplitLast(p, g[..k]);
      assert s[..n] == p + [DOT] + g[..k];
      assert g == g[..k] + [g[k]];
      assert (Split(p) + [g[..k]])[..|Split(p)|] == Split(p);
    }
  }

  lemma {:induction false} SplitSingle(g: bytes)
    requires NoDots(g)
    ensures Split(g) == [g]
  {
    if g != [] {
      var k := |g| - 1;
      SplitSingle(g[..k]);
      assert g == g[..k] + [g[k]];
    }
  }

  /** Any labels without dots are the labels of the name that joins them. */
  lemma {:induction false} SplitJoin(labels: seq<bytes>)
    requires labels != [] && forall i :: 0 <= i < |labels| ==> NoDots(labels[i])
    ensures Split(Join(labels)) == labels
  {
    hide Split;
    var n := |labels| - 1;
    if n == 0 {
      SplitSingle(labels[0]);
    } else {
      SplitJoin(labels[..n]);
      SplitLast(Join(labels[..n]), labels[n]);
    }
  }

  /** So every name of labels of 1 to 63 bytes without dots survives. */
  lemma NameRoundTrip(pre: bytes, labels: seq<bytes>, rest: bytes)
    requires labels != [] && AllGood(labels) && forall i :: 0 <= i < |labels| ==> NoDots(labels[i])
    ensures var s := pre + Written(Join(labels)) + rest;
      && Ends(s, |pre|, |s|)
      && Read(s, |pre|, [], |s|) == Some(Named(Join(labels), |pre| + |Written(Join(labels))|))
  {
    hide Written, Read, Ends, Split, Join, NoDots;
    SplitJoin(labels);
    RoundTripIff(pre, Join(labels), rest);
  }

  // ---- the operations ----

  /** A std::istream over a message. */
  class IStream {
    const data: bytes
    var pos: nat
    var failed: bool

    constructor (data: bytes)
      ensures this.data == data && pos == 0 && !failed
    {
      this.data, pos, failed := data, 0, false;
    }

    method Extract() returns (ok: bool, b: byte)
      modifies this
      ensures ok == (!old(failed) && old(pos) < |data|)
      ensures ok ==> b == data[old(pos)] && pos == old(pos) + 1 && !failed
      ensures !ok ==> failed
    {
      if failed || pos >= |data| {
        failed := true;
        return false, 0;
      }
      b, pos := data[pos], pos + 1;
      return true, b;
    }

    method SeekG(to: nat)
      modifies this
      ensures failed == (old(failed) || to > |data|)
      ensures !failed ==> pos == to
    {
      if !failed {
        if to > |data| {
          failed := true;
        } else {
          pos := to;
        }
      }
    }

    /** What is missing of a short read is left out here; the sources append whatever was there. */
    method ReadBytes(n: nat) returns (b: bytes)
      modifies this
      ensures failed == (old(failed) || old(pos) + n > |data|)
      ensures !failed ==> b == data[old(pos)..old(pos) + n] && pos == old(pos) + n
    {
      if failed || pos + n > |data| {
        failed := true;
        return [];
      }
      b, pos := data[pos..pos + n], pos + n;
    }
  }

  /** `read_label`; `depth` bounds the calls it nests. */
  method ReadLabel(input: IStream, name: StreamBuf, ghost depth: nat)
    requires !input.failed ==> Ends(input.data, input.pos, depth)
    modifies input, name
    ensures old(input.failed) ==> input.failed
    ensures !old(input.failed) ==>
      var r := Read(input.data, old(input.pos), old(name.data), depth);
      if input.failed then r.None? else r == Some(Named(name.data, input.pos))
    decreases !input.failed, depth
  {
    hide Jump;
    var ok, sign := input.Extract();
    if !ok {
      return;
    }
    if sign >= 0x40 {
      var more, low := input.Extract();
      if !more {
        return;
      }
      var curr := input.pos;
      input.SeekG(Jump(sign, low));
      ReadLabel(input, name, depth - 1);
      input.SeekG(curr);
      return;
    }
    if sign == 0 {
      return;
    }
    var buf := input.ReadBytes(sign);
    ghost var was := name.data;
    if |name.data| > 0 {
      name.Append([DOT]);
    }
    name.Append(buf);
    if input.failed {
      ReadLabel(input, name, depth);
    } else {
      ReadLabel(input, name, depth - 1);
    }
  }

  /** The piece being counted after `i` bytes, and what the pieces before it have put out. */
  function Current(name: bytes, i: nat): (r: bytes)
    requires i <= |name|
  {
    var t := Split(name[..i]);
    t[|t| - 1]
  }

  function Done(name: bytes, i: nat): (r: bytes)
    requires i <= |name|
  {
    var t := Split(name[..i]);
    Emits(t[..|t| - 1])
  }

  lemma StartsEmpty(name: bytes)
    ensures Current(name, 0) == [] && Done(name, 0) == []
  {
  }

  /** How one more byte changes the pieces. */
  lemma OneMore(name: bytes, start: nat, i: nat)
    requires start <= i < |name| && name[start..i] == Current(name, i)
    ensures
      if name[i] == DOT then Current(name, i + 1) == [] && Done(name, i + 1) == Done(name, i) + Emit(name[start..i])
      else Current(name, i + 1) == name[start..i + 1] && Done(name, i + 1) == Done(name, i)
  {
    hide Emit;
    var t, u := Split(name[..i]), Split(name[..i + 1]);
    assert name[..i + 1][..i] == name[..i];
    if name[i] == DOT {
      assert u[..|u| - 1] == t;
    } else {
      assert u[..|u| - 1] == t[..|t| - 1];
      assert name[start..i + 1] == name[start..i] + [name[i]];
    }
  }

  lemma AllDone(name: bytes)
    ensures var g := Current(name, |name|);
      Written(name) == Done(name, |name|) + (if |g| % 0x100 > 0 then Emit(g) else []) + [0]
  {
    hide Emit, Split, Wire, Emits;
    assert name[..|name|] == name;
    WireIs(Split(name));
  }

  /** The bytes of a piece, put out in two writes. */
  method WritePiece(os: StreamBuf, name: bytes, start: nat, count: byte, ghost g: bytes)
    requires start + |g| <= |name| && g == name[start..start + |g|] && count == |g| % 0x100
    modifies os
    ensures os.data == old(os.data) + Emit(g)
  {
    os.Append([count]);
    os.Append(name[start..start + count]);
    assert g[..count] == name[start..start + count];
  }

  /** `write_label`: one pass, the length counted in one byte. */
  method WriteLabel(os: StreamBuf, name: bytes)
    modifies os
    ensures os.data == old(os.data) + Written(name)
  {
    hide Current, Done, Emit, Written;
    var count: byte, start := 0, 0;
    StartsEmpty(name);
    for i := 0 to |name|
      invariant start <= i && name[start..i] == Current(name, i)
      invariant count == (i - start) % 0x100
      invariant os.data == old(os.data) + Done(name, i)
    {
      OneMore(name, start, i);
      if name[i] == DOT {
        WritePiece(os, name, start, count, name[start..i]);
        count, start := 0, i + 1;
      } else {
        count := (count + 1) % 0x100;
      }
    }
    AllDone(name);
    if count > 0 {
      WritePiece(os, name, start, count, name[start..|name|]);
    }
    os.Append([0]);
  }
}

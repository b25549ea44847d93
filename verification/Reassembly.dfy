/** Reassembly is maximal and order-independent. Merging the out-of-order store moves RCV.NXT to the first
    position that no block covers and delivers exactly the bytes in between, in whatever order the blocks
    were stored, however they overlap, and across the 2^32 wrap. */
module Reassembly {
  import opened SeqNum
  import opened EngineState
  import opened EngineSpec

  const QUARTER: int := 0x4000_0000

  /** A block sits where its sequence number says, within 2^30 of `rp`. */
  ghost predicate Placed(b: Block, base: int, rp: int) {
    b.seqNo == Wrap(base + b.pos) && rp - QUARTER < b.pos && b.EndPos() < rp + QUARTER
  }

  /** A block carries the bytes `c` has at its positions. */
  ghost predicate Fits(b: Block, c: int -> byte) {
    forall k :: 0 <= k < |b.data| ==> b.data[k] == c(b.pos + k)
  }

  ghost predicate Store(ooo: seq<Block>, base: int, rp: int, c: int -> byte) {
    forall i :: 0 <= i < |ooo| ==> Placed(ooo[i], base, rp) && Fits(ooo[i], c)
  }

  predicate Reaches(b: Block, x: int) { b.pos <= x < b.EndPos() }

  ghost predicate Covered(ooo: seq<Block>, x: int) {
    exists i :: 0 <= i < |ooo| && Reaches(ooo[i], x)
  }

  function Bytes(c: int -> byte, from: int, to: int): (s: seq<byte>)
    requires from <= to
    ensures |s| == to - from
  {
    seq(to - from, i requires 0 <= i => c(from + i))
  }

  lemma BytesJoin(c: int -> byte, a: int, b: int, d: int)
    requires a <= b <= d
    ensures Bytes(c, a, b) + Bytes(c, b, d) == Bytes(c, a, d)
  {
  }

  /** The serial tests on a placed block say what its positions say. */
  lemma PlacedTests(b: Block, base: int, rp0: int, rp: int)
    requires Placed(b, base, rp0) && rp0 <= rp < rp0 + QUARTER
    ensures SeqLeq(b.End(), Wrap(base + rp)) <==> b.EndPos() <= rp
    ensures SeqLeq(b.seqNo, Wrap(base + rp)) <==> b.pos <= rp
    ensures SeqGt(b.End(), Wrap(base + rp)) <==> b.EndPos() > rp
    ensures b.pos <= rp ==> Sub(Wrap(base + rp), b.seqNo) == rp - b.pos
  {
    AddWraps(base, b.pos, |b.data|);
    assert base + b.pos + |b.data| == base + b.EndPos();
    SerialOrder(base, b.EndPos(), rp);
    SerialOrder(base, b.pos, rp);
    if b.pos <= rp { SubWraps(base, rp, b.pos); }
  }

  /** One merge step drops a block that reaches nothing new, or delivers what it reaches. */
  lemma MergeStepSpec(e: Engine, i: nat, base: int, rp0: int, c: int -> byte)
    requires i < |e.rcv.ooo| && Mergeable(e.rcv.ooo[i], e.rcv.nxt)
    requires Store(e.rcv.ooo, base, rp0, c)
    requires e.rcv.nxt == Wrap(base + RecvPos(e.hist)) && rp0 <= RecvPos(e.hist) < rp0 + QUARTER
    ensures var f := MergeStep(e, i); var b := e.rcv.ooo[i];
            var rp, rp' := RecvPos(e.hist), RecvPos(f.hist);
            && rp' == Max(rp, b.EndPos()) && b.pos <= rp' && (rp < rp' ==> b.pos <= rp)
            && rp0 <= rp' < rp0 + QUARTER
            && f.hist.delivered == e.hist.delivered + Bytes(c, rp, rp')
            && f.rcv.nxt == Wrap(base + rp')
            && f.rcv.ooo == e.rcv.ooo[..i] + e.rcv.ooo[i+1..]
            && f.hist == e.hist.(delivered := f.hist.delivered)
  {
    hide Wrap, S32, Store, Fits, Deliver;
    var b, rp := e.rcv.ooo[i], RecvPos(e.hist);
    assert Placed(b, base, rp0) && Fits(b, c) by { InStore(e.rcv.ooo, i, base, rp0, c); }
    PlacedTests(b, base, rp0, rp);
    if b.EndPos() > rp {
      TailDelivered(e, b, base, c);
    } else {
      assert Bytes(c, rp, rp) == [];
      assert e.hist.delivered + [] == e.hist.delivered;
    }
  }

  lemma InStore(ooo: seq<Block>, i: nat, base: int, rp: int, c: int -> byte)
    requires i < |ooo| && Store(ooo, base, rp, c)
    ensures Placed(ooo[i], base, rp) && Fits(ooo[i], c)
  {
    hide Placed, Fits;
  }

  /** Delivering what a block has beyond RCV.NXT delivers the stream up to the block's end. */
  lemma TailDelivered(e: Engine, b: Block, base: int, c: int -> byte)
    requires Fits(b, c) && b.pos <= RecvPos(e.hist) < b.EndPos() && e.rcv.nxt == Wrap(base + RecvPos(e.hist))
    ensures var f := Deliver(e, b.data[RecvPos(e.hist) - b.pos..]);
            && RecvPos(f.hist) == b.EndPos() && f.rcv.nxt == Wrap(base + b.EndPos()) && f.rcv.ooo == e.rcv.ooo
            && f.hist.delivered == e.hist.delivered + Bytes(c, RecvPos(e.hist), b.EndPos())
            && f.hist == e.hist.(delivered := f.hist.delivered)
  {
    hide Wrap;
    var rp := RecvPos(e.hist);
    assert b.data[rp - b.pos..] == Bytes(c, rp, b.EndPos());
    AddWraps(base, rp, b.EndPos() - rp);
    assert base + rp + (b.EndPos() - rp) == base + b.EndPos();
  }

  lemma StoreRemove(ooo: seq<Block>, i: nat, base: int, rp: int, c: int -> byte)
    requires i < |ooo| && Store(ooo, base, rp, c)
    ensures Store(ooo[..i] + ooo[i+1..], base, rp, c)
  {
    var rest := ooo[..i] + ooo[i+1..];
    forall j | 0 <= j < |rest| ensures Placed(rest[j], base, rp) && Fits(rest[j], c) {
      assert rest[j] == ooo[if j < i then j else j + 1];
    }
  }

  lemma CoveredRemove(ooo: seq<Block>, i: nat, x: int)
    requires i < |ooo|
    ensures Covered(ooo, x) <==> Covered(ooo[..i] + ooo[i+1..], x) || Reaches(ooo[i], x)
  {
    var rest := ooo[..i] + ooo[i+1..];
    if Covered(ooo, x) {
      var j :| 0 <= j < |ooo| && Reaches(ooo[j], x);
      if j != i { assert rest[if j < i then j else j - 1] == ooo[j]; }
    }
    if Covered(rest, x) {
      var j :| 0 <= j < |rest| && Reaches(rest[j], x);
      assert rest[j] == ooo[if j < i then j else j + 1];
    }
  }

  /** What a merge from `e` to `f` achieves, given the bytes `c` the blocks agree on. */
  ghost predicate Merged(e: Engine, f: Engine, base: int, c: int -> byte) {
    var rp, rp' := RecvPos(e.hist), RecvPos(f.hist);
    && rp <= rp'
    && f.hist == e.hist.(delivered := f.hist.delivered)
    && f.hist.delivered == e.hist.delivered + Bytes(c, rp, rp')
    && f.rcv.nxt == Wrap(base + rp')
    && (forall x :: rp <= x < rp' ==> Covered(e.rcv.ooo, x))
    && !Covered(e.rcv.ooo, rp')
    && (forall b :: b in f.rcv.ooo <==> b in e.rcv.ooo && b.pos > rp')
  }

  /** The merge delivers up to the first uncovered position and keeps exactly the blocks beyond it. */
  lemma {:induction false} MergeIsMaximal(e: Engine, base: int, rp0: int, c: int -> byte)
    requires Store(e.rcv.ooo, base, rp0, c)
    requires e.rcv.nxt == Wrap(base + RecvPos(e.hist)) && rp0 <= RecvPos(e.hist) < rp0 + QUARTER
    ensures Merged(e, Merge(e), base, c) && RecvPos(Merge(e).hist) < rp0 + QUARTER
    decreases |e.rcv.ooo|
  {
    hide MergeStep, Wrap, Placed, Fits;
    var rp := RecvPos(e.hist);
    var i := FirstMergeable(e.rcv.ooo, e.rcv.nxt);
    if i == |e.rcv.ooo| {
      NothingMergeable(e, base, rp0, c);
    } else {
      MergeStepSpec(e, i, base, rp0, c);
      StoreRemove(e.rcv.ooo, i, base, rp0, c);
      var f := MergeStep(e, i);
      MergeIsMaximal(f, base, rp0, c);
      MergedOneMore(e, i, f, Merge(f), base, c);
    }
  }

  lemma NothingMergeable(e: Engine, base: int, rp0: int, c: int -> byte)
    requires Store(e.rcv.ooo, base, rp0, c)
    requires e.rcv.nxt == Wrap(base + RecvPos(e.hist)) && rp0 <= RecvPos(e.hist) < rp0 + QUARTER
    requires forall j :: 0 <= j < |e.rcv.ooo| ==> !Mergeable(e.rcv.ooo[j], e.rcv.nxt)
    ensures Merged(e, e, base, c)
  {
    var rp := RecvPos(e.hist);
    forall j | 0 <= j < |e.rcv.ooo| ensures e.rcv.ooo[j].pos > rp {
      assert !Mergeable(e.rcv.ooo[j], e.rcv.nxt);
      PlacedTests(e.rcv.ooo[j], base, rp0, rp);
    }
    assert Bytes(c, rp, rp) == [];
    assert e.hist.delivered + [] == e.hist.delivered;
  }

  lemma MergedOneMore(e: Engine, i: nat, f: Engine, g: Engine, base: int, c: int -> byte)
    requires i < |e.rcv.ooo| && f.rcv.ooo == e.rcv.ooo[..i] + e.rcv.ooo[i+1..]
    requires f.hist == e.hist.(delivered := f.hist.delivered)
    requires var b, rp, rp' := e.rcv.ooo[i], RecvPos(e.hist), RecvPos(f.hist);
             rp' == Max(rp, b.EndPos()) && b.pos <= rp' && (rp < rp' ==> b.pos <= rp)
             && f.hist.delivered == e.hist.delivered + Bytes(c, rp, rp')
    requires Merged(f, g, base, c)
    ensures Merged(e, g, base, c)
  {
    hide Wrap, Covered, Bytes;
    var b, rp, rp', rq := e.rcv.ooo[i], RecvPos(e.hist), RecvPos(f.hist), RecvPos(g.hist);
    BytesJoin(c, rp, rp', rq);
    assert (e.hist.delivered + Bytes(c, rp, rp')) + Bytes(c, rp', rq)
        == e.hist.delivered + (Bytes(c, rp, rp') + Bytes(c, rp', rq));
    forall x | rp <= x < rq ensures Covered(e.rcv.ooo, x) {
      CoveredRemove(e.rcv.ooo, i, x);
      if x < rp' { assert Reaches(b, x); }
    }
    CoveredRemove(e.rcv.ooo, i, rq);
    KeptBeyond(e.rcv.ooo, i, f.rcv.ooo, g.rcv.ooo, rq);
  }

  /** Removing a block that starts no later than `rq` does not change which blocks lie beyond it. */
  lemma KeptBeyond(ooo: seq<Block>, i: nat, rest: seq<Block>, left: seq<Block>, rq: int)
    requires i < |ooo| && rest == ooo[..i] + ooo[i+1..] && ooo[i].pos <= rq
    requires forall b :: b in left <==> b in rest && b.pos > rq
    ensures forall b :: b in left <==> b in ooo && b.pos > rq
  {
    forall d ensures d in left <==> d in ooo && d.pos > rq {
      if d in ooo && d.pos > rq {
        var j :| 0 <= j < |ooo| && ooo[j] == d;
        assert rest[if j < i then j else j - 1] == d;
      }
    }
  }

  /** Two stores that cover the same positions merge to the same result, whatever blocks they hold in
      whatever order. */
  lemma MergeDependsOnCoverageOnly(e: Engine, f: Engine, base: int, rp0: int, c: int -> byte)
    requires Store(e.rcv.ooo, base, rp0, c) && Store(f.rcv.ooo, base, rp0, c)
    requires e.hist == f.hist && e.rcv.nxt == f.rcv.nxt == Wrap(base + RecvPos(e.hist))
    requires rp0 <= RecvPos(e.hist) < rp0 + QUARTER
    requires forall x :: Covered(e.rcv.ooo, x) <==> Covered(f.rcv.ooo, x)
    ensures Merge(e).hist == Merge(f).hist && Merge(e).rcv.nxt == Merge(f).rcv.nxt
  {
    hide Merge, Wrap, Store, Covered;
    MergeIsMaximal(e, base, rp0, c);
    MergeIsMaximal(f, base, rp0, c);
    var p, q := RecvPos(Merge(e).hist), RecvPos(Merge(f).hist);
    assert Covered(e.rcv.ooo, p) <==> Covered(f.rcv.ooo, p);
    assert Covered(e.rcv.ooo, q) <==> Covered(f.rcv.ooo, q);
  }

  // ---------------------------------------------------------------------------------------------
  // Storing
  // ---------------------------------------------------------------------------------------------

  /** A piece of the stream, by position. */
  datatype Piece = Piece(pos: int, data: seq<byte>)

  predicate PieceReaches(p: Piece, x: int) { p.pos <= x < p.pos + |p.data| }

  ghost predicate PieceOk(p: Piece, rp: int, c: int -> byte) {
    && rp - QUARTER < p.pos && p.pos + |p.data| < rp + QUARTER
    && (forall k :: 0 <= k < |p.data| ==> p.data[k] == c(p.pos + k))
  }

  /** Storing adds what the piece reaches to what is covered, whether or not the piece was subsumed. */
  lemma StoreCovers(e: Engine, p: Piece, base: int, c: int -> byte)
    requires Store(e.rcv.ooo, base, RecvPos(e.hist), c) && e.rcv.nxt == Wrap(base + RecvPos(e.hist))
    requires PieceOk(p, RecvPos(e.hist), c)
    ensures var f := StoreOoo(e, Wrap(base + p.pos), p.data);
            && Store(f.rcv.ooo, base, RecvPos(e.hist), c)
            && f == e.(rcv := e.rcv.(ooo := f.rcv.ooo))
            && (forall x :: Covered(f.rcv.ooo, x) <==> Covered(e.rcv.ooo, x) || PieceReaches(p, x))
  {
    var rp, sn, ooo := RecvPos(e.hist), Wrap(base + p.pos), e.rcv.ooo;
    SerialOrder(base, p.pos, rp);
    var f := StoreOoo(e, sn, p.data);
    if Subsumed(ooo, sn, |p.data|) {
      var i :| 0 <= i < |ooo| && ooo[i].seqNo == sn && |ooo[i].data| >= |p.data|;
      SerialOrder(base, ooo[i].pos, p.pos);
      assert forall x :: PieceReaches(p, x) ==> Reaches(ooo[i], x);
    } else {
      var b := Block(sn, p.data, p.pos);
      assert f.rcv.ooo == ooo + [b];
      forall x ensures Covered(f.rcv.ooo, x) <==> Covered(ooo, x) || PieceReaches(p, x) {
        CoveredAppend(ooo, b, x);
      }
    }
  }

  lemma CoveredAppend(ooo: seq<Block>, b: Block, x: int)
    ensures Covered(ooo + [b], x) <==> Covered(ooo, x) || Reaches(b, x)
  {
    var all := ooo + [b];
    if Covered(ooo, x) { var i :| 0 <= i < |ooo| && Reaches(ooo[i], x); assert Reaches(all[i], x); }
    if Reaches(b, x) { assert Reaches(all[|ooo|], x); }
  }

  function StoreAll(e: Engine, base: int, ps: seq<Piece>): Engine
    decreases |ps|
  {
    if ps == [] then e else StoreAll(StoreOoo(e, Wrap(base + ps[0].pos), ps[0].data), base, ps[1..])
  }

  ghost predicate SomeReaches(ps: seq<Piece>, x: int) { exists p :: p in ps && PieceReaches(p, x) }

  lemma {:induction false} StoreAllCovers(e: Engine, ps: seq<Piece>, base: int, c: int -> byte)
    requires Store(e.rcv.ooo, base, RecvPos(e.hist), c) && e.rcv.nxt == Wrap(base + RecvPos(e.hist))
    requires forall p :: p in ps ==> PieceOk(p, RecvPos(e.hist), c)
    ensures var f := StoreAll(e, base, ps);
            && Store(f.rcv.ooo, base, RecvPos(e.hist), c)
            && f == e.(rcv := e.rcv.(ooo := f.rcv.ooo))
            && (forall x :: Covered(f.rcv.ooo, x) <==> Covered(e.rcv.ooo, x) || SomeReaches(ps, x))
    decreases |ps|
  {
    hide StoreOoo, Store, Wrap, PieceOk, Covered;
    if ps != [] {
      StoreCovers(e, ps[0], base, c);
      var g := StoreOoo(e, Wrap(base + ps[0].pos), ps[0].data);
      StoreAllCovers(g, ps[1..], base, c);
      var f := StoreAll(e, base, ps);
      forall x ensures Covered(f.rcv.ooo, x) <==> Covered(e.rcv.ooo, x) || SomeReaches(ps, x) {
        assert SomeReaches(ps, x) <==> PieceReaches(ps[0], x) || SomeReaches(ps[1..], x);
      }
    }
  }

  /** Pieces of one stream arriving in any order, any number of times, reassemble to the same delivery. */
  lemma ArrivalOrderDoesNotMatter(e: Engine, ps: seq<Piece>, qs: seq<Piece>, base: int, c: int -> byte)
    requires Store(e.rcv.ooo, base, RecvPos(e.hist), c) && e.rcv.nxt == Wrap(base + RecvPos(e.hist))
    requires forall p :: p in ps ==> PieceOk(p, RecvPos(e.hist), c)
    requires forall p :: p in ps <==> p in qs
    ensures var f, g := Merge(StoreAll(e, base, ps)), Merge(StoreAll(e, base, qs));
            f.hist == g.hist && f.rcv.nxt == g.rcv.nxt
  {
    hide Store, Merge, StoreAll, Covered, PieceOk, Wrap;
    StoreAllCovers(e, ps, base, c);
    StoreAllCovers(e, qs, base, c);
    forall x ensures SomeReaches(ps, x) <==> SomeReaches(qs, x) {
    }
    MergeDependsOnCoverageOnly(StoreAll(e, base, ps), StoreAll(e, base, qs), base, RecvPos(e.hist), c);
  }
}

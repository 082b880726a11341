/** What the heap invariant means for whole programs. */
module HeapTheorems {
  import opened Types
  import opened HeapState

  function MaxRank(strg: seq<Storage>): (r: nat)
    ensures forall p: nat :: p < |strg| ==> Rank(strg[p].elem) <= r
  {
    if strg == [] then 0
    else
      var (front, last) := (MaxRank(strg[..|strg| - 1]), Rank(strg[|strg| - 1].elem));
      if front < last then last else front
  }

  /** A counted storage that is not held outside memory has a handle in memory. */
  lemma HandleExists(st: State, extra: multiset<nat>, q: nat) returns (i: nat)
    requires Counted(st, extra) && q < |st.strg| && st.strg[q].live && st.strg[q].ref >= 1 && extra[q] == 0
    ensures i < |st.mem| && st.mem[i] == Handle(q)
  {
    assert Handle(q) in multiset(st.mem);
    assert Handle(q) in st.mem;
    i :| i < |st.mem| && st.mem[i] == Handle(q);
  }

  /** A handle inside the block of a storage leads to a storage of lower rank. */
  lemma BlockHandleRank(st: State, extra: multiset<nat>, busy: set<nat>, p: nat, i: nat)
    requires Inv(st, extra, busy) && p < |st.strg| && st.strg[p].live && p !in busy
    requires InBlock(st.strg[p], i) && i < |st.mem| && st.mem[i].Handle?
    ensures st.mem[i].ptr < |st.strg|
    ensures Rank(st.strg[st.mem[i].ptr].elem) < Rank(st.strg[p].elem)
  {
    var s := st.strg[p];
    assert AtRest(st, p);
    var k := i - s.dat;
    assert k < Span(s.elem, s.len);
    assert CellOk(st, st.mem[s.dat + k], FlatN(s.elem, s.len)[k]);
    LeafRankN(s.elem, s.len, k);
  }

  /** Where every program starts. */
  lemma EmptyHeap(size: nat)
    ensures Inv(State(seq(size, _ => Raw), []), multiset{}, {})
  {
    var raws: seq<Cell> := seq(size, _ => Raw);
    forall p: nat ensures Count(raws, p) == 0 {
      assert Handle(p) !in raws;
    }
  }

  // ---- no garbage

  /** A cell that belongs to no storage: a variable, parameter or temporary. */
  ghost predicate RootCell(st: State, i: nat) {
    forall p: nat {:trigger InBlock(st.strg[p], i)} :: p < |st.strg| && st.strg[p].live ==> !InBlock(st.strg[p], i)
  }

  ghost predicate RootPointsTo(st: State, q: nat) {
    exists i: nat :: i < |st.mem| && st.mem[i] == Handle(q) && RootCell(st, i)
  }

  ghost predicate PointsTo(st: State, p: nat, q: nat) {
    && p < |st.strg| && st.strg[p].live
    && exists i: nat :: i < |st.mem| && st.mem[i] == Handle(q) && InBlock(st.strg[p], i)
  }

  ghost predicate Chain(st: State, path: seq<nat>, q: nat) {
    && |path| > 0 && path[|path| - 1] == q && RootPointsTo(st, path[0])
    && forall k: nat {:trigger path[k]} :: 1 <= k < |path| ==> PointsTo(st, path[k - 1], path[k])
  }

  /** Between statements, every storage that has not been freed can be reached
      from a variable: counting never leaks. */
  lemma {:induction false} LiveIsReachable(st: State, q: nat) returns (path: seq<nat>)
    requires Inv(st, multiset{}, {}) && q < |st.strg| && st.strg[q].live
    ensures Chain(st, path, q)
    decreases MaxRank(st.strg) - Rank(st.strg[q].elem)
  {
    hide Inv, InBlock, Rank, PointsTo;
    var i := HeldByCell(st, q);
    if RootCell(st, i) {
      path := [q];
    } else {
      var p: nat :| p < |st.strg| && st.strg[p].live && InBlock(st.strg[p], i);
      BlockHandleRank(st, multiset{}, {}, p, i);
      var front := LiveIsReachable(st, p);
      path := front + [q];
      BlockPointsTo(st, p, q, i);
    }
  }

  lemma HeldByCell(st: State, q: nat) returns (i: nat)
    requires Inv(st, multiset{}, {}) && q < |st.strg| && st.strg[q].live
    ensures i < |st.mem| && st.mem[i] == Handle(q)
  {
    assert AtRest(st, q);
    i := HandleExists(st, multiset{}, q);
  }

  lemma BlockPointsTo(st: State, p: nat, q: nat, i: nat)
    requires p < |st.strg| && st.strg[p].live && i < |st.mem| && st.mem[i] == Handle(q) && InBlock(st.strg[p], i)
    ensures PointsTo(st, p, q)
  {
  }

  /** Once no variable holds a handle, everything has been freed. */
  lemma NothingLeaks(st: State)
    requires Inv(st, multiset{}, {})
    requires forall i: nat :: i < |st.mem| && st.mem[i].Handle? ==> !RootCell(st, i)
    ensures forall q: nat :: q < |st.strg| ==> !st.strg[q].live
  {
    forall q: nat | q < |st.strg| ensures !st.strg[q].live {
      if st.strg[q].live {
        var path := LiveIsReachable(st, q);
      }
    }
  }

  /** No handle dangles: what a cell points to has not been freed, and counts it. */
  lemma NothingDangles(st: State, extra: multiset<nat>, busy: set<nat>, i: nat)
    requires Inv(st, extra, busy) && i < |st.mem| && st.mem[i].Handle?
    ensures st.mem[i].ptr < |st.strg| && st.strg[st.mem[i].ptr].live && st.strg[st.mem[i].ptr].ref >= 1
  {
    HandleIsLive(st, extra, i);
  }

  // ---- letting go of handles has one outcome

  /** Two outcomes of an operation that agree on the cells it writes. */
  ghost predicate Outcomes(st0: State, st1: State, st2: State, touched: set<nat>, r: nat) {
    && Swept(st0, st1, touched, r) && Swept(st0, st2, touched, r)
    && forall i: nat :: i < |st0.mem| && i in touched ==> st1.mem[i] == st2.mem[i]
  }

  lemma {:induction false} SameVictims(st0: State, st1: State, st2: State, extra0: multiset<nat>, extra: multiset<nat>,
                    busy: set<nat>, touched: set<nat>, r: nat, q: nat)
    requires Inv(st0, extra0, busy) && Inv(st1, extra, busy) && Inv(st2, extra, busy)
    requires Outcomes(st0, st1, st2, touched, r)
    requires q < |st0.strg| && st0.strg[q].live && !st1.strg[q].live
    ensures !st2.strg[q].live
    decreases MaxRank(st0.strg) - Rank(st0.strg[q].elem)
  {
    if st2.strg[q].live {
      assert q !in busy && AtRest(st2, q);
      var i := HandleExists(st2, extra, q);
      assert st1.mem[i] != Handle(q) by {
        assert Count(st1.mem, q) == 0;
        assert st1.mem[i] in multiset(st1.mem);
      }
      assert i !in touched && st0.mem[i] == Handle(q);
      assert Freed(st0, st1, i);
      var p: nat :| p < |st0.strg| && st0.strg[p].live && !st1.strg[p].live && InBlock(st0.strg[p], i);
      BlockHandleRank(st0, extra0, busy, p, i);
      SameVictims(st0, st1, st2, extra0, extra, busy, touched, r, p);
      assert Freed(st0, st2, i);
    }
  }

  /** The invariant leaves an operation that destroys or assigns no choice: which
      storages are freed, every cell and every count are determined by the state
      before and by the cells it writes. */
  lemma SweepIsUnique(st0: State, st1: State, st2: State, extra0: multiset<nat>, extra: multiset<nat>,
                      busy: set<nat>, touched: set<nat>, r: nat)
    requires Inv(st0, extra0, busy) && Inv(st1, extra, busy) && Inv(st2, extra, busy)
    requires Outcomes(st0, st1, st2, touched, r)
    ensures st1 == st2
  {
    forall q: nat | q < |st0.strg| ensures st1.strg[q].live == st2.strg[q].live {
      if st0.strg[q].live && !st1.strg[q].live {
        SameVictims(st0, st1, st2, extra0, extra, busy, touched, r, q);
      }
      if st0.strg[q].live && !st2.strg[q].live {
        SameVictims(st0, st2, st1, extra0, extra, busy, touched, r, q);
      }
    }
    forall i: nat | i < |st0.mem| ensures st1.mem[i] == st2.mem[i] {
      assert Freed(st0, st1, i) == Freed(st0, st2, i);
    }
    assert st1.mem == st2.mem;
    forall q: nat | q < |st0.strg| ensures st1.strg[q] == st2.strg[q] {
    }
    assert st1.strg == st2.strg;
  }

  lemma DropIsUnique(st0: State, st1: State, st2: State, extra0: multiset<nat>, extra: multiset<nat>,
                     busy: set<nat>, lo: nat, hi: nat, r: nat)
    requires Inv(st0, extra0, busy) && Inv(st1, extra, busy) && Inv(st2, extra, busy)
    requires Dropped(st0, st1, lo, hi, r) && Dropped(st0, st2, lo, hi, r)
    ensures st1 == st2
  {
    SweepIsUnique(st0, st1, st2, extra0, extra, busy, Range(lo, hi), r);
  }

  lemma AssignIsUnique(st0: State, st1: State, st2: State, extra0: multiset<nat>, extra: multiset<nat>,
                       busy: set<nat>, dst: nat, src: nat, n: nat, r: nat)
    requires Inv(st0, extra0, busy) && Inv(st1, extra, busy) && Inv(st2, extra, busy)
    requires Swept(st0, st1, Range(dst, dst + n), r) && Assigned(st0.mem, st1.mem, dst, src, n)
    requires Swept(st0, st2, Range(dst, dst + n), r) && Assigned(st0.mem, st2.mem, dst, src, n)
    ensures st1 == st2
  {
    SweepIsUnique(st0, st1, st2, extra0, extra, busy, Range(dst, dst + n), r);
  }

  /** Objects without handles are destroyed by forgetting them. */
  lemma EraseIsDrop(st: State, st1: State, extra: multiset<nat>, busy: set<nat>, lo: nat, hi: nat, r: nat)
    requires Inv(st, extra, busy) && Inv(st1, extra, busy) && Dropped(st, st1, lo, hi, r)
    requires lo <= hi <= |st.mem| && Loose(st, lo, hi, busy) && NoHandles(st, lo, hi)
    ensures st1.strg == st.strg && |st1.mem| == |st.mem|
    ensures forall i: nat :: i < |st.mem| ==> st1.mem[i] == if lo <= i < hi then Raw else st.mem[i]
  {
    var st2 := st.(mem := seq(|st.mem|, i requires 0 <= i < |st.mem| => if lo <= i < hi then Raw else st.mem[i]));
    EraseKeeps(st, extra, busy, lo, hi, st2);
    EraseDrops(st, st2, lo, hi, r);
    hide Inv, Dropped;
    DropIsUnique(st, st1, st2, extra, extra, busy, lo, hi, r);
  }

  lemma EraseDrops(st: State, st2: State, lo: nat, hi: nat, r: nat)
    requires lo <= hi <= |st.mem| && st2 == st.(mem := st2.mem) && |st2.mem| == |st.mem|
    requires forall i: nat :: i < |st.mem| ==> st2.mem[i] == if lo <= i < hi then Raw else st.mem[i]
    ensures Dropped(st, st2, lo, hi, r)
  {
    assert forall i: nat :: i < |st.mem| ==> !Freed(st, st2, i);
  }

  /** Destroying a fresh copy undoes the copy: memory and all counts. */
  lemma CopyDropped(st0: State, st1: State, st2: State, extra: multiset<nat>, busy: set<nat>, dst: nat, src: nat, n: nat, r: nat)
    requires Inv(st0, extra, busy) && Inv(st1, extra, busy) && Inv(st2, extra, busy)
    requires IsRaw(st0.mem, dst, dst + n)
    requires Copied(st0.mem, st1.mem, dst, src, n) && RefsOnly(st0.strg, st1.strg)
    requires Dropped(st1, st2, dst, dst + n, r)
    ensures st2 == st0
  {
    hide Inv, Dropped;
    CopyUndone(st0, st1, extra, busy, dst, src, n, r);
    DropIsUnique(st1, st2, st0, extra, extra, busy, dst, dst + n, r);
  }

  lemma CopyUndone(st0: State, st1: State, extra: multiset<nat>, busy: set<nat>, dst: nat, src: nat, n: nat, r: nat)
    requires Inv(st0, extra, busy) && Inv(st1, extra, busy) && IsRaw(st0.mem, dst, dst + n)
    requires Copied(st0.mem, st1.mem, dst, src, n) && RefsOnly(st0.strg, st1.strg)
    ensures Dropped(st1, st0, dst, dst + n, r)
  {
    hide Inv;
    forall p: nat | p < |st0.strg| ensures st0.strg[p].ref <= st1.strg[p].ref {
      CountMonotone(st0.mem, st1.mem, p);
      RefIsCount(st0, extra, busy, p);
      RefIsCount(st1, extra, busy, p);
    }
    assert forall i: nat :: i < |st1.mem| ==> !Freed(st1, st0, i);
  }

  lemma RefIsCount(st: State, extra: multiset<nat>, busy: set<nat>, p: nat)
    requires Inv(st, extra, busy) && p < |st.strg|
    ensures st.strg[p].ref == Count(st.mem, p) + extra[p]
  {
  }

  /** Moving an object and destroying what is left of it relocates it. */
  lemma MoveDropped(st0: State, st1: State, st2: State, extra: multiset<nat>, busy: set<nat>, dst: nat, src: nat, n: nat, r: nat)
    requires Inv(st1, extra, busy) && Inv(st2, extra, busy) && Apart(dst, src, n)
    requires Moved(st0.mem, st1.mem, dst, src, n) && st1.strg == st0.strg && Loose(st1, src, src + n, busy)
    requires Dropped(st1, st2, src, src + n, r)
    ensures Relocated(st0.mem, st2.mem, dst, src, n) && st2.strg == st0.strg
  {
    EraseIsDrop(st1, st2, extra, busy, src, src + n, r);
  }
}

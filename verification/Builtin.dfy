/** The built-in operations on arrays. Each is proved against the matching
    operation on sequences of cells. */
module Builtin {
  import opened Types
  import opened HeapState
  import opened HeapTheorems
  import opened Lifetime
  import opened Growth

  const MAX_LEN: nat := 0x8000_0000

  /** The cells of the elements of array storage `p`, in order. */
  ghost function Elements(st: State, p: nat): seq<Cell>
    requires p < |st.strg| && st.strg[p].dat + Span(st.strg[p].elem, st.strg[p].len) <= |st.mem|
  {
    st.mem[st.strg[p].dat..st.strg[p].dat + Span(st.strg[p].elem, st.strg[p].len)]
  }

  ghost predicate IsArray(st: State, a: nat, e: Type) {
    && Inv(st, multiset{}, {}) && a < |st.mem| && st.mem[a].Handle?
    && st.mem[a].ptr < |st.strg| && st.strg[st.mem[a].ptr].live && st.strg[st.mem[a].ptr].elem == e
    && st.strg[st.mem[a].ptr].dat + Span(e, st.strg[st.mem[a].ptr].len) <= |st.mem|
  }

  /** Storage `p` is being changed; its first `n` slots are initialised, the others raw. */
  ghost predicate Open(st: State, p: nat, n: nat) {
    && Inv(st, multiset{}, {p}) && p < |st.strg| && st.strg[p].ref >= 1 && n <= st.strg[p].cap
    && Holds(st, st.strg[p].dat, FlatN(st.strg[p].elem, n))
    && IsRaw(st.mem, st.strg[p].dat + Span(st.strg[p].elem, n),
             st.strg[p].dat + Span(st.strg[p].elem, st.strg[p].cap))
  }

  /** Besides `p`, storages differ only in their counts; besides the old block of
      `p`, no existing cell differs. */
  ghost predicate OnlyArray(st0: State, st1: State, p: nat) {
    && p < |st0.strg| <= |st1.strg| && |st0.mem| <= |st1.mem|
    && (forall q: nat :: q < |st0.strg| && q != p ==> st1.strg[q] == st0.strg[q].(ref := st1.strg[q].ref))
    && (forall i: nat :: i < |st0.mem| && !InBlock(st0.strg[p], i) ==> st1.mem[i] == st0.mem[i])
  }

  lemma OpenUp(st: State, p: nat)
    requires Inv(st, multiset{}, {}) && p < |st.strg| && st.strg[p].live
    ensures Open(st, p, st.strg[p].len)
  {
    assert AtRest(st, p);
  }

  lemma Close(st: State, p: nat, n: nat, st': State)
    requires Open(st, p, n) && st' == st.(strg := st.strg[p := st.strg[p].(len := n)])
    ensures Inv(st', multiset{}, {})
  {
    hide FlatN;
    forall q: nat | q < |st'.strg| && st'.strg[q].live ensures AtRest(st', q) {
      if q != p {
        assert AtRest(st, q);
      }
      HoldsKept(st, st', st'.strg[q].dat, FlatN(st'.strg[q].elem, st'.strg[q].len));
    }
    assert forall q: nat, i: int :: q < |st.strg| ==> InBlock(st'.strg[q], i) == InBlock(st.strg[q], i);
  }

  // ---- bulk copies

  lemma AllocKeeps(st: State, extra: multiset<nat>, busy: set<nat>, n: nat, st': State)
    requires Inv(st, extra, busy)
    requires st' == st.(mem := st.mem + seq(n, _ => Raw))
    ensures Inv(st', extra, busy) && IsRaw(st'.mem, |st.mem|, |st.mem| + n)
    ensures Loose(st', |st.mem|, |st.mem| + n, {})
  {
    var raws: seq<Cell> := seq(n, _ => Raw);
    forall p: nat ensures Count(st'.mem, p) == Count(st.mem, p) {
      assert Handle(p) !in raws;
    }
    forall p: nat | p < |st'.strg| && st'.strg[p].live && p !in busy ensures AtRest(st', p) {
      assert AtRest(st, p);
      HoldsKept(st, st', st.strg[p].dat, FlatN(st.strg[p].elem, st.strg[p].len));
    }
  }

  /** Only the cells [lo, lo + n) differ. */
  ghost predicate WroteAt(m1: seq<Cell>, m2: seq<Cell>, lo: nat, n: nat) {
    lo + n <= |m1| == |m2| && forall i: nat :: i < |m1| && !(lo <= i < lo + n) ==> m2[i] == m1[i]
  }

  /** Plain numbers may be written over raw cells in bulk. */
  lemma {:induction false} WriteNumbersKeeps(st: State, extra: multiset<nat>, busy: set<nat>, lo: nat, n: nat, st': State)
    requires Inv(st, extra, busy) && IsRaw(st.mem, lo, lo + n) && Loose(st, lo, lo + n, busy)
    requires WroteAt(st.mem, st'.mem, lo, n) && st'.strg == st.strg && NoHandles(st', lo, lo + n)
    ensures Inv(st', extra, busy)
    decreases n
  {
    if n == 0 {
      assert st'.mem == st.mem;
    } else {
      hide Inv;
      var st1 := st.(mem := st.mem[lo := st'.mem[lo]]);
      assert extra - multiset{} == extra;
      StoreKeeps(st, extra, busy, lo, st'.mem[lo], st1);
      LooseRefsOnly(st, st1, lo, lo + n, busy);
      WriteNumbersKeeps(st1, extra, busy, lo + 1, n - 1, st');
    }
  }

  lemma NumbersHoldNoHandles(st: State, a: nat, t: Type, n: nat)
    requires t.BtnType? && Holds(st, a, FlatN(t, n))
    ensures Span(t, n) == n && NoHandles(st, a, a + n)
  {
    SpanIsProduct(t, n);
    forall i: nat | a <= i < a + n ensures !st.mem[i].Handle? {
      NumberLayout(t, n, i - a);
      assert CellOk(st, st.mem[a + (i - a)], FlatN(t, n)[i - a]);
    }
  }

  lemma {:induction false} NumberLayout(t: Type, n: nat, i: nat)
    requires t.BtnType? && i < |FlatN(t, n)|
    ensures FlatN(t, n)[i] == Word(t.kind)
  {
    if i < |FlatN(t, n - 1)| {
      NumberLayout(t, n - 1, i);
    }
  }

  lemma RelocatedThen(m0: seq<Cell>, m1: seq<Cell>, m2: seq<Cell>, dst: nat, src: nat, n: nat, k: nat)
    requires Relocated(m0, m1, dst, src, n) && Relocated(m1, m2, dst + n, src + n, k)
    requires Apart(dst, src, n + k)
    ensures Relocated(m0, m2, dst, src, n + k)
  {
    forall i: nat | i < |m0|
      ensures m2[i] == if dst <= i < dst + (n + k) then m0[src + (i - dst)]
                       else if src <= i < src + (n + k) then Raw
                       else m0[i]
    {
      if dst + n <= i < dst + n + k {
        assert m1[(src + n) + (i - (dst + n))] == m0[src + (i - dst)];
      }
    }
  }

  /** What the bulk moves and copies need of their source and destination. */
  ghost predicate BulkReady(st: State, e: Type, src: nat, len: nat, dst: nat, busy: set<nat>) {
    && Holds(st, src, FlatN(e, len)) && Apart(dst, src, Span(e, len))
    && IsRaw(st.mem, dst, dst + Span(e, len)) && Loose(st, dst, dst + Span(e, len), busy)
  }

  /** What the loop of a bulk move needs after some elements: the rest is as it was. */
  lemma BulkStep(st: State, cur: State, e: Type, src: nat, len: nat, dst: nat, busy: set<nat>, k: nat)
    requires BulkReady(st, e, src, len, dst, busy) && k < len
    requires RefsOnly(st.strg, cur.strg)
    requires Copied(st.mem, cur.mem, dst, src, Span(e, k)) || Relocated(st.mem, cur.mem, dst, src, Span(e, k))
    ensures Span(e, k) + |Flat(e)| == Span(e, k + 1) <= Span(e, len)
    ensures var n := Span(e, k); var f := |Flat(e)|;
            && Holds(cur, src + n, Flat(e)) && IsRaw(cur.mem, dst + n, dst + n + f)
            && Loose(cur, dst + n, dst + n + f, busy) && Apart(dst + n, src + n, f) && Apart(dst, src, n + f)
  {
    hide Span, FlatN, Flat, Holds, CellOk;
    ElemHolds(st, src, e, len, k);
    LooseRefsOnly(st, cur, dst, dst + Span(e, len), busy);
    HoldsInMemory(st, src, FlatN(e, len));
    assert |FlatN(e, len)| == Span(e, len) by {
      SpanIsLength(e, len);
    }
    HoldsKept(st, cur, src + Span(e, k), Flat(e));
  }

  /** Moves `len` elements to raw memory and ends the lives of the originals. The
      block copy and the loop of moves leave the very same memory and counts. */
  method MoveN(h: Heap, e: Type, src: nat, len: nat, dst: nat, ghost busy: set<nat>)
    requires Inv(h.St(), multiset{}, busy) && BusyAbove(h.St(), busy, Rank(e))
    requires BulkReady(h.St(), e, src, len, dst, busy) && Loose(h.St(), src, src + Span(e, len), busy)
    modifies h
    ensures Inv(h.St(), multiset{}, busy)
    ensures Relocated(old(h.mem), h.mem, dst, src, Span(e, len)) && h.strg == old(h.strg)
    ensures h.moved == old(h.moved) + len
  {
    if ClassifyType(e) != Nontrivial {
      MoveBlock(h, e, src, len, dst, busy);
    } else {
      MoveLoop(h, e, src, len, dst, busy);
    }
    h.moved := h.moved + len;
  }

  /** The block copy: bytes, regardless of what they mean. */
  method MoveBlock(h: Heap, e: Type, src: nat, len: nat, dst: nat, ghost busy: set<nat>)
    requires Inv(h.St(), multiset{}, busy)
    requires BulkReady(h.St(), e, src, len, dst, busy) && Loose(h.St(), src, src + Span(e, len), busy)
    modifies h`mem, h`strg
    ensures Inv(h.St(), multiset{}, busy)
    ensures Relocated(old(h.mem), h.mem, dst, src, Span(e, len)) && h.strg == old(h.strg)
  {
    ghost var st := h.St();
    var m, n := h.mem, Span(e, len);
    h.mem := seq(|m|, i requires 0 <= i < |m| =>
      if dst <= i < dst + n then m[src + (i - dst)] else if src <= i < src + n then Raw else m[i]);
    RelocateKeeps(st, multiset{}, busy, dst, src, n, h.St());
  }

  method MoveLoop(h: Heap, e: Type, src: nat, len: nat, dst: nat, ghost busy: set<nat>)
    requires Inv(h.St(), multiset{}, busy) && BusyAbove(h.St(), busy, Rank(e))
    requires BulkReady(h.St(), e, src, len, dst, busy) && Loose(h.St(), src, src + Span(e, len), busy)
    modifies h`mem, h`strg
    ensures Inv(h.St(), multiset{}, busy)
    ensures Relocated(old(h.mem), h.mem, dst, src, Span(e, len)) && h.strg == old(h.strg)
  {
    hide Inv, BulkReady, Loose, Relocated, BusyAbove, Holds, IsRaw, Apart;
    ghost var st := h.St();
    BulkBounds(st, e, src, len, dst, busy);
    var s: nat, d: nat, n: nat := src, dst, len;
    ghost var k: nat := 0;
    while n != 0
      invariant n <= len && k == len - n && s == src + Span(e, k) && d == dst + Span(e, k)
      invariant Inv(h.St(), multiset{}, busy) && h.strg == st.strg
      invariant Relocated(st.mem, h.mem, dst, src, Span(e, k))
    {
      ghost var st1 := h.St();
      BulkStep(st, st1, e, src, len, dst, busy, k);
      SourceLoose(st, st1, src, src + Span(e, len), busy, s, s + |Flat(e)|, Rank(e));
      h.MoveThenDestroy(e, d, s, multiset{}, busy);
      RelocatedThen(st.mem, st1.mem, h.mem, dst, src, Span(e, k), |Flat(e)|);
      s, d, n, k := s + |Flat(e)|, d + |Flat(e)|, n - 1, k + 1;
    }
  }

  lemma SourceLoose(st: State, cur: State, lo: nat, hi: nat, busy: set<nat>, lo': nat, hi': nat, r: nat)
    requires Loose(st, lo, hi, busy) && BusyAbove(st, busy, r) && cur.strg == st.strg && lo <= lo' && hi' <= hi
    ensures Loose(cur, lo', hi', busy) && BusyAbove(cur, busy, r)
  {
    LooseRefsOnly(st, cur, lo, hi, busy);
  }

  lemma BulkBounds(st: State, e: Type, src: nat, len: nat, dst: nat, busy: set<nat>)
    requires BulkReady(st, e, src, len, dst, busy)
    ensures Relocated(st.mem, st.mem, dst, src, 0) && Copied(st.mem, st.mem, dst, src, 0)
  {
  }

  /** Copies `len` elements to raw memory. */
  method CopyN(h: Heap, e: Type, src: nat, len: nat, dst: nat, ghost busy: set<nat>)
    requires Inv(h.St(), multiset{}, busy) && BulkReady(h.St(), e, src, len, dst, busy)
    modifies h`mem, h`strg
    ensures Inv(h.St(), multiset{}, busy)
    ensures Copied(old(h.mem), h.mem, dst, src, Span(e, len)) && RefsOnly(old(h.strg), h.strg)
  {
    if ClassifyType(e) == TriviallyCopyable {
      ghost var st := h.St();
      var m, n := h.mem, Span(e, len);
      h.mem := seq(|m|, i requires 0 <= i < |m| => if dst <= i < dst + n then m[src + (i - dst)] else m[i]);
      NumbersHoldNoHandles(st, src, e, len);
      WriteNumbersKeeps(st, multiset{}, busy, dst, n, h.St());
    } else {
      CopyLoop(h, e, src, len, dst, busy);
    }
  }

  method CopyLoop(h: Heap, e: Type, src: nat, len: nat, dst: nat, ghost busy: set<nat>)
    requires Inv(h.St(), multiset{}, busy) && BulkReady(h.St(), e, src, len, dst, busy)
    modifies h`mem, h`strg
    ensures Inv(h.St(), multiset{}, busy)
    ensures Copied(old(h.mem), h.mem, dst, src, Span(e, len)) && RefsOnly(old(h.strg), h.strg)
  {
    hide Inv, BulkReady, Loose, Copied, Holds, IsRaw, Apart, RefsOnly;
    ghost var st := h.St();
    BulkBounds(st, e, src, len, dst, busy);
    SameRefs(st.strg);
    var s: nat, d: nat, n: nat := src, dst, len;
    ghost var k: nat := 0;
    while n != 0
      invariant n <= len && k == len - n && s == src + Span(e, k) && d == dst + Span(e, k)
      invariant Inv(h.St(), multiset{}, busy) && RefsOnly(st.strg, h.strg)
      invariant Copied(st.mem, h.mem, dst, src, Span(e, k))
    {
      ghost var st1 := h.St();
      BulkStep(st, st1, e, src, len, dst, busy, k);
      h.CopyConstruct(e, d, s, multiset{}, busy);
      CopiedThen(st.mem, st1.mem, h.mem, dst, src, Span(e, k), |Flat(e)|);
      RefsOnlyThen(st.strg, st1.strg, h.strg);
      s, d, n, k := s + |Flat(e)|, d + |Flat(e)|, n - 1, k + 1;
    }
  }

  lemma SameRefs(s: seq<Storage>)
    ensures RefsOnly(s, s)
  {
  }

  // ---- storage

  /** Giving a storage that is being changed another block. */
  lemma PlaceKeeps(st: State, p: nat, s: Storage, n: nat, st': State)
    requires Inv(st, multiset{}, {p}) && p < |st.strg| && st.strg[p].ref >= 1
    requires s == st.strg[p].(cap := s.cap, dat := s.dat) && n == s.len <= s.cap
    requires s.dat + Span(s.elem, s.cap) <= |st.mem| && Loose(st, s.dat, s.dat + Span(s.elem, s.cap), {p})
    requires Holds(st, s.dat, FlatN(s.elem, n))
    requires IsRaw(st.mem, s.dat + Span(s.elem, n), s.dat + Span(s.elem, s.cap))
    requires st' == st.(strg := st.strg[p := s])
    ensures Open(st', p, n)
  {
    hide FlatN, Span;
    HoldsKept(st, st', s.dat, FlatN(s.elem, n));
    forall q: nat | q < |st'.strg| && st'.strg[q].live && q != p ensures AtRest(st', q) {
      assert AtRest(st, q);
      HoldsKept(st, st', st.strg[q].dat, FlatN(st.strg[q].elem, st.strg[q].len));
    }
    forall q: nat, i: int | q < |st'.strg| && st'.strg[q].live && q != p && InBlock(st'.strg[q], i)
      ensures !InBlock(st'.strg[p], i) {
      assert InBlock(st.strg[q], i);
    }
  }

  /** The block of a storage is replaced; its elements move along. */
  method Reallocate(h: Heap, p: nat, cap: nat)
    requires p < |h.strg| && Open(h.St(), p, h.strg[p].len) && h.strg[p].len <= cap
    modifies h
    ensures Open(h.St(), p, old(h.strg[p].len))
    ensures h.strg == old(h.strg)[p := old(h.strg[p]).(cap := cap, dat := |old(h.mem)|)]
    ensures |h.mem| == |old(h.mem)| + Span(h.strg[p].elem, cap)
    ensures var s := old(h.strg[p]); forall i: nat :: i < |old(h.mem)| ==>
              h.mem[i] == if InBlock(s, i) then Raw else old(h.mem)[i]
    ensures var s := old(h.strg[p]); Assigned(old(h.mem), h.mem, |old(h.mem)|, s.dat, Span(s.elem, s.len))
    ensures h.moved == old(h.moved + h.strg[p].len)
  {
    hide Inv, BulkReady, Loose, BusyAbove, Holds, IsRaw, Apart, Span, FlatN;
    ghost var st := h.St();
    var s := h.strg[p];
    var newDat := |h.mem|;
    OpenFacts(st, p, s.len);
    h.mem := h.mem + seq(Span(s.elem, cap), _ => Raw);
    ghost var st1 := h.St();
    AllocKeeps(st, multiset{}, {p}, Span(s.elem, cap), st1);
    ReallocReady(st, st1, p, cap);
    MoveN(h, s.elem, s.dat, s.len, newDat, {p});
    ghost var st2 := h.St();
    ReallocMoved(st, st1, st2, p, cap);
    h.strg := h.strg[p := s.(dat := newDat, cap := cap)];
    PlaceKeeps(st2, p, h.strg[p], s.len, h.St());
  }

  lemma OpenFacts(st: State, p: nat, n: nat)
    requires p < |st.strg| && Open(st, p, n)
    ensures Inv(st, multiset{}, {p}) && st.strg[p].live && st.strg[p].ref >= 1 && n <= st.strg[p].cap
    ensures Holds(st, st.strg[p].dat, FlatN(st.strg[p].elem, n))
    ensures Loose(st, st.strg[p].dat, st.strg[p].dat + Span(st.strg[p].elem, st.strg[p].cap), {p})
    ensures BusyAbove(st, {p}, Rank(st.strg[p].elem))
    ensures st.strg[p].dat + Span(st.strg[p].elem, st.strg[p].cap) <= |st.mem|
    ensures Span(st.strg[p].elem, n) <= Span(st.strg[p].elem, st.strg[p].cap)
    ensures IsRaw(st.mem, st.strg[p].dat + Span(st.strg[p].elem, n),
                  st.strg[p].dat + Span(st.strg[p].elem, st.strg[p].cap))
  {
    BusyBlockLoose(st, multiset{}, {p}, p);
    SpanMonotone(st.strg[p].elem, n, st.strg[p].cap);
  }

  lemma ReallocReady(st: State, st1: State, p: nat, cap: nat)
    requires p < |st.strg| && Open(st, p, st.strg[p].len) && st.strg[p].len <= cap
    requires st1 == st.(mem := st.mem + seq(Span(st.strg[p].elem, cap), _ => Raw))
    ensures var s := st.strg[p];
            && BulkReady(st1, s.elem, s.dat, s.len, |st.mem|, {p}) && BusyAbove(st1, {p}, Rank(s.elem))
            && Loose(st1, s.dat, s.dat + Span(s.elem, s.len), {p})
            && s.dat + Span(s.elem, s.len) <= |st.mem| && Span(s.elem, s.len) <= Span(s.elem, cap)
  {
    var s := st.strg[p];
    OpenFacts(st, p, s.len);
    SpanMonotone(s.elem, s.len, cap);
    HoldsKept(st, st1, s.dat, FlatN(s.elem, s.len));
  }

  lemma ReallocMoved(st: State, st1: State, st2: State, p: nat, cap: nat)
    requires p < |st.strg| && Open(st, p, st.strg[p].len) && st.strg[p].len <= cap
    requires st1 == st.(mem := st.mem + seq(Span(st.strg[p].elem, cap), _ => Raw))
    requires Relocated(st1.mem, st2.mem, |st.mem|, st.strg[p].dat, Span(st.strg[p].elem, st.strg[p].len))
    requires st2.strg == st.strg
    ensures var s := st.strg[p];
            && Holds(st2, |st.mem|, FlatN(s.elem, s.len))
            && Span(s.elem, s.len) <= Span(s.elem, cap) && |st.mem| + Span(s.elem, cap) == |st2.mem|
            && Loose(st2, |st.mem|, |st.mem| + Span(s.elem, cap), {p})
            && IsRaw(st2.mem, |st.mem| + Span(s.elem, s.len), |st.mem| + Span(s.elem, cap))
            && (forall i: nat :: i < |st.mem| ==> st2.mem[i] == if InBlock(s, i) then Raw else st.mem[i])
            && Assigned(st.mem, st2.mem, |st.mem|, s.dat, Span(s.elem, s.len))
  {
    var s, a := st.strg[p], |st.mem|;
    OpenFacts(st, p, s.len);
    SpanMonotone(s.elem, s.len, cap);
    forall i: nat | a <= i < a + Span(s.elem, s.len) ensures st2.mem[i] == st.mem[s.dat + (i - a)] {
    }
    forall i: nat | i < |FlatN(s.elem, s.len)| ensures CellOk(st2, st2.mem[a + i], FlatN(s.elem, s.len)[i]) {
      assert CellOk(st, st.mem[s.dat + i], FlatN(s.elem, s.len)[i]);
      assert st2.mem[a + i] == st.mem[s.dat + (a + i - a)];
    }
  }

  // ---- the operations

  /** The range lies outside the block of `p`. */
  ghost predicate ClearOf(st: State, p: nat, lo: nat, hi: nat)
    requires p < |st.strg|
  {
    forall i: nat {:trigger InBlock(st.strg[p], i)} :: lo <= i < hi ==> !InBlock(st.strg[p], i)
  }

  /** How an array that was not, or was, reallocated relates to what it was. */
  ghost predicate SameElements(st: State, st1: State, p: nat) {
    && p < |st.strg| && OnlyArray(st, st1, p)
    && st1.strg == st.strg[p := st1.strg[p]]
    && st1.strg[p] == st.strg[p].(cap := st1.strg[p].cap, dat := st1.strg[p].dat)
    && Assigned(st.mem, st1.mem, st1.strg[p].dat, st.strg[p].dat, Span(st.strg[p].elem, st.strg[p].len))
    && (forall i: nat :: i < |st.mem| ==> InBlock(st1.strg[p], i) ==> InBlock(st.strg[p], i))
  }

  /** Makes room; nothing observable changes. */
  method Grow(h: Heap, p: nat, cap: nat)
    requires p < |h.strg| && Open(h.St(), p, h.strg[p].len) && h.strg[p].len <= cap
    modifies h
    ensures p < |h.strg| && Open(h.St(), p, old(h.strg[p].len)) && SameElements(old(h.St()), h.St(), p)
    ensures h.strg[p] == old(h.strg[p]).(cap := cap, dat := h.strg[p].dat)
    ensures forall q: nat :: q < |h.strg| && q != p ==> h.strg[q] == old(h.strg)[q]
    ensures |h.strg| == |old(h.strg)| && h.moved == old(h.moved + h.strg[p].len)
  {
    hide Open, Assigned, Span;
    Reallocate(h, p, cap);
  }

  /** Room for `total` elements, in a capacity that is a power of two if it is new. */
  method MakeRoom(h: Heap, p: nat, total: nat)
    requires p < |h.strg| && Open(h.St(), p, h.strg[p].len) && h.strg[p].len <= total < MAX_LEN
    modifies h
    ensures p < |h.strg| && Open(h.St(), p, old(h.strg[p].len)) && SameElements(old(h.St()), h.St(), p)
    ensures h.strg[p] == old(h.strg[p]).(cap := h.strg[p].cap, dat := h.strg[p].dat)
    ensures h.strg[p].cap == if total <= old(h.strg[p].cap) then old(h.strg[p].cap) else CeilToPow2(total)
    ensures total <= h.strg[p].cap && |h.strg| == |old(h.strg)|
    ensures forall q: nat :: q < |h.strg| && q != p ==> h.strg[q] == old(h.strg)[q]
  {
    hide Open, SameElements, Pow2;
    NotReallocated(h.St(), p);
    if total > h.strg[p].cap {
      Grow(h, p, CeilToPow2(total));
    }
  }

  /** Appends a copy of the object at `v`, which is not an element of the array. */
  method PushBack(h: Heap, e: Type, a: nat, v: nat)
    requires IsArray(h.St(), a, e) && h.strg[h.mem[a].ptr].len + 1 < MAX_LEN
    requires Holds(h.St(), v, Flat(e)) && ClearOf(h.St(), h.mem[a].ptr, v, v + |Flat(e)|)
    modifies h
    ensures IsArray(h.St(), a, e) && h.mem[a] == old(h.mem[a])
    ensures OnlyArray(old(h.St()), h.St(), h.mem[a].ptr)
    ensures var p := h.mem[a].ptr;
            && h.strg[p].len == old(h.strg[p].len) + 1
            && h.strg[p].cap == PushCap(old(h.strg[p].len), old(h.strg[p].cap))
            && Elements(h.St(), p) == old(Elements(h.St(), p)) + old(h.mem)[v..v + |Flat(e)|]
    ensures var s := old(h.strg[h.mem[a].ptr]); h.moved == old(h.moved) + (if s.len == s.cap then s.len else 0)
    ensures Holds(h.St(), v, Flat(e)) && ClearOf(h.St(), h.mem[a].ptr, v, v + |Flat(e)|)
    ensures h.mem[v..v + |Flat(e)|] == old(h.mem)[v..v + |Flat(e)|]
  {
    hide Open, Inv, Holds, SameElements, Span, Flat, FlatN, OnlyArray, Copied, RefsOnly, Loose, IsRaw, ClearOf, Extends, Apart;
    ghost var st := h.St();
    var p := h.mem[a].ptr;
    var len := h.strg[p].len;
    OpenUp(st, p);
    NotReallocated(st, p);
    if len == h.strg[p].cap {
      Grow(h, p, CeilToPow2(len + 1));
    }
    ghost var st1 := h.St();
    var end := h.strg[p].dat + Span(e, len);
    SlotReady(st, st1, p, v);
    h.CopyConstruct(e, end, v, multiset{}, {p});
    ghost var st2 := h.St();
    h.strg := h.strg[p := h.strg[p].(len := len + 1)];
    Pushed(st, st1, st2, a, p, v, h.St());
    PushedStorage(st1, st2, p);
    ValueKept(st, st1, h.St(), p, v, e);
  }

  lemma PushedStorage(st1: State, st2: State, p: nat)
    requires p < |st1.strg| && RefsOnly(st1.strg, st2.strg)
    ensures p < |st2.strg| && st2.strg[p] == st1.strg[p].(ref := st2.strg[p].ref)
  {
  }

  /** The appended value, which lies outside the array, still does. */
  lemma ValueKept(st: State, st1: State, st3: State, p: nat, v: nat, e: Type)
    requires SameElements(st, st1, p) && OnlyArray(st, st3, p)
    requires st3.strg[p] == st1.strg[p].(ref := st3.strg[p].ref, len := st3.strg[p].len)
    requires Holds(st, v, Flat(e)) && ClearOf(st, p, v, v + |Flat(e)|)
    ensures v + |Flat(e)| <= |st.mem| <= |st3.mem|
    ensures Holds(st3, v, Flat(e)) && ClearOf(st3, p, v, v + |Flat(e)|)
    ensures st3.mem[v..v + |Flat(e)|] == st.mem[v..v + |Flat(e)|]
  {
    hide Assigned, Flat;
    HoldsInMemory(st, v, Flat(e));
    forall i: nat | v <= i < v + |Flat(e)| ensures st3.mem[i] == st.mem[i] && !InBlock(st3.strg[p], i) {
      assert !InBlock(st.strg[p], i);
      assert InBlock(st3.strg[p], i) == InBlock(st1.strg[p], i);
    }
    HoldsKept(st, st3, v, Flat(e));
  }

  /** The value `n` times. */
  function Times(value: seq<Cell>, n: nat): seq<Cell> {
    if n == 0 then [] else Times(value, n - 1) + value
  }

  /** Growth is amortised constant: n pushes onto a new array leave a capacity below
      2n that is a power of two, and relocate one element less than that. */
  method PushTimes(h: Heap, e: Type, a: nat, v: nat, n: nat)
    requires Inv(h.St(), multiset{}, {}) && IsRaw(h.mem, a, a + 1) && Loose(h.St(), a, a + 1, {})
    requires Holds(h.St(), v, Flat(e)) && 1 <= n < MAX_LEN
    modifies h
    ensures IsArray(h.St(), a, e) && h.strg[h.mem[a].ptr].len == n
    ensures v + |Flat(e)| <= |old(h.mem)| && Elements(h.St(), h.mem[a].ptr) == Times(old(h.mem)[v..v + |Flat(e)|], n)
    ensures exists k: nat :: h.strg[h.mem[a].ptr].cap == Pow2(k)
    ensures n <= h.strg[h.mem[a].ptr].cap < 2 * n
    ensures h.moved == old(h.moved) + h.strg[h.mem[a].ptr].cap - 1
  {
    hide Inv, Holds, Flat, Built, Pow2, OnlyArray, ClearOf, Loose, IsRaw;
    ghost var st := h.St();
    ghost var value := NewArrayBeside(st, e, a, v);
    h.ArrDefCtor(e, a, multiset{}, {});
    NewArray(st, h.St(), e, a, v);
    var i := 0;
    while i < n
      invariant i <= n && IsArray(h.St(), a, e) && h.strg[h.mem[a].ptr].len == i
      invariant Holds(h.St(), v, Flat(e)) && ClearOf(h.St(), h.mem[a].ptr, v, v + |Flat(e)|)
      invariant v + |Flat(e)| <= |h.mem| && h.mem[v..v + |Flat(e)|] == value
      invariant Elements(h.St(), h.mem[a].ptr) == Times(value, i)
      invariant (h.strg[h.mem[a].ptr].cap, h.moved - old(h.moved)) == AfterPushes(i)
    {
      PushBack(h, e, a, v);
      i := i + 1;
      HoldsInMemory(h.St(), v, Flat(e));
    }
    GrowthIsAmortised(n);
  }

  lemma NewArrayBeside(st: State, e: Type, a: nat, v: nat) returns (value: seq<Cell>)
    requires Holds(st, v, Flat(e))
    ensures v + |Flat(e)| <= |st.mem| && value == st.mem[v..v + |Flat(e)|]
  {
    value := st.mem[v..v + |Flat(e)|];
  }

  lemma NewArray(st: State, st1: State, e: Type, a: nat, v: nat)
    requires IsRaw(st.mem, a, a + 1) && Holds(st, v, Flat(e))
    requires Inv(st1, multiset{}, {}) && Built(st, st1, a, [Ref(e)])
    ensures IsArray(st1, a, e) && v + |Flat(e)| <= |st.mem| == |st1.mem|
    ensures var s := st1.strg[st1.mem[a].ptr]; s.len == s.cap == 0
    ensures Elements(st1, st1.mem[a].ptr) == []
    ensures Holds(st1, v, Flat(e)) && ClearOf(st1, st1.mem[a].ptr, v, v + |Flat(e)|)
    ensures st1.mem[v..v + |Flat(e)|] == st.mem[v..v + |Flat(e)|]
  {
    hide Inv, Flat;
    assert DefaultCell(st, st1, st1.mem[a + 0], [Ref(e)][0]);
    NoElements(e);
    forall i: nat | v <= i < v + |Flat(e)| ensures st1.mem[i] == st.mem[i] {
      assert CellOk(st, st.mem[v + (i - v)], Flat(e)[i - v]);
    }
    forall q: nat | q < |st.strg| ensures st1.strg[q] == st.strg[q] {
      assert st1.strg[..|st.strg|][q] == st.strg[q];
    }
    HoldsKept(st, st1, v, Flat(e));
  }

  // ---- assigning to an element

  /** The cells of object `src` are copied over those of element `k`. */
  method AssignElem(h: Heap, e: Type, a: nat, k: nat, src: nat)
    requires IsArray(h.St(), a, e) && k < h.strg[h.mem[a].ptr].len
    requires Holds(h.St(), src, Flat(e)) && Outlives(h.St(), src, src + |Flat(e)|, {}, Rank(e))
    requires var slot := h.strg[h.mem[a].ptr].dat + Span(e, k); slot == src || Apart(slot, src, |Flat(e)|)
    modifies h`mem, h`strg
    ensures IsArray(h.St(), a, e) && h.mem[a] == old(h.mem[a]) && h.strg[h.mem[a].ptr].len == old(h.strg[h.mem[a].ptr].len)
    ensures var p := h.mem[a].ptr; var cells := old(Elements(h.St(), p)); var n := |Flat(e)|;
      && Span(e, k) + n <= |cells| && src + n <= |old(h.mem)|
      && Elements(h.St(), p) == cells[..Span(e, k)] + old(h.mem)[src..src + n] + cells[Span(e, k) + n..]
    ensures var slot := old(h.strg[h.mem[a].ptr].dat) + Span(e, k);
      Swept(old(h.St()), h.St(), Range(slot, slot + |Flat(e)|), Rank(e))
  {
    hide Inv, Open, Holds, Span, Flat, FlatN, Loose, BusyAbove, Swept, Outlives, Assigned, Elements;
    ghost var st := h.St();
    var p := h.mem[a].ptr;
    ghost var len := h.strg[p].len;
    OpenUp(st, p);
    ElementReady(st, p, k, src);
    var slot := h.strg[p].dat + Span(e, k);
    h.CopyAssign(e, slot, src, multiset{}, {p});
    ghost var st2 := h.St();
    OwnHandleOutside(st, p, a);
    ElementInside(st, p, k);
    ElementSwept(st, st2, a, p, slot, |Flat(e)|);
    ElementAssigned(st, st2, p, k, src);
    Close(st2, p, len, st2);
    AssignedElements(st, st2, a, p, k, src);
  }

  /** What assigning to element `k` needs. */
  lemma ElementReady(st: State, p: nat, k: nat, src: nat)
    requires p < |st.strg| && Open(st, p, st.strg[p].len) && k < st.strg[p].len
    requires var e := st.strg[p].elem; Outlives(st, src, src + |Flat(e)|, {}, Rank(e))
    ensures var s := st.strg[p]; var slot := s.dat + Span(s.elem, k); var n := |Flat(s.elem)|;
      && Inv(st, multiset{}, {p}) && BusyAbove(st, {p}, Rank(s.elem)) && Holds(st, slot, Flat(s.elem))
      && Loose(st, slot, slot + n, {p}) && Outlives(st, src, src + n, {p}, Rank(s.elem))
      && Span(s.elem, k) + n == Span(s.elem, k + 1) <= Span(s.elem, s.len)
  {
    hide Inv, Flat, FlatN, Holds, Span;
    var s := st.strg[p];
    OpenFacts(st, p, s.len);
    ElemHolds(st, s.dat, s.elem, s.len, k);
    LooseWithin(st, s.dat, s.dat + Span(s.elem, s.cap), {p}, s.dat + Span(s.elem, k), s.dat + Span(s.elem, k + 1));
  }

  lemma ElementInside(st: State, p: nat, k: nat)
    requires p < |st.strg| && Open(st, p, st.strg[p].len) && k < st.strg[p].len
    ensures var s := st.strg[p]; Span(s.elem, k) + |Flat(s.elem)| <= Span(s.elem, s.len) <= Span(s.elem, s.cap)
  {
    hide Inv;
    OpenFacts(st, p, st.strg[p].len);
    NextElement(st.strg[p].elem, k, st.strg[p].len);
  }

  lemma AssignedHolds(st: State, st2: State, dst: nat, src: nat, l: seq<Leaf>)
    requires Holds(st, src, l) && Assigned(st.mem, st2.mem, dst, src, |l|) && |st.strg| <= |st2.strg|
    requires forall p: nat :: p < |st.strg| ==> st2.strg[p].elem == st.strg[p].elem
    ensures Holds(st2, dst, l)
  {
    forall i: nat | i < |l| ensures CellOk(st2, st2.mem[dst + i], l[i]) {
      assert CellOk(st, st.mem[src + i], l[i]);
      assert st2.mem[dst + i] == st.mem[src + (dst + i - dst)];
    }
  }

  /** The block around the element is as it was. */
  lemma ElementSwept(st: State, st2: State, a: nat, p: nat, slot: nat, n: nat)
    requires p < |st.strg| && Open(st, p, st.strg[p].len)
    requires a < |st.mem| && st.mem[a] == Handle(p) && !InBlock(st.strg[p], a)
    requires var s := st.strg[p]; s.dat <= slot && slot + n <= s.dat + Span(s.elem, s.cap)
    requires Inv(st2, multiset{}, {p}) && Swept(st, st2, Range(slot, slot + n), Rank(st.strg[p].elem))
    ensures |st2.mem| == |st.mem| && st2.mem[a] == Handle(p) && |st2.strg| == |st.strg|
    ensures st2.strg[p] == st.strg[p].(ref := st2.strg[p].ref) && st2.strg[p].ref >= 1
    ensures forall q: nat :: q < |st.strg| ==> st2.strg[q].elem == st.strg[q].elem
    ensures var s := st.strg[p];
      && s.dat + Span(s.elem, s.cap) <= |st.mem|
      && forall i: nat :: s.dat <= i < s.dat + Span(s.elem, s.cap) && !(slot <= i < slot + n) ==> st2.mem[i] == st.mem[i]
  {
    hide FlatN, Flat, CellOk, Counted, Placed, Span;
    var s := st.strg[p];
    OpenFacts(st, p, s.len);
    LooseSurvives(st, st2, Range(slot, slot + n), Rank(s.elem), {p}, s.dat, s.dat + Span(s.elem, s.cap));
    NotInBlock(s, a);
    OwnHandleKept(st, st2, a, p, slot, slot + n);
    HandleHolds(st2, a, p);
  }

  /** The storage can be closed again. */
  lemma ElementAssigned(st: State, st2: State, p: nat, k: nat, src: nat)
    requires p < |st.strg| && Open(st, p, st.strg[p].len) && k < st.strg[p].len
    requires |st2.mem| == |st.mem| && |st2.strg| == |st.strg| && Inv(st2, multiset{}, {p})
    requires st2.strg[p] == st.strg[p].(ref := st2.strg[p].ref) && st2.strg[p].ref >= 1
    requires forall q: nat :: q < |st.strg| ==> st2.strg[q].elem == st.strg[q].elem
    requires var s := st.strg[p]; var slot := s.dat + Span(s.elem, k); var n := |Flat(s.elem)|;
      && Span(s.elem, k) + n == Span(s.elem, k + 1) <= Span(s.elem, s.len) && s.dat + Span(s.elem, s.cap) <= |st.mem|
      && Holds(st, src, Flat(s.elem)) && Assigned(st.mem, st2.mem, slot, src, n)
      && forall i: nat :: s.dat <= i < s.dat + Span(s.elem, s.cap) && !(slot <= i < slot + n) ==> st2.mem[i] == st.mem[i]
    ensures Open(st2, p, st.strg[p].len)
  {
    hide FlatN, Flat, CellOk, Assigned, Span, Inv, Holds;
    var s, e := st.strg[p], st.strg[p].elem;
    OpenFacts(st, p, s.len);
    ThreeParts(e, k, s.len);
    HoldsSplit(st, s.dat, FlatN(e, s.len), Span(e, k + 1));
    HoldsSplit(st, s.dat, FlatN(e, k + 1), Span(e, k));
    HoldsKept(st, st2, s.dat, FlatN(e, k));
    AssignedHolds(st, st2, s.dat + Span(e, k), src, Flat(e));
    HoldsKept(st, st2, s.dat + Span(e, k + 1), FlatN(e, s.len - k - 1));
    HoldsSplit(st2, s.dat, FlatN(e, k + 1), Span(e, k));
    HoldsSplit(st2, s.dat, FlatN(e, s.len), Span(e, k + 1));
  }

  lemma HandleHolds(st: State, a: nat, p: nat)
    requires Inv(st, multiset{}, {p}) && a < |st.mem| && st.mem[a] == Handle(p)
    ensures p < |st.strg| && st.strg[p].ref >= 1
  {
    HandleIsLive(st, multiset{}, a);
  }

  lemma ThreeParts(e: Type, k: nat, len: nat)
    requires k < len
    ensures |FlatN(e, k)| == Span(e, k) && |FlatN(e, k + 1)| == Span(e, k + 1) && |FlatN(e, len)| == Span(e, len)
    ensures Span(e, k + 1) <= Span(e, len)
    ensures FlatN(e, len)[..Span(e, k + 1)] == FlatN(e, k + 1) && FlatN(e, len)[Span(e, k + 1)..] == FlatN(e, len - k - 1)
    ensures FlatN(e, k + 1)[..Span(e, k)] == FlatN(e, k) && FlatN(e, k + 1)[Span(e, k)..] == Flat(e)
  {
    FlatNSplit(e, k + 1, len - k - 1);
    SpanIsLength(e, k);
    SpanIsLength(e, k + 1);
    SpanIsLength(e, len);
  }

  lemma AssignedElements(st: State, st2: State, a: nat, p: nat, k: nat, src: nat)
    requires p < |st.strg| && IsArray(st, a, st.strg[p].elem) && st.mem[a] == Handle(p) && Inv(st2, multiset{}, {})
    requires p < |st2.strg| && st2.strg[p] == st.strg[p].(ref := st2.strg[p].ref)
    requires a < |st2.mem| == |st.mem| && st2.mem[a] == Handle(p)
    requires var s := st.strg[p]; var slot := s.dat + Span(s.elem, k); var n := |Flat(s.elem)|;
      && Span(s.elem, k) + n == Span(s.elem, k + 1) <= Span(s.elem, s.len) && Assigned(st.mem, st2.mem, slot, src, n)
      && forall i: nat :: s.dat <= i < s.dat + Span(s.elem, s.len) && !(slot <= i < slot + n) ==> st2.mem[i] == st.mem[i]
    ensures IsArray(st2, a, st.strg[p].elem)
    ensures var e := st.strg[p].elem; var cells := Elements(st, p); var n := |Flat(e)|;
      && Span(e, k) + n <= |cells| && src + n <= |st.mem|
      && Elements(st2, p) == cells[..Span(e, k)] + st.mem[src..src + n] + cells[Span(e, k) + n..]
  {
    hide Inv, Span, Flat, Assigned;
    var s, e := st.strg[p], st.strg[p].elem;
    Patched(st.mem, st2.mem, s.dat, Span(e, k), |Flat(e)|, Span(e, s.len), src);
  }

  lemma Patched(m0: seq<Cell>, m1: seq<Cell>, dat: nat, lo: nat, n: nat, end: nat, src: nat)
    requires lo + n <= end && dat + end <= |m0| == |m1| && Assigned(m0, m1, dat + lo, src, n)
    requires forall i: nat :: dat <= i < dat + end && !(dat + lo <= i < dat + lo + n) ==> m1[i] == m0[i]
    ensures src + n <= |m0| && m1[dat..dat + end] == m0[dat..dat + end][..lo] + m0[src..src + n] + m0[dat..dat + end][lo + n..]
  {
    var all := m0[dat..dat + end][..lo] + m0[src..src + n] + m0[dat..dat + end][lo + n..];
    forall i: nat | i < end ensures m1[dat + i] == all[i] {
      if lo <= i < lo + n {
        assert m1[dat + i] == m0[src + (dat + i - (dat + lo))];
      }
    }
    assert m1[dat..dat + end] == all;
  }

  lemma Pushed(st: State, st1: State, st2: State, a: nat, p: nat, v: nat, st3: State)
    requires p < |st.strg| && IsArray(st, a, st.strg[p].elem) && st.mem[a] == Handle(p)
    requires SameElements(st, st1, p) && Open(st1, p, st1.strg[p].len) && st1.strg[p].len < st1.strg[p].cap
    requires var e := st.strg[p].elem; Holds(st, v, Flat(e)) && Holds(st1, v, Flat(e)) && ClearOf(st, p, v, v + |Flat(e)|)
    requires var s := st1.strg[p];
             && Copied(st1.mem, st2.mem, s.dat + Span(s.elem, s.len), v, |Flat(s.elem)|) && RefsOnly(st1.strg, st2.strg)
             && Inv(st2, multiset{}, {p})
    requires st3 == st2.(strg := st2.strg[p := st2.strg[p].(len := st1.strg[p].len + 1)])
    ensures IsArray(st3, a, st.strg[p].elem) && st3.mem[a] == st.mem[a] && OnlyArray(st, st3, p)
    ensures v + |Flat(st.strg[p].elem)| <= |st.mem|
    ensures Elements(st3, p) == Elements(st, p) + st.mem[v..v + |Flat(st.strg[p].elem)|]
  {
    hide Open, Inv, Holds, Span, Flat, FlatN, Copied, RefsOnly, ClearOf, Extends, Assigned;
    var s, e := st1.strg[p], st.strg[p].elem;
    OneIsN(st1, e, v);
    CopiedExtends(st1, st2, p, v, 1);
    ExtendedOpen(st1, st2, p, 1);
    Close(st2, p, s.len + 1, st3);
    ExtendedArray(st, st1, st2, a, p, 1, st3);
    HoldsInMemory(st, v, Flat(e));
    CopiedSlice(st, st1, st2.mem, p, s.dat + Span(e, s.len), v, |Flat(e)|);
  }

  lemma OneIsN(st: State, e: Type, v: nat)
    ensures Holds(st, v, FlatN(e, 1)) == Holds(st, v, Flat(e)) && Span(e, 1) == |Flat(e)|
  {
    assert FlatN(e, 1) == FlatN(e, 0) + Flat(e) == Flat(e);
  }

  /** What was copied from outside the array is what stood there before. */
  lemma CopiedSlice(st: State, st1: State, m2: seq<Cell>, p: nat, dst: nat, src: nat, n: nat)
    requires OnlyArray(st, st1, p) && ClearOf(st, p, src, src + n) && src + n <= |st.mem|
    requires Copied(st1.mem, m2, dst, src, n)
    ensures m2[dst..dst + n] == st.mem[src..src + n]
  {
    forall i: nat | dst <= i < dst + n ensures m2[i] == st.mem[src + (i - dst)] {
      assert !InBlock(st.strg[p], src + (i - dst));
    }
  }

  lemma NotReallocated(st: State, p: nat)
    requires p < |st.strg| && Open(st, p, st.strg[p].len)
    ensures SameElements(st, st, p)
  {
    SpanMonotone(st.strg[p].elem, st.strg[p].len, st.strg[p].cap);
  }

  lemma NotInBlock(s: Storage, i: nat)
    ensures InBlock(s, i) <==> s.dat <= i < s.dat + Span(s.elem, s.cap)
  {
  }

  lemma SlotReady(st: State, st1: State, p: nat, v: nat)
    requires SameElements(st, st1, p) && Open(st1, p, st1.strg[p].len) && st1.strg[p].len < st1.strg[p].cap
    requires var e := st.strg[p].elem; Holds(st, v, Flat(e)) && ClearOf(st, p, v, v + |Flat(e)|)
    ensures var s := st1.strg[p]; var end := s.dat + Span(s.elem, s.len); var n := |Flat(s.elem)|;
            && Holds(st1, v, Flat(s.elem)) && Inv(st1, multiset{}, {p})
            && IsRaw(st1.mem, end, end + n) && Loose(st1, end, end + n, {p}) && Apart(end, v, n)
  {
    hide Open, Inv, Span, Flat, FlatN, Holds;
    var s := st1.strg[p];
    var end, n := s.dat + Span(s.elem, s.len), |Flat(s.elem)|;
    OpenFacts(st1, p, s.len);
    NextElement(s.elem, s.len, s.cap);
    HoldsInMemory(st, v, Flat(s.elem));
    forall i: nat | v <= i < v + n ensures st1.mem[i] == st.mem[i] && !InBlock(s, i) {
      assert !InBlock(st.strg[p], i);
    }
    HoldsKept(st, st1, v, Flat(s.elem));
    LooseWithin(st1, s.dat, s.dat + Span(s.elem, s.cap), {p}, end, end + n);
    var i := if v < end then end else v;
    assert v <= i < v + n ==> !InBlock(s, i);
    NotInBlock(s, i);
  }

  /** `count` more elements have been built behind the first `len`. */
  ghost predicate Extends(st1: State, st2: State, p: nat, count: nat)
    requires p < |st1.strg|
  {
    var s := st1.strg[p];
    && s.len + count <= s.cap && Inv(st2, multiset{}, {p})
    && |st1.strg| <= |st2.strg|
    && (forall q: nat :: q < |st1.strg| ==> st2.strg[q] == st1.strg[q].(ref := st2.strg[q].ref))
    && WroteAt(st1.mem, st2.mem, s.dat + Span(s.elem, s.len), Span(s.elem, count))
    && Holds(st2, s.dat + Span(s.elem, s.len), FlatN(s.elem, count))
  }

  lemma ExtendedOpen(st1: State, st2: State, p: nat, count: nat)
    requires p < |st1.strg| && Open(st1, p, st1.strg[p].len) && Extends(st1, st2, p, count)
    ensures Open(st2, p, st1.strg[p].len + count)
  {
    hide FlatN, CellOk, Counted, Placed;
    FlatNSplit(st1.strg[p].elem, st1.strg[p].len, count);
    var s := st1.strg[p];
    OpenFacts(st1, p, s.len);
    SpanMonotone(s.elem, s.len + count, s.cap);
    RefNotLower(st1, st2, p, Span(s.elem, count));
    HoldsKept(st1, st2, s.dat, FlatN(s.elem, s.len));
    HoldsJoin(st2, s.dat, s.elem, s.len, count);
  }

  lemma RefNotLower(st1: State, st2: State, p: nat, n: nat)
    requires p < |st1.strg| && Open(st1, p, st1.strg[p].len) && p < |st2.strg| && Inv(st2, multiset{}, {p})
    requires var s := st1.strg[p];
             WroteAt(st1.mem, st2.mem, s.dat + Span(s.elem, s.len), n) && Span(s.elem, s.len) + n <= Span(s.elem, s.cap)
    ensures st2.strg[p].ref >= st1.strg[p].ref
  {
    CountMonotone(st1.mem, st2.mem, p);
  }

  lemma SpanAdds(e: Type, n: nat, k: nat)
    ensures Span(e, n + k) == Span(e, n) + Span(e, k)
  {
    FlatNSplit(e, n, k);
  }

  lemma HoldsJoin(st: State, a: nat, e: Type, n: nat, k: nat)
    requires Holds(st, a, FlatN(e, n)) && Holds(st, a + Span(e, n), FlatN(e, k))
    ensures Holds(st, a, FlatN(e, n + k)) && Span(e, n + k) == Span(e, n) + Span(e, k)
  {
    FlatNSplit(e, n, k);
    assert FlatN(e, n + k)[..Span(e, n)] == FlatN(e, n) && FlatN(e, n + k)[Span(e, n)..] == FlatN(e, k);
    HoldsSplit(st, a, FlatN(e, n + k), Span(e, n));
  }

  lemma CopiedExtends(st1: State, st2: State, p: nat, v: nat, count: nat)
    requires p < |st1.strg| && Open(st1, p, st1.strg[p].len) && st1.strg[p].len + count <= st1.strg[p].cap
    requires Inv(st2, multiset{}, {p})
    requires var s := st1.strg[p];
             && Holds(st1, v, FlatN(s.elem, count))
             && Copied(st1.mem, st2.mem, s.dat + Span(s.elem, s.len), v, Span(s.elem, count)) && RefsOnly(st1.strg, st2.strg)
    ensures Extends(st1, st2, p, count)
    ensures Span(st1.strg[p].elem, st1.strg[p].len + count) == Span(st1.strg[p].elem, st1.strg[p].len) + Span(st1.strg[p].elem, count)
  {
    hide Inv, Open, Holds, FlatN;
    var s := st1.strg[p];
    SpanAdds(s.elem, s.len, count);
    SpanIsLength(s.elem, count);
    CopiedHolds(st1, st2, s.dat + Span(s.elem, s.len), v, FlatN(s.elem, count));
  }

  /** The observable effect of extending an array and setting its length. */
  lemma ExtendedArray(st: State, st1: State, st2: State, a: nat, p: nat, count: nat, st3: State)
    requires p < |st.strg| && IsArray(st, a, st.strg[p].elem) && st.mem[a] == Handle(p)
    requires SameElements(st, st1, p) && Open(st1, p, st1.strg[p].len) && Extends(st1, st2, p, count)
    requires st3 == st2.(strg := st2.strg[p := st2.strg[p].(len := st1.strg[p].len + count)])
    requires Inv(st3, multiset{}, {})
    ensures IsArray(st3, a, st.strg[p].elem) && st3.mem[a] == st.mem[a] && OnlyArray(st, st3, p)
    ensures var s := st1.strg[p];
            && Span(s.elem, s.len) <= Span(s.elem, s.len + count)
            && s.dat + Span(s.elem, s.len + count) <= |st2.mem|
            && Elements(st3, p) == Elements(st, p)
                 + st2.mem[s.dat + Span(s.elem, s.len)..s.dat + Span(s.elem, s.len + count)]
  {
    hide Inv, Open, Holds, FlatN, Assigned;
    var s, e := st1.strg[p], st.strg[p].elem;
    OpenFacts(st1, p, s.len);
    SpanMonotone(e, s.len, s.len + count);
    SpanMonotone(e, s.len + count, s.cap);
    SpanAdds(e, s.len, count);
    OwnHandleOutside(st, p, a);
    forall i: nat | i < |st.mem| && !InBlock(st.strg[p], i) ensures st3.mem[i] == st.mem[i] {
      assert !InBlock(s, i);
    }
    ExtendedElements(st, st1, st2, p, count);
  }

  lemma ExtendedElements(st: State, st1: State, st2: State, p: nat, count: nat)
    requires SameElements(st, st1, p) && Extends(st1, st2, p, count)
    requires var s := st1.strg[p]; s.dat + Span(s.elem, s.len + count) <= |st2.mem| && Span(s.elem, s.len) <= Span(s.elem, s.len + count)
    ensures var s := st1.strg[p];
            st2.mem[s.dat..s.dat + Span(s.elem, s.len + count)] ==
            st.mem[st.strg[p].dat..st.strg[p].dat + Span(s.elem, s.len)]
              + st2.mem[s.dat + Span(s.elem, s.len)..s.dat + Span(s.elem, s.len + count)]
  {
    var s := st1.strg[p];
    var n := Span(s.elem, s.len);
    forall i: nat | s.dat <= i < s.dat + n ensures st2.mem[i] == st.mem[st.strg[p].dat + (i - s.dat)] {
      assert st1.mem[i] == st.mem[st.strg[p].dat + (i - s.dat)];
    }
  }

  /** The handle to an array is not one of its own elements. */
  lemma OwnHandleOutside(st: State, p: nat, a: nat)
    requires Inv(st, multiset{}, {}) && p < |st.strg| && st.strg[p].live && a < |st.mem| && st.mem[a] == Handle(p)
    ensures !InBlock(st.strg[p], a)
  {
    if InBlock(st.strg[p], a) {
      BlockHandleRank(st, multiset{}, {}, p, a);
    }
  }

  /** Appends copies of the elements of another array, which may be the same one:
      then its elements are found at their new place after a reallocation. */
  method Append(h: Heap, e: Type, a: nat, b: nat)
    requires IsArray(h.St(), a, e) && IsArray(h.St(), b, e)
    requires h.strg[h.mem[a].ptr].len + h.strg[h.mem[b].ptr].len < MAX_LEN
    modifies h
    ensures IsArray(h.St(), a, e) && h.mem[a] == old(h.mem[a])
    ensures OnlyArray(old(h.St()), h.St(), h.mem[a].ptr)
    ensures var p := h.mem[a].ptr; var q := old(h.mem[b].ptr);
            && h.strg[p].len == old(h.strg[p].len) + old(h.strg[q].len)
            && Elements(h.St(), p) == old(Elements(h.St(), p)) + old(Elements(h.St(), q))
  {
    hide Open, Inv, Holds, SameElements, Span, Flat, FlatN, OnlyArray, Copied, RefsOnly, Loose, IsRaw, BulkReady, Extends, Elements, CellOk;
    ghost var st := h.St();
    var p, q := h.mem[a].ptr, h.mem[b].ptr;
    var len, otherLen := h.strg[p].len, h.strg[q].len;
    var total := len + otherLen;
    OpenUp(st, p);
    MakeRoom(h, p, total);
    ghost var st1 := h.St();
    AppendReady(st, st1, p, q);
    var end, otherDat := h.strg[p].dat + Span(e, len), h.strg[q].dat;
    CopyN(h, e, otherDat, otherLen, end, {p});
    ghost var st2 := h.St();
    h.strg := h.strg[p := h.strg[p].(len := total)];
    Appended(st, st1, st2, a, p, q, h.St());
  }

  lemma Appended(st: State, st1: State, st2: State, a: nat, p: nat, q: nat, st3: State)
    requires p < |st.strg| && IsArray(st, a, st.strg[p].elem) && st.mem[a] == Handle(p) && q < |st.strg| && st.strg[q].live
    requires SameElements(st, st1, p) && Open(st1, p, st1.strg[p].len) && st.strg[p].elem == st.strg[q].elem
    requires st1.strg[p].len + st1.strg[q].len <= st1.strg[p].cap
    requires st.strg[q].dat + Span(st.strg[q].elem, st.strg[q].len) <= |st.mem|
    requires var s := st1.strg[p]; var o := st1.strg[q];
             && Holds(st1, o.dat, FlatN(s.elem, o.len)) && o.len == st.strg[q].len
             && Copied(st1.mem, st2.mem, s.dat + Span(s.elem, s.len), o.dat, Span(s.elem, o.len))
             && RefsOnly(st1.strg, st2.strg) && Inv(st2, multiset{}, {p})
    requires st3 == st2.(strg := st2.strg[p := st2.strg[p].(len := st1.strg[p].len + st1.strg[q].len)])
    ensures IsArray(st3, a, st.strg[p].elem) && st3.mem[a] == st.mem[a] && OnlyArray(st, st3, p)
    ensures Elements(st3, p) == Elements(st, p) + Elements(st, q)
  {
    hide Open, Inv, Holds, Span, FlatN, Copied, RefsOnly, Extends, Assigned;
    var s, o := st1.strg[p], st1.strg[q];
    CopiedExtends(st1, st2, p, o.dat, o.len);
    ExtendedOpen(st1, st2, p, o.len);
    Close(st2, p, s.len + o.len, st3);
    ExtendedArray(st, st1, st2, a, p, o.len, st3);
    AppendedSlice(st, st1, st2, p, q);
  }

  lemma AppendReady(st: State, st1: State, p: nat, q: nat)
    requires Inv(st, multiset{}, {}) && q < |st.strg| && st.strg[q].live
    requires SameElements(st, st1, p) && Open(st1, p, st1.strg[p].len) && st.strg[p].elem == st.strg[q].elem
    requires st1.strg[p].len + st.strg[q].len <= st1.strg[p].cap
    ensures var s := st1.strg[p]; var o := st1.strg[q];
            && Inv(st1, multiset{}, {p}) && o.len == st.strg[q].len && Holds(st1, o.dat, FlatN(s.elem, o.len))
            && BulkReady(st1, s.elem, o.dat, o.len, s.dat + Span(s.elem, s.len), {p})
  {
    hide FlatN, Flat, CellOk, Rank, Span, Inv, Holds;
    var s, o := st1.strg[p], st1.strg[q];
    var end, n := s.dat + Span(s.elem, s.len), Span(s.elem, o.len);
    OpenFacts(st1, p, s.len);
    SpanAdds(s.elem, s.len, o.len);
    SpanMonotone(s.elem, s.len + o.len, s.cap);
    LooseWithin(st1, s.dat, s.dat + Span(s.elem, s.cap), {p}, end, end + n);
    IsRawWithin(st1.mem, end, s.dat + Span(s.elem, s.cap), end, end + n);
    if q != p {
      OtherAtRest(st, st1, p, q);
      SpanMonotone(o.elem, o.len, o.cap);
      PartsApart(st1, p, q, end, o.dat, n);
    }
  }

  lemma OtherAtRest(st: State, st1: State, p: nat, q: nat)
    requires Inv(st, multiset{}, {}) && q < |st.strg| && st.strg[q].live && q != p
    requires SameElements(st, st1, p) && Open(st1, p, st1.strg[p].len)
    ensures var o := st1.strg[q]; o.live && o.len == st.strg[q].len <= o.cap && o.elem == st.strg[q].elem && Holds(st1, o.dat, FlatN(o.elem, o.len))
  {
    hide FlatN, CellOk;
    assert AtRest(st1, q);
  }

  /** Parts of different blocks do not overlap. */
  lemma PartsApart(st: State, p: nat, q: nat, a: nat, b: nat, n: nat)
    requires Inv(st, multiset{}, {p}) && p < |st.strg| && q < |st.strg| && p != q && st.strg[q].live
    requires st.strg[p].dat <= a && a + n <= st.strg[p].dat + Span(st.strg[p].elem, st.strg[p].cap)
    requires st.strg[q].dat <= b && b + n <= st.strg[q].dat + Span(st.strg[q].elem, st.strg[q].cap)
    ensures Apart(a, b, n)
  {
    hide Span, FlatN, Flat;
    var i := if a < b then b else a;
    NotInBlock(st.strg[p], i);
    NotInBlock(st.strg[q], i);
    assert !(InBlock(st.strg[p], i) && InBlock(st.strg[q], i));
  }

  lemma AppendedSlice(st: State, st1: State, st2: State, p: nat, q: nat)
    requires Inv(st, multiset{}, {}) && q < |st.strg| && st.strg[q].live && p < |st.strg| && st.strg[p].live
    requires SameElements(st, st1, p) && Open(st1, p, st1.strg[p].len) && st.strg[p].elem == st.strg[q].elem
    requires var s := st1.strg[p]; var o := st1.strg[q];
             && Copied(st1.mem, st2.mem, s.dat + Span(s.elem, s.len), o.dat, Span(s.elem, o.len))
    requires st.strg[q].dat + Span(st.strg[q].elem, st.strg[q].len) <= |st.mem|
    ensures var s := st1.strg[p]; var end := s.dat + Span(s.elem, s.len);
            st2.mem[end..end + Span(s.elem, st.strg[q].len)] == Elements(st, q)
  {
    hide Inv, Open, Assigned, OnlyArray, Span;
    var s, o := st1.strg[p], st1.strg[q];
    var end, n := s.dat + Span(s.elem, s.len), Span(s.elem, o.len);
    OtherElements(st, st1, p, q);
    forall i: nat | end <= i < end + n ensures st2.mem[i] == st.mem[st.strg[q].dat + (i - end)] {
      assert st2.mem[i] == st1.mem[o.dat + (i - end)];
    }
  }

  /** After a possible reallocation of `p`, the elements of any array are still there. */
  lemma LiveBlock(st: State, q: nat)
    requires Inv(st, multiset{}, {}) && q < |st.strg| && st.strg[q].live
    ensures st.strg[q].len <= st.strg[q].cap && st.strg[q].dat + Span(st.strg[q].elem, st.strg[q].cap) <= |st.mem|
  {
  }

  lemma BlocksApart(st: State, p: nat, q: nat, i: nat)
    requires Inv(st, multiset{}, {}) && p < |st.strg| && q < |st.strg| && st.strg[p].live && st.strg[q].live
    requires p != q && InBlock(st.strg[q], i)
    ensures !InBlock(st.strg[p], i)
  {
  }

  lemma OtherElements(st: State, st1: State, p: nat, q: nat)
    requires Inv(st, multiset{}, {}) && q < |st.strg| && st.strg[q].live && p < |st.strg| && st.strg[p].live
    requires SameElements(st, st1, p)
    ensures var o := st.strg[q];
            && st1.strg[q].len == o.len
            && o.dat + Span(o.elem, o.len) <= |st.mem| && st1.strg[q].dat + Span(o.elem, o.len) <= |st1.mem|
            && (forall i: nat {:trigger st1.mem[i]} :: st1.strg[q].dat <= i < st1.strg[q].dat + Span(o.elem, o.len) ==>
                  st1.mem[i] == st.mem[o.dat + (i - st1.strg[q].dat)])
  {
    hide Inv, Span, Flat, FlatN;
    var o := st.strg[q];
    LiveBlock(st, q);
    SpanMonotone(o.elem, o.len, o.cap);
    if q != p {
      forall i: nat {:trigger InBlock(st.strg[q], i)} | InBlock(st.strg[q], i) ensures !InBlock(st.strg[p], i) {
        BlocksApart(st, p, q, i);
      }
      forall i: nat | o.dat <= i < o.dat + Span(o.elem, o.len) ensures st1.mem[i] == st.mem[i] {
        assert InBlock(st.strg[q], i);
      }
    }
  }

  // ---- shrinking

  /** The last elements have been destroyed. */
  lemma Truncated(st1: State, st2: State, a: nat, p: nat, len: nat, n: nat)
    requires p < |st1.strg| && Open(st1, p, len) && n <= len
    requires a < |st1.mem| && st1.mem[a] == Handle(p) && !InBlock(st1.strg[p], a)
    requires Inv(st2, multiset{}, {p})
    requires var s := st1.strg[p];
             Dropped(st1, st2, s.dat + Span(s.elem, n), s.dat + Span(s.elem, len), Rank(s.elem))
    ensures st2.mem[a] == Handle(p) && Open(st2, p, n)
    ensures var s := st1.strg[p]; Span(s.elem, n) <= Span(s.elem, len)
    ensures var s := st1.strg[p]; forall i: nat :: s.dat <= i < s.dat + Span(s.elem, n) ==> st2.mem[i] == st1.mem[i]
  {
    hide CellOk, FlatN;
    var s := st1.strg[p];
    var lo, hi := s.dat + Span(s.elem, n), s.dat + Span(s.elem, len);
    OpenFacts(st1, p, len);
    SpanMonotone(s.elem, n, len);
    SpanMonotone(s.elem, len, s.cap);
    LooseSurvives(st1, st2, Range(lo, hi), Rank(s.elem), {p}, s.dat, s.dat + Span(s.elem, s.cap));
    OwnHandleKept(st1, st2, a, p, lo, hi);
    assert st2.strg[p].ref >= 1 by {
      HandleIsLive(st2, multiset{}, a);
    }
    FlatNSplit(s.elem, n, len - n);
    HoldsSplit(st1, s.dat, FlatN(s.elem, len), Span(s.elem, n));
    assert FlatN(s.elem, len)[..Span(s.elem, n)] == FlatN(s.elem, n);
    SpanIsLength(s.elem, n);
    HoldsKept(st1, st2, s.dat, FlatN(s.elem, n));
  }

  lemma OwnHandleKept(st1: State, st2: State, a: nat, p: nat, lo: nat, hi: nat)
    requires p < |st1.strg| && Inv(st1, multiset{}, {p}) && a < |st1.mem| && st1.mem[a] == Handle(p) && !(lo <= a < hi)
    requires Swept(st1, st2, Range(lo, hi), Rank(st1.strg[p].elem))
    ensures st2.mem[a] == Handle(p)
  {
    if Freed(st1, st2, a) {
      var q: nat :| q < |st1.strg| && st1.strg[q].live && !st2.strg[q].live && InBlock(st1.strg[q], a);
      BlockHandleRank(st1, multiset{}, {p}, q, a);
    }
  }

  /** What shrinking needs of the elements it destroys. */
  lemma TruncateReady(st1: State, p: nat, len: nat, n: nat)
    requires p < |st1.strg| && Open(st1, p, len) && n <= len
    ensures var s := st1.strg[p]; var lo := s.dat + Span(s.elem, n);
            && Span(s.elem, len) == Span(s.elem, n) + Span(s.elem, len - n)
            && Inv(st1, multiset{}, {p}) && BusyAbove(st1, {p}, Rank(s.elem))
            && Holds(st1, lo, FlatN(s.elem, len - n)) && Loose(st1, lo, lo + Span(s.elem, len - n), {p})
  {
    var s := st1.strg[p];
    OpenFacts(st1, p, len);
    FlatNSplit(s.elem, n, len - n);
    HoldsSplit(st1, s.dat, FlatN(s.elem, len), Span(s.elem, n));
    assert FlatN(s.elem, len)[Span(s.elem, n)..] == FlatN(s.elem, len - n);
    LooseWithin(st1, s.dat, s.dat + Span(s.elem, s.cap), {p}, s.dat + Span(s.elem, n), s.dat + Span(s.elem, len));
  }

  /** The heap before, except for the length that is about to be set. */
  ghost function WithLen(st: State, p: nat, n: nat): State
    requires p < |st.strg|
  {
    st.(strg := st.strg[p := st.strg[p].(len := n)])
  }

  /** Setting the length earlier or later than the elements are destroyed is the same. */
  lemma ShrunkArray(st: State, st1: State, st2: State, a: nat, p: nat, n: nat, st3: State)
    requires p < |st.strg| && IsArray(st, a, st.strg[p].elem) && st.mem[a] == Handle(p) && n <= st.strg[p].len
    requires |st1.strg| == |st.strg| && st1.mem == st.mem
    requires st1.strg == st.strg[p := st.strg[p].(len := st1.strg[p].len)]
    requires var s := st.strg[p];
             Swept(st1, st2, Range(s.dat + Span(s.elem, n), s.dat + Span(s.elem, s.len)), Rank(s.elem))
    requires st2.mem[a] == Handle(p) && Open(st2, p, n)
    requires var s := st.strg[p]; forall i: nat :: s.dat <= i < s.dat + Span(s.elem, n) ==> st2.mem[i] == st1.mem[i]
    requires Span(st.strg[p].elem, n) <= Span(st.strg[p].elem, st.strg[p].len)
    requires st3 == st2.(strg := st2.strg[p := st2.strg[p].(len := n)]) && Inv(st3, multiset{}, {})
    ensures IsArray(st3, a, st.strg[p].elem) && st3.strg[p].len == n
    ensures Elements(st3, p) == Elements(st, p)[..Span(st.strg[p].elem, n)]
    ensures var s := st.strg[p];
            Swept(WithLen(st, p, n), st3, Range(s.dat + Span(s.elem, n), s.dat + Span(s.elem, s.len)), Rank(s.elem))
  {
    hide Inv, Holds;
    var st0 := WithLen(st, p, n);
    assert forall q: nat, i: int :: q < |st.strg| ==> InBlock(st0.strg[q], i) == InBlock(st1.strg[q], i);
    assert forall i: int :: Freed(st0, st3, i) == Freed(st1, st2, i);
    var s := st.strg[p];
    var new', old' := Elements(st3, p), Elements(st, p)[..Span(s.elem, n)];
    forall i: nat | i < |new'| ensures new'[i] == old'[i] {
      assert st2.mem[s.dat + i] == st1.mem[s.dat + i];
    }
    assert new' == old';
  }

  /** Destroys the last element, or panics. */
  method PopBack(h: Heap, e: Type, a: nat) returns (ok: bool)
    requires IsArray(h.St(), a, e)
    modifies h`mem, h`strg
    ensures ok == (old(h.strg[h.mem[a].ptr].len) != 0)
    ensures !ok ==> h.mem == old(h.mem) && h.strg == old(h.strg)
    ensures ok ==>
      var p := old(h.mem[a].ptr); var s := old(h.strg[p]);
      && IsArray(h.St(), a, e) && h.mem[a] == Handle(p) && h.strg[p].len == s.len - 1
      && Elements(h.St(), p) == old(Elements(h.St(), p))[..Span(e, s.len - 1)]
      && Swept(WithLen(old(h.St()), p, s.len - 1), h.St(),
               Range(s.dat + Span(e, s.len - 1), s.dat + Span(e, s.len)), Rank(e))
  {
    hide Inv, Open, Holds, Span, Flat, FlatN, Loose, BusyAbove, Swept, Dropped;
    ghost var st := h.St();
    var p := h.mem[a].ptr;
    var len := h.strg[p].len;
    ok := len != 0;
    if ok {
      OpenUp(st, p);
      OwnHandleOutside(st, p, a);
      h.strg := h.strg[p := h.strg[p].(len := len - 1)];
      ghost var st1 := h.St();
      ReLen(st, p, len, st1);
      TruncateReady(st1, p, len, len - 1);
      var last := h.strg[p].dat + Span(e, len - 1);
      OneIsN(st1, e, last);
      h.Destroy(e, last, multiset{}, {p});
      ghost var st2 := h.St();
      Truncated(st1, st2, a, p, len, len - 1);
      DroppedIsSwept(st1, st2, last, last + |Flat(e)|, Rank(e));
      Close(st2, p, len - 1, st2);
      ShrunkArray(st, st1, st2, a, p, len - 1, st2);
    }
  }

  lemma DroppedIsSwept(st1: State, st2: State, lo: nat, hi: nat, r: nat)
    requires Dropped(st1, st2, lo, hi, r)
    ensures Swept(st1, st2, Range(lo, hi), r)
    ensures forall p: nat :: p < |st1.strg| ==> p < |st2.strg| && st2.strg[p].len == st1.strg[p].len && st2.strg[p].dat == st1.strg[p].dat
  {
  }

  lemma ReLen(st: State, p: nat, n: nat, st': State)
    requires p < |st.strg| == |st'.strg| && Open(st, p, n) && st'.strg[p].len <= st.strg[p].cap
    requires st' == st.(strg := st.strg[p := st.strg[p].(len := st'.strg[p].len)])
    ensures Open(st', p, n)
  {
    hide FlatN;
    forall q: nat | q < |st'.strg| && st'.strg[q].live && q != p ensures AtRest(st', q) {
      assert AtRest(st, q);
      HoldsKept(st, st', st'.strg[q].dat, FlatN(st'.strg[q].elem, st'.strg[q].len));
    }
    HoldsKept(st, st', st.strg[p].dat, FlatN(st.strg[p].elem, n));
    assert forall q: nat, i: int :: q < |st.strg| ==> InBlock(st'.strg[q], i) == InBlock(st.strg[q], i);
  }

  // ---- changing the length or the capacity

  method ConstructN(h: Heap, e: Type, dat: nat, len: nat, ghost busy: set<nat>)
    requires Inv(h.St(), multiset{}, busy)
    requires IsRaw(h.mem, dat, dat + Span(e, len)) && Loose(h.St(), dat, dat + Span(e, len), busy)
    modifies h`mem, h`strg
    ensures Inv(h.St(), multiset{}, busy) && Built(old(h.St()), h.St(), dat, FlatN(e, len))
  {
    if ClassifyType(e) == TriviallyCopyable {
      ghost var st := h.St();
      var m, n := h.mem, Span(e, len);
      h.mem := seq(|m|, i requires 0 <= i < |m| => if dat <= i < dat + n then Bits(0) else m[i]);
      WriteNumbersKeeps(st, multiset{}, busy, dat, n, h.St());
      ZeroesBuilt(st, h.St(), dat, e, len);
    } else {
      ConstructLoop(h, e, dat, len, busy);
    }
  }

  lemma ZeroesBuilt(st: State, st': State, dat: nat, e: Type, len: nat)
    requires e.BtnType? && st'.strg == st.strg && WroteAt(st.mem, st'.mem, dat, Span(e, len))
    requires forall i: nat :: dat <= i < dat + Span(e, len) ==> st'.mem[i] == Bits(0)
    ensures Built(st, st', dat, FlatN(e, len))
  {
    forall i: nat | i < |FlatN(e, len)| ensures DefaultCell(st, st', st'.mem[dat + i], FlatN(e, len)[i]) {
      NumberLayout(e, len, i);
    }
  }

  method ConstructLoop(h: Heap, e: Type, dat: nat, len: nat, ghost busy: set<nat>)
    requires Inv(h.St(), multiset{}, busy)
    requires IsRaw(h.mem, dat, dat + Span(e, len)) && Loose(h.St(), dat, dat + Span(e, len), busy)
    modifies h`mem, h`strg
    ensures Inv(h.St(), multiset{}, busy) && Built(old(h.St()), h.St(), dat, FlatN(e, len))
  {
    hide Inv, Loose, Built, IsRaw, Span, Flat, FlatN;
    ghost var st := h.St();
    var d: nat, n: nat := dat, len;
    ghost var k: nat := 0;
    RawInMemory(h.mem, dat, dat + Span(e, len));
    NoElements(e);
    BuiltNothing(st, dat);
    while n != 0
      invariant n <= len && k == len - n && d == dat + Span(e, k)
      invariant Inv(h.St(), multiset{}, busy) && Built(st, h.St(), dat, FlatN(e, k))
      invariant IsRaw(h.mem, d, dat + Span(e, len)) && Loose(h.St(), d, dat + Span(e, len), busy)
    {
      ghost var st1 := h.St();
      ghost var next := d + |Flat(e)|;
      NextElement(e, k, len);
      LooseWithin(st1, d, dat + Span(e, len), busy, d, next);
      IsRawWithin(st1.mem, d, dat + Span(e, len), d, next);
      LooseWithin(st1, d, dat + Span(e, len), busy, next, dat + Span(e, len));
      IsRawWithin(st1.mem, d, dat + Span(e, len), next, dat + Span(e, len));
      h.DefConstruct(e, d, multiset{}, busy);
      BuiltThen(st, st1, h.St(), dat, FlatN(e, k), Flat(e));
      BuiltBeside(st1, h.St(), d, Flat(e), next, dat + Span(e, len), busy);
      d, n, k := d + |Flat(e)|, n - 1, k + 1;
    }
  }

  lemma NoElements(e: Type)
    ensures FlatN(e, 0) == [] && Span(e, 0) == 0
  {
  }

  lemma NextElement(e: Type, k: nat, len: nat)
    requires k < len
    ensures FlatN(e, k + 1) == FlatN(e, k) + Flat(e) && |FlatN(e, k)| == Span(e, k)
    ensures Span(e, k + 1) == Span(e, k) + |Flat(e)| <= Span(e, len)
  {
    SpanMonotone(e, k + 1, len);
  }

  /** Gives an array `len` elements: surplus ones are destroyed, missing ones are
      default constructed. */
  method Resize(h: Heap, e: Type, a: nat, len: nat)
    requires IsArray(h.St(), a, e) && len < MAX_LEN
    modifies h
    ensures IsArray(h.St(), a, e) && h.mem[a] == old(h.mem[a]) && h.strg[h.mem[a].ptr].len == len
    ensures len <= old(h.strg[h.mem[a].ptr].len) ==>
      var p := h.mem[a].ptr; var s := old(h.strg[p]);
      && Span(e, len) <= |old(Elements(h.St(), p))|
      && Elements(h.St(), p) == old(Elements(h.St(), p))[..Span(e, len)]
      && Swept(WithLen(old(h.St()), p, len), h.St(), Range(s.dat + Span(e, len), s.dat + Span(e, s.len)), Rank(e))
    ensures len > old(h.strg[h.mem[a].ptr].len) ==>
      var p := h.mem[a].ptr; var s := old(h.strg[p]);
      && OnlyArray(old(h.St()), h.St(), p)
      && |Elements(h.St(), p)| == Span(e, s.len) + Span(e, len - s.len)
      && Elements(h.St(), p)[..Span(e, s.len)] == old(Elements(h.St(), p))
      && DefaultElements(old(h.St()), h.St(), Elements(h.St(), p)[Span(e, s.len)..], FlatN(e, len - s.len))
  {
    hide Inv, Elements, OnlyArray, Swept, WithLen, DefaultElements, Span, FlatN, Flat, Holds;
    if len <= h.strg[h.mem[a].ptr].len {
      Shrink(h, e, a, len);
    } else {
      Enlarge(h, e, a, len);
    }
  }

  method Shrink(h: Heap, e: Type, a: nat, len: nat)
    requires IsArray(h.St(), a, e) && len <= h.strg[h.mem[a].ptr].len
    modifies h`mem, h`strg
    ensures IsArray(h.St(), a, e) && h.mem[a] == old(h.mem[a]) && h.strg[h.mem[a].ptr].len == len
    ensures
      var p := h.mem[a].ptr; var s := old(h.strg[p]);
      && Span(e, len) <= |old(Elements(h.St(), p))|
      && Elements(h.St(), p) == old(Elements(h.St(), p))[..Span(e, len)]
      && Swept(WithLen(old(h.St()), p, len), h.St(), Range(s.dat + Span(e, len), s.dat + Span(e, s.len)), Rank(e))
  {
    hide Inv, Open, Holds, Span, Flat, FlatN, Loose, BusyAbove, Swept, Dropped;
    ghost var st := h.St();
    var p := h.mem[a].ptr;
    var oldLen := h.strg[p].len;
    OpenUp(st, p);
    OwnHandleOutside(st, p, a);
    TruncateReady(st, p, oldLen, len);
    var first := h.strg[p].dat + Span(e, len);
    DestroyTail(h, e, first, oldLen - len, p);
    ghost var st2 := h.St();
    Truncated(st, st2, a, p, oldLen, len);
    DroppedIsSwept(st, st2, first, first + Span(e, oldLen - len), Rank(e));
    h.strg := h.strg[p := h.strg[p].(len := len)];
    Close(st2, p, len, h.St());
    ShrunkArray(st, st, st2, a, p, len, h.St());
  }

  method Enlarge(h: Heap, e: Type, a: nat, len: nat)
    requires IsArray(h.St(), a, e) && h.strg[h.mem[a].ptr].len < len < MAX_LEN
    modifies h
    ensures IsArray(h.St(), a, e) && h.mem[a] == old(h.mem[a]) && h.strg[h.mem[a].ptr].len == len
    ensures
      var p := h.mem[a].ptr; var s := old(h.strg[p]);
      && OnlyArray(old(h.St()), h.St(), p)
      && |Elements(h.St(), p)| == Span(e, s.len) + Span(e, len - s.len)
      && Elements(h.St(), p)[..Span(e, s.len)] == old(Elements(h.St(), p))
      && DefaultElements(old(h.St()), h.St(), Elements(h.St(), p)[Span(e, s.len)..], FlatN(e, len - s.len))
  {
    hide Inv, Open, Holds, Span, Flat, FlatN, Loose, SameElements, OnlyArray, Built, IsRaw, Extends;
    ghost var st := h.St();
    var p := h.mem[a].ptr;
    var oldLen := h.strg[p].len;
    OpenUp(st, p);
    MakeRoom(h, p, len);
    ghost var st1 := h.St();
    var end := h.strg[p].dat + Span(e, oldLen);
    TailReady(st1, p, oldLen, len);
    ConstructN(h, e, end, len - oldLen, {p});
    ghost var st2 := h.St();
    StillThere(st1, st2, p, end, FlatN(e, len - oldLen));
    h.strg := h.strg[p := h.strg[p].(len := len)];
    Enlarged(st, st1, st2, a, p, len - oldLen, h.St());
  }

  lemma StillThere(st1: State, st2: State, p: nat, a: nat, l: seq<Leaf>)
    requires p < |st1.strg| && Built(st1, st2, a, l)
    ensures p < |st2.strg| && st2.strg[p] == st1.strg[p]
  {
    assert st2.strg[..|st1.strg|][p] == st1.strg[p];
  }

  lemma Enlarged(st: State, st1: State, st2: State, a: nat, p: nat, count: nat, st3: State)
    requires p < |st.strg| && IsArray(st, a, st.strg[p].elem) && st.mem[a] == Handle(p)
    requires SameElements(st, st1, p) && Open(st1, p, st1.strg[p].len) && st1.strg[p].len + count <= st1.strg[p].cap
    requires var s := st1.strg[p]; Built(st1, st2, s.dat + Span(s.elem, s.len), FlatN(s.elem, count)) && Inv(st2, multiset{}, {p})
    requires p < |st2.strg| && st3 == st2.(strg := st2.strg[p := st2.strg[p].(len := st1.strg[p].len + count)])
    ensures IsArray(st3, a, st.strg[p].elem) && st3.mem[a] == st.mem[a] && OnlyArray(st, st3, p)
    ensures var s := st.strg[p];
            && |Elements(st3, p)| == Span(s.elem, s.len) + Span(s.elem, count)
            && Elements(st3, p)[..Span(s.elem, s.len)] == Elements(st, p)
            && DefaultElements(st, st3, Elements(st3, p)[Span(s.elem, s.len)..], FlatN(s.elem, count))
  {
    hide Open, Inv, Holds, Span, FlatN, Built, Extends, Assigned, DefaultElements;
    var s := st1.strg[p];
    BuiltExtends(st1, st2, p, count);
    ExtendedOpen(st1, st2, p, count);
    ExtendedStorage(st1, st2, p, count);
    Close(st2, p, s.len + count, st3);
    ExtendedArray(st, st1, st2, a, p, count, st3);
    BuiltElements(st, st1, st2, p, count, st3);
    var old', all := Elements(st, p), Elements(st3, p);
    assert all[..Span(s.elem, s.len)] == old';
    assert all[Span(s.elem, s.len)..] == st2.mem[s.dat + Span(s.elem, s.len)..s.dat + Span(s.elem, s.len + count)];
  }

  lemma ExtendedStorage(st1: State, st2: State, p: nat, count: nat)
    requires p < |st1.strg| && Extends(st1, st2, p, count)
    ensures p < |st2.strg| && st2.strg[p] == st1.strg[p].(ref := st2.strg[p].ref)
  {
  }

  method DestroyTail(h: Heap, e: Type, first: nat, n: nat, ghost p: nat)
    requires Inv(h.St(), multiset{}, {p}) && BusyAbove(h.St(), {p}, Rank(e))
    requires Holds(h.St(), first, FlatN(e, n)) && Loose(h.St(), first, first + Span(e, n), {p})
    modifies h`mem, h`strg
    ensures Inv(h.St(), multiset{}, {p}) && Dropped(old(h.St()), h.St(), first, first + Span(e, n), Rank(e))
  {
    h.DestroyN(e, first, n, multiset{}, {p});
  }

  lemma TailReady(st1: State, p: nat, oldLen: nat, len: nat)
    requires p < |st1.strg| && Open(st1, p, oldLen) && oldLen <= len <= st1.strg[p].cap
    ensures var s := st1.strg[p]; var end := s.dat + Span(s.elem, oldLen);
            && Inv(st1, multiset{}, {p}) && Span(s.elem, len) == Span(s.elem, oldLen) + Span(s.elem, len - oldLen)
            && IsRaw(st1.mem, end, end + Span(s.elem, len - oldLen))
            && Loose(st1, end, end + Span(s.elem, len - oldLen), {p})
  {
    var s := st1.strg[p];
    OpenFacts(st1, p, oldLen);
    SpanAdds(s.elem, oldLen, len - oldLen);
    SpanMonotone(s.elem, len, s.cap);
  }

  lemma BuiltExtends(st1: State, st2: State, p: nat, count: nat)
    requires p < |st1.strg| && st1.strg[p].len + count <= st1.strg[p].cap && Inv(st2, multiset{}, {p})
    requires var s := st1.strg[p]; Built(st1, st2, s.dat + Span(s.elem, s.len), FlatN(s.elem, count))
    ensures Extends(st1, st2, p, count)
  {
    var s := st1.strg[p];
    BuiltHolds(st1, st2, s.dat + Span(s.elem, s.len), FlatN(s.elem, count));
    forall q: nat | q < |st1.strg| ensures st2.strg[q] == st1.strg[q] {
      assert st2.strg[..|st1.strg|][q] == st1.strg[q];
    }
  }

  /** The cells are default values whose storages did not exist before. */
  ghost predicate DefaultElements(st0: State, st1: State, cells: seq<Cell>, l: seq<Leaf>) {
    |cells| == |l| && forall i: nat :: i < |l| ==> DefaultCell(st0, st1, cells[i], l[i])
  }

  lemma BuiltElements(st: State, st1: State, st2: State, p: nat, count: nat, st3: State)
    requires p < |st.strg| && |st1.strg| == |st.strg|
    requires Extends(st1, st2, p, count)
    requires var s := st1.strg[p];
             && Built(st1, st2, s.dat + Span(s.elem, s.len), FlatN(s.elem, count))
             && s.dat + Span(s.elem, s.len + count) <= |st2.mem|
    requires st3 == st2.(strg := st2.strg[p := st2.strg[p].(len := st1.strg[p].len + count)])
    ensures var s := st1.strg[p];
            && Span(s.elem, s.len + count) == Span(s.elem, s.len) + Span(s.elem, count)
            && DefaultElements(st, st3, st2.mem[s.dat + Span(s.elem, s.len)..s.dat + Span(s.elem, s.len + count)],
                               FlatN(s.elem, count))
  {
    hide Inv, Holds;
    var s := st1.strg[p];
    var a, l := s.dat + Span(s.elem, s.len), FlatN(s.elem, count);
    SpanAdds(s.elem, s.len, count);
    forall i: nat | i < |l| ensures DefaultCell(st, st3, st2.mem[a..a + |l|][i], l[i]) {
      assert DefaultCell(st1, st2, st2.mem[a + i], l[i]);
    }
  }

  /** Only makes room; the elements stay what they are. */
  method Reserve(h: Heap, e: Type, a: nat, cap: nat)
    requires IsArray(h.St(), a, e)
    modifies h
    ensures IsArray(h.St(), a, e) && h.mem[a] == old(h.mem[a])
    ensures OnlyArray(old(h.St()), h.St(), h.mem[a].ptr)
    ensures var p := h.mem[a].ptr; var s := old(h.strg[p]);
            && h.strg[p].len == s.len && h.strg[p].cap == (if cap > s.cap then cap else s.cap)
            && Elements(h.St(), p) == old(Elements(h.St(), p))
  {
    hide Inv, Open, Holds, Span, Flat, FlatN, OnlyArray, Assigned;
    ghost var st := h.St();
    var p := h.mem[a].ptr;
    OpenUp(st, p);
    NotReallocated(st, p);
    LenWithinCap(st, p);
    if cap > h.strg[p].cap {
      Grow(h, p, cap);
    }
    Close(h.St(), p, h.strg[p].len, h.St());
    Reserved(st, h.St(), a, p);
  }

  lemma LenWithinCap(st: State, p: nat)
    requires Inv(st, multiset{}, {}) && p < |st.strg| && st.strg[p].live
    ensures st.strg[p].len <= st.strg[p].cap
  {
  }

  lemma Reserved(st: State, st1: State, a: nat, p: nat)
    requires p < |st.strg| && IsArray(st, a, st.strg[p].elem) && st.mem[a] == Handle(p)
    requires SameElements(st, st1, p) && Inv(st1, multiset{}, {})
    ensures IsArray(st1, a, st.strg[p].elem) && st1.mem[a] == st.mem[a] && Elements(st1, p) == Elements(st, p)
  {
    OwnHandleOutside(st, p, a);
    OtherElements(st, st1, p, p);
    var new', old' := Elements(st1, p), Elements(st, p);
    forall i: nat | i < |new'| ensures new'[i] == old'[i] {
      assert st1.mem[st1.strg[p].dat + i] == st.mem[st.strg[p].dat + (st1.strg[p].dat + i - st1.strg[p].dat)];
    }
    assert new' == old';
  }
}

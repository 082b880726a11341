/** The memory of a running program as seen by the generated runtime: an address
    space of cells and the array storages that handles in those cells point to. */
module HeapState {
  import opened Types

  /** A cell outside any object's lifetime is `Raw`. A moved-from array is `Null`. */
  datatype Cell = Raw | Bits(bits: nat) | Null | Handle(ptr: nat)

  type Pointer = c: Cell | c.Null? || c.Handle? witness Null

  /** The block of a storage is `cap` elements starting at cell `dat`. */
  datatype Storage = Storage(elem: Type, ref: int, cap: nat, len: nat, dat: nat, live: bool)

  datatype State = State(mem: seq<Cell>, strg: seq<Storage>)

  ghost predicate InBlock(s: Storage, i: int) {
    s.dat <= i < s.dat + Span(s.elem, s.cap)
  }

  /** The number of initialised handles to storage `p`. */
  ghost function Count(mem: seq<Cell>, p: nat): nat {
    multiset(mem)[Handle(p)]
  }

  /** The storages a pointer that is held outside memory keeps alive. */
  ghost function HeldAt(c: Cell): multiset<nat> {
    if c.Handle? then multiset{c.ptr} else multiset{}
  }

  /** Every live storage counts the handles to it: those in memory and the ones
      in flight. Nothing points to a storage that was freed. */
  ghost predicate Counted(st: State, extra: multiset<nat>) {
    && (forall p: nat :: p < |st.strg| ==>
          if st.strg[p].live then st.strg[p].ref == Count(st.mem, p) + extra[p]
          else st.strg[p].ref == 0 && Count(st.mem, p) + extra[p] == 0)
    && (forall p: nat :: |st.strg| <= p ==> Count(st.mem, p) + extra[p] == 0)
  }

  /** Blocks lie in memory and do not overlap. */
  ghost predicate Placed(st: State) {
    && (forall p: nat :: p < |st.strg| && st.strg[p].live ==>
          st.strg[p].len <= st.strg[p].cap
          && st.strg[p].dat + Span(st.strg[p].elem, st.strg[p].cap) <= |st.mem|)
    && (forall p: nat, q: nat, i: int {:trigger InBlock(st.strg[p], i), InBlock(st.strg[q], i)} ::
          p < |st.strg| && q < |st.strg| && st.strg[p].live && st.strg[q].live ==>
          InBlock(st.strg[p], i) && InBlock(st.strg[q], i) ==> p == q)
  }

  ghost predicate CellOk(st: State, c: Cell, l: Leaf) {
    match l
    case Word(k) => c.Bits? && c.bits < Width(k)
    case Ref(e) => c.Null? || (c.Handle? && c.ptr < |st.strg| && st.strg[c.ptr].elem == e)
  }

  /** The cells from `a` on hold an initialised object of layout `l`. */
  ghost predicate Holds(st: State, a: nat, l: seq<Leaf>) {
    && a + |l| <= |st.mem|
    && (forall i: nat :: i < |l| ==> CellOk(st, st.mem[a + i], l[i]))
  }

  ghost predicate IsRaw(mem: seq<Cell>, lo: nat, hi: nat) {
    hi <= |mem| && forall i: nat :: lo <= i < hi ==> mem[i] == Raw
  }

  /** A storage at rest is referenced, and exactly its first `len` slots are initialised. */
  ghost predicate AtRest(st: State, p: nat)
    requires p < |st.strg|
  {
    var s := st.strg[p];
    && s.ref >= 1
    && Holds(st, s.dat, FlatN(s.elem, s.len))
    && IsRaw(st.mem, s.dat + Span(s.elem, s.len), s.dat + Span(s.elem, s.cap))
  }

  /** The heap invariant. `extra` are the handles in flight; `busy` the storages
      an operation is in the middle of changing. */
  ghost predicate Inv(st: State, extra: multiset<nat>, busy: set<nat>) {
    && Counted(st, extra)
    && Placed(st)
    && (forall p :: p in busy ==> p < |st.strg| && st.strg[p].live)
    && (forall p: nat :: p < |st.strg| && st.strg[p].live && p !in busy ==> AtRest(st, p))
  }

  /** No cell of the range belongs to a storage at rest. */
  ghost predicate Loose(st: State, lo: nat, hi: nat, busy: set<nat>) {
    forall p: nat, i: int {:trigger InBlock(st.strg[p], i)} ::
      p < |st.strg| && st.strg[p].live && p !in busy && lo <= i < hi ==> !InBlock(st.strg[p], i)
  }

  /** No storage being changed is of low enough rank to be released meanwhile. */
  ghost predicate BusyAbove(st: State, busy: set<nat>, r: nat) {
    forall p :: p in busy ==> p < |st.strg| && Rank(st.strg[p].elem) >= r
  }

  /** Cell `i` was in a block that has been given back. */
  ghost predicate Freed(st0: State, st1: State, i: int)
    requires |st0.strg| == |st1.strg|
  {
    exists q: nat :: q < |st0.strg| && st0.strg[q].live && !st1.strg[q].live && InBlock(st0.strg[q], i)
  }

  ghost function Range(lo: nat, hi: nat): (r: set<nat>)
    ensures forall i: nat :: i in r <==> lo <= i < hi
    decreases hi - lo
  {
    if lo >= hi then {} else {lo} + Range(lo + 1, hi)
  }

  /** What an operation that writes the cells `touched` and lets go of handles may
      change: counts, and storages of rank below `r` may be freed, in which case
      exactly their blocks become raw. */
  ghost predicate Swept(st0: State, st1: State, touched: set<nat>, r: nat) {
    && |st0.mem| == |st1.mem| && |st0.strg| == |st1.strg|
    && (forall p: nat :: p < |st0.strg| ==>
          && st1.strg[p] == st0.strg[p].(ref := st1.strg[p].ref, live := st1.strg[p].live)
          && (st1.strg[p].live ==> st0.strg[p].live)
          && (Rank(st0.strg[p].elem) >= r ==> st1.strg[p].live == st0.strg[p].live))
    && (forall i: nat :: i < |st0.mem| && i !in touched ==>
          st1.mem[i] == st0.mem[i] || Freed(st0, st1, i))
    && (forall i: nat :: i < |st0.mem| && Freed(st0, st1, i) ==> st1.mem[i] == Raw)
  }

  /** The effect of ending the lives of the objects in [lo, hi). */
  ghost predicate Dropped(st0: State, st1: State, lo: nat, hi: nat, r: nat) {
    && Swept(st0, st1, Range(lo, hi), r)
    && IsRaw(st1.mem, lo, hi)
    && (forall p: nat :: p < |st0.strg| ==> st1.strg[p].ref <= st0.strg[p].ref)
  }

  ghost predicate NoHandles(st: State, lo: nat, hi: nat)
    requires hi <= |st.mem|
  {
    forall i: nat :: lo <= i < hi ==> !st.mem[i].Handle?
  }

  // ---- consequences of the invariant

  lemma HandleIsLive(st: State, extra: multiset<nat>, i: nat)
    requires Counted(st, extra) && i < |st.mem| && st.mem[i].Handle?
    ensures st.mem[i].ptr < |st.strg| && st.strg[st.mem[i].ptr].live && st.strg[st.mem[i].ptr].ref >= 1
  {
    assert st.mem[i] in multiset(st.mem);
    assert Count(st.mem, st.mem[i].ptr) > 0;
  }

  lemma HoldsKept(st0: State, st1: State, a: nat, l: seq<Leaf>)
    requires Holds(st0, a, l)
    requires |st0.mem| <= |st1.mem| && |st0.strg| <= |st1.strg|
    requires forall p: nat :: p < |st0.strg| ==> st1.strg[p].elem == st0.strg[p].elem
    requires forall i: nat :: a <= i < a + |l| ==> st1.mem[i] == st0.mem[i]
    ensures Holds(st1, a, l)
  {
    forall i: nat | i < |l| ensures CellOk(st1, st1.mem[a + i], l[i]) {
      assert CellOk(st0, st0.mem[a + i], l[i]);
    }
  }

  lemma HoldsSplit(st: State, a: nat, l: seq<Leaf>, k: nat)
    requires k <= |l|
    ensures Holds(st, a, l) <==> Holds(st, a, l[..k]) && Holds(st, a + k, l[k..])
  {
    if Holds(st, a, l[..k]) && Holds(st, a + k, l[k..]) {
      forall i: nat | i < |l| ensures CellOk(st, st.mem[a + i], l[i]) {
        if i < k {
          assert CellOk(st, st.mem[a + i], l[..k][i]);
        } else {
          assert CellOk(st, st.mem[(a + k) + (i - k)], l[k..][i - k]);
        }
      }
    }
    if Holds(st, a, l) {
      forall i: nat | i < |l| - k ensures CellOk(st, st.mem[(a + k) + i], l[k..][i]) {
        assert CellOk(st, st.mem[a + (k + i)], l[k + i]);
      }
    }
  }

  // ---- the primitive steps keep the invariant

  /** Element `k` of a row of elements. */
  lemma ElemHolds(st: State, a: nat, e: Type, len: nat, k: nat)
    requires Holds(st, a, FlatN(e, len)) && k < len
    ensures Span(e, k) + |Flat(e)| == Span(e, k + 1) <= Span(e, len)
    ensures Holds(st, a + Span(e, k), Flat(e))
  {
    hide FlatN, Flat, Holds, Span;
    var n, f := |FlatN(e, k)|, |Flat(e)|;
    ElemSlice(e, len, k);
    SpanIsLength(e, k);
    HoldsSplit(st, a, FlatN(e, len), n + f);
    HoldsSplit(st, a, FlatN(e, k) + Flat(e), n);
    assert (FlatN(e, k) + Flat(e))[n..] == Flat(e);
  }

  lemma IncKeeps(st: State, extra: multiset<nat>, busy: set<nat>, p: nat, st': State)
    requires Inv(st, extra, busy) && p < |st.strg| && st.strg[p].live
    requires st' == st.(strg := st.strg[p := st.strg[p].(ref := st.strg[p].ref + 1)])
    ensures Inv(st', extra + multiset{p}, busy)
  {
    RefChangeRests(st, extra, busy, p, st');
  }

  lemma DecKeeps(st: State, extra: multiset<nat>, busy: set<nat>, p: nat, st': State)
    requires Inv(st, extra, busy) && extra[p] > 0 && p < |st.strg|
    requires st.strg[p].ref > 1 || p in busy
    requires st' == st.(strg := st.strg[p := st.strg[p].(ref := st.strg[p].ref - 1)])
    ensures st.strg[p].live
    ensures Inv(st', extra - multiset{p}, busy)
  {
    RefChangeRests(st, extra, busy, p, st');
  }

  lemma RefChangeRests(st: State, extra: multiset<nat>, busy: set<nat>, p: nat, st': State)
    requires Inv(st, extra, busy) && p < |st.strg| && |st'.strg| == |st.strg|
    requires st'.mem == st.mem && st'.strg == st.strg[p := st.strg[p].(ref := st'.strg[p].ref)]
    requires st'.strg[p].ref >= 1 || p in busy
    ensures Placed(st')
    ensures forall q: nat :: q < |st'.strg| && st'.strg[q].live && q !in busy ==> AtRest(st', q)
  {
    forall q: nat | q < |st'.strg| && st'.strg[q].live && q !in busy ensures AtRest(st', q) {
      assert AtRest(st, q);
      HoldsKept(st, st', st.strg[q].dat, FlatN(st.strg[q].elem, st.strg[q].len));
    }
    assert forall q: nat, i: int :: q < |st.strg| ==> InBlock(st'.strg[q], i) == InBlock(st.strg[q], i);
  }

  /** Changing one loose cell changes no storage at rest. */
  lemma LooseWrite(st: State, extra: multiset<nat>, busy: set<nat>, a: nat, c: Cell, st': State)
    requires Inv(st, extra, busy) && a < |st.mem| && Loose(st, a, a + 1, busy)
    requires st' == st.(mem := st.mem[a := c])
    ensures Placed(st')
    ensures forall p: nat :: p < |st'.strg| && st'.strg[p].live && p !in busy ==> AtRest(st', p)
    ensures forall p: nat ::
              Count(st'.mem, p) == Count(st.mem, p) - (if st.mem[a] == Handle(p) then 1 else 0)
                                   + (if c == Handle(p) then 1 else 0)
  {
    forall p: nat | p < |st'.strg| && st'.strg[p].live && p !in busy ensures AtRest(st', p) {
      assert AtRest(st, p);
      var s := st.strg[p];
      SpanMonotone(s.elem, s.len, s.cap);
      assert !InBlock(s, a);
      HoldsKept(st, st', s.dat, FlatN(s.elem, s.len));
    }
    assert st.mem[a] in multiset(st.mem);
  }

  /** The end of the life of a handle or number: its handle is now in flight. */
  lemma EndLifeKeeps(st: State, extra: multiset<nat>, busy: set<nat>, a: nat, st': State)
    requires Inv(st, extra, busy) && a < |st.mem| && Loose(st, a, a + 1, busy)
    requires st' == st.(mem := st.mem[a := Raw])
    ensures Inv(st', extra + HeldAt(st.mem[a]), busy)
  {
    LooseWrite(st, extra, busy, a, Raw, st');
  }

  /** The start of a life in a raw cell: a handle in flight lands there. */
  lemma StoreKeeps(st: State, extra: multiset<nat>, busy: set<nat>, a: nat, c: Cell, st': State)
    requires Inv(st, extra, busy) && a < |st.mem| && Loose(st, a, a + 1, busy)
    requires !st.mem[a].Handle?
    requires c.Handle? ==> extra[c.ptr] > 0
    requires st' == st.(mem := st.mem[a := c])
    ensures Inv(st', extra - HeldAt(c), busy)
  {
    LooseWrite(st, extra, busy, a, c, st');
  }

  // ---- composing drops

  lemma DroppedNothing(st: State, a: nat, l: seq<Leaf>, r: nat)
    requires Holds(st, a, l)
    ensures Dropped(st, st, a, a, r)
  {
  }

  lemma LooseWithin(st: State, lo: nat, hi: nat, busy: set<nat>, lo': nat, hi': nat)
    requires Loose(st, lo, hi, busy) && lo <= lo' && hi' <= hi
    ensures Loose(st, lo', hi', busy)
  {
  }

  lemma RawInMemory(mem: seq<Cell>, lo: nat, hi: nat)
    requires IsRaw(mem, lo, hi)
    ensures hi <= |mem|
  {
  }

  lemma IsRawWithin(mem: seq<Cell>, lo: nat, hi: nat, lo': nat, hi': nat)
    requires IsRaw(mem, lo, hi) && lo <= lo' && hi' <= hi
    ensures IsRaw(mem, lo', hi')
  {
  }

  lemma BusyAboveLower(st: State, busy: set<nat>, r: nat, r': nat)
    requires BusyAbove(st, busy, r) && r' <= r
    ensures BusyAbove(st, busy, r')
  {
  }

  /** A loose range away from the touched cells is still there afterwards. */
  lemma LooseSurvives(st0: State, st1: State, touched: set<nat>, r: nat, busy: set<nat>, lo: nat, hi: nat)
    requires Swept(st0, st1, touched, r) && BusyAbove(st0, busy, r)
    requires Loose(st0, lo, hi, busy) && hi <= |st0.mem|
    ensures forall i: nat :: lo <= i < hi ==> !Freed(st0, st1, i)
    ensures forall i: nat :: lo <= i < hi && i !in touched ==> st1.mem[i] == st0.mem[i]
    ensures Loose(st1, lo, hi, busy) && BusyAbove(st1, busy, r)
  {
    forall i: nat | lo <= i < hi ensures !Freed(st0, st1, i) {
      assert !Freed(st0, st1, i);
    }
    forall p: nat, i: int | p < |st1.strg| && st1.strg[p].live && p !in busy && lo <= i < hi
      ensures !InBlock(st1.strg[p], i) {
      assert !InBlock(st0.strg[p], i);
    }
  }

  lemma SweptThen(st0: State, st1: State, st2: State, touched1: set<nat>, touched2: set<nat>, r: nat)
    requires Swept(st0, st1, touched1, r) && Swept(st1, st2, touched2, r)
    requires forall i: nat :: i in touched2 && i < |st0.mem| && Freed(st0, st1, i) ==> st2.mem[i] == Raw
    ensures Swept(st0, st2, touched1 + touched2, r)
  {
    forall p: nat | p < |st0.strg|
      ensures st2.strg[p] == st0.strg[p].(ref := st2.strg[p].ref, live := st2.strg[p].live)
      ensures st2.strg[p].live ==> st0.strg[p].live
      ensures Rank(st0.strg[p].elem) >= r ==> st2.strg[p].live == st0.strg[p].live
    {
      assert st1.strg[p].elem == st0.strg[p].elem;
    }
    forall i: nat | i < |st0.mem| ensures Freed(st0, st2, i) == (Freed(st0, st1, i) || Freed(st1, st2, i)) {
      FreedThen(st0, st1, st2, i);
    }
  }

  lemma FreedThen(st0: State, st1: State, st2: State, i: int)
    requires |st0.strg| == |st1.strg| == |st2.strg|
    requires forall p: nat :: p < |st0.strg| ==>
      && st1.strg[p] == st0.strg[p].(ref := st1.strg[p].ref, live := st1.strg[p].live)
      && (st1.strg[p].live ==> st0.strg[p].live)
      && (st2.strg[p].live ==> st1.strg[p].live)
    ensures Freed(st0, st2, i) == (Freed(st0, st1, i) || Freed(st1, st2, i))
  {
    assert forall p: nat :: p < |st0.strg| ==> InBlock(st0.strg[p], i) == InBlock(st1.strg[p], i);
  }

  lemma SweptSizes(st0: State, st1: State, touched: set<nat>, r: nat)
    requires Swept(st0, st1, touched, r)
    ensures |st1.mem| == |st0.mem| && |st1.strg| == |st0.strg|
  {
  }

  lemma SweptWeaken(st0: State, st1: State, touched: set<nat>, r: nat, touched': set<nat>, r': nat)
    requires Swept(st0, st1, touched, r) && r <= r' && touched <= touched'
    ensures Swept(st0, st1, touched', r')
  {
  }

  lemma DroppedThen(st0: State, st1: State, st2: State, lo: nat, mid: nat, hi: nat, r: nat)
    requires Dropped(st0, st1, lo, mid, r) && Dropped(st1, st2, mid, hi, r)
    requires lo <= mid <= hi
    ensures Dropped(st0, st2, lo, hi, r)
  {
    SweptThen(st0, st1, st2, Range(lo, mid), Range(mid, hi), r);
    assert Range(lo, mid) + Range(mid, hi) == Range(lo, hi);
  }

  lemma DroppedWeaken(st0: State, st1: State, lo: nat, hi: nat, r: nat, r': nat)
    requires Dropped(st0, st1, lo, hi, r) && r <= r'
    ensures Dropped(st0, st1, lo, hi, r')
  {
  }

  // ---- copying and moving cells

  /** The cells [src, src + n) now also stand at `dst`. */
  ghost predicate Copied(m0: seq<Cell>, m1: seq<Cell>, dst: nat, src: nat, n: nat) {
    && src + n <= |m0| && dst + n <= |m0| == |m1|
    && forall i: nat {:trigger m1[i]} :: i < |m0| ==> m1[i] == if dst <= i < dst + n then m0[src + (i - dst)] else m0[i]
  }

  /** What is left of a cell that was moved from. */
  function Husk(c: Cell): Cell {
    if c.Handle? then Null else c
  }

  ghost predicate Moved(m0: seq<Cell>, m1: seq<Cell>, dst: nat, src: nat, n: nat) {
    && src + n <= |m0| && dst + n <= |m0| == |m1|
    && forall i: nat {:trigger m1[i]} :: i < |m0| ==>
         m1[i] == if dst <= i < dst + n then m0[src + (i - dst)]
                  else if src <= i < src + n then Husk(m0[i])
                  else m0[i]
  }

  ghost predicate Apart(a: nat, b: nat, n: nat) {
    a + n <= b || b + n <= a
  }

  /** Only counts differ. */
  ghost predicate RefsOnly(s0: seq<Storage>, s1: seq<Storage>) {
    |s0| == |s1| && forall p: nat :: p < |s0| ==> s1[p] == s0[p].(ref := s1[p].ref)
  }

  lemma RefsOnlyThen(s0: seq<Storage>, s1: seq<Storage>, s2: seq<Storage>)
    requires RefsOnly(s0, s1) && RefsOnly(s1, s2)
    ensures RefsOnly(s0, s2)
  {
  }

  lemma CopiedNothing(st: State, dst: nat, src: nat, l: seq<Leaf>)
    requires Holds(st, src, l) && IsRaw(st.mem, dst, dst + |l|)
    ensures Copied(st.mem, st.mem, dst, src, 0) && RefsOnly(st.strg, st.strg)
  {
  }

  lemma MovedNothing(st: State, dst: nat, src: nat, l: seq<Leaf>)
    requires Holds(st, src, l) && IsRaw(st.mem, dst, dst + |l|)
    ensures Moved(st.mem, st.mem, dst, src, 0)
  {
  }

  lemma CopiedThen(m0: seq<Cell>, m1: seq<Cell>, m2: seq<Cell>, dst: nat, src: nat, n: nat, k: nat)
    requires Copied(m0, m1, dst, src, n) && Copied(m1, m2, dst + n, src + n, k)
    requires Apart(dst, src, n + k)
    ensures Copied(m0, m2, dst, src, n + k)
  {
    forall i: nat | i < |m0|
      ensures m2[i] == if dst <= i < dst + (n + k) then m0[src + (i - dst)] else m0[i]
    {
      if dst + n <= i < dst + n + k {
        assert m1[(src + n) + (i - (dst + n))] == m0[src + (i - dst)];
      }
    }
  }

  lemma CopiedHolds(st: State, st1: State, dst: nat, src: nat, l: seq<Leaf>)
    requires Holds(st, src, l) && RefsOnly(st.strg, st1.strg) && Copied(st.mem, st1.mem, dst, src, |l|)
    ensures Holds(st1, dst, l)
  {
    forall i: nat | i < |l| ensures CellOk(st1, st1.mem[dst + i], l[i]) {
      assert CellOk(st, st.mem[src + i], l[i]);
      assert st1.mem[dst + i] == st.mem[src + (dst + i - dst)];
    }
  }

  lemma MovedThen(m0: seq<Cell>, m1: seq<Cell>, m2: seq<Cell>, dst: nat, src: nat, n: nat, k: nat)
    requires Moved(m0, m1, dst, src, n) && Moved(m1, m2, dst + n, src + n, k)
    requires Apart(dst, src, n + k)
    ensures Moved(m0, m2, dst, src, n + k)
  {
    forall i: nat | i < |m0|
      ensures m2[i] == if dst <= i < dst + (n + k) then m0[src + (i - dst)]
                       else if src <= i < src + (n + k) then Husk(m0[i])
                       else m0[i]
    {
      if dst + n <= i < dst + n + k {
        assert m1[(src + n) + (i - (dst + n))] == m0[src + (i - dst)];
      }
    }
  }

  lemma LooseRefsOnly(st0: State, st1: State, lo: nat, hi: nat, busy: set<nat>)
    requires RefsOnly(st0.strg, st1.strg) && Loose(st0, lo, hi, busy)
    ensures Loose(st1, lo, hi, busy)
  {
    forall p: nat, i: int | p < |st1.strg| && st1.strg[p].live && p !in busy && lo <= i < hi
      ensures !InBlock(st1.strg[p], i) {
      assert !InBlock(st0.strg[p], i);
    }
  }

  /** One cell is copied: the handle in it is counted once more. */
  lemma CopyCellKeeps(st: State, st1: State, extra: multiset<nat>, busy: set<nat>, dst: nat, src: nat, st2: State)
    requires dst < |st.mem| && src < |st.mem| && st.mem[dst] == Raw && Loose(st1, dst, dst + 1, busy)
    requires Inv(st1, extra + HeldAt(st.mem[src]), busy)
    requires st1.mem == st.mem && st2 == st1.(mem := st1.mem[dst := st1.mem[src]])
    ensures Inv(st2, extra, busy) && Copied(st.mem, st2.mem, dst, src, 1)
  {
    hide Inv;
    var c := st.mem[src];
    var held := HeldAt(c);
    InFlight(st1, extra, busy, c);
    StoreKeeps(st1, extra + held, busy, dst, c, st2);
    assert extra + held - held == extra;
  }

  /** One cell is moved: the handle in it changes place. */
  lemma MoveCellKeeps(st: State, extra: multiset<nat>, busy: set<nat>, dst: nat, src: nat, husk: Cell, st2: State)
    requires Inv(st, extra, busy)
    requires dst < |st.mem| && src < |st.mem| && dst != src && st.mem[dst] == Raw && !husk.Handle?
    requires Loose(st, dst, dst + 1, busy) && Loose(st, src, src + 1, busy)
    requires st2 == st.(mem := st.mem[dst := st.mem[src]][src := husk])
    ensures Inv(st2, extra, busy)
  {
    hide Inv;
    var c := st.mem[src];
    var held := HeldAt(c);
    var st1 := st.(mem := st.mem[src := Raw]);
    EndLifeKeeps(st, extra, busy, src, st1);
    var st1' := st1.(mem := st1.mem[src := husk]);
    LooseRefsOnly(st, st1, src, src + 1, busy);
    StoreKeeps(st1, extra + held, busy, src, husk, st1');
    assert extra + held - multiset{} == extra + held;
    LooseRefsOnly(st, st1', dst, dst + 1, busy);
    InFlight(st1', extra, busy, c);
    StoreKeeps(st1', extra + held, busy, dst, c, st2);
    assert st2.mem == st1'.mem[dst := c];
    assert extra + held - held == extra;
  }

  lemma InFlight(st: State, extra: multiset<nat>, busy: set<nat>, c: Cell)
    requires Inv(st, extra + HeldAt(c), busy)
    ensures c.Handle? ==> (extra + HeldAt(c))[c.ptr] > 0
  {
  }

  // ---- assignment

  /** The range cannot disappear while handles of rank below `r` are let go. */
  ghost predicate Outlives(st: State, lo: nat, hi: nat, busy: set<nat>, r: nat) {
    forall p: nat, i: int {:trigger InBlock(st.strg[p], i)} ::
      p < |st.strg| && st.strg[p].live && p !in busy && Rank(st.strg[p].elem) < r && lo <= i < hi
      ==> !InBlock(st.strg[p], i)
  }

  lemma OutlivesSurvives(st0: State, st1: State, touched: set<nat>, r: nat, busy: set<nat>, lo: nat, hi: nat, r': nat)
    requires Swept(st0, st1, touched, r') && BusyAbove(st0, busy, r) && r' <= r
    requires Outlives(st0, lo, hi, busy, r) && hi <= |st0.mem|
    ensures forall i: nat :: lo <= i < hi ==> !Freed(st0, st1, i)
    ensures forall i: nat :: lo <= i < hi && i !in touched ==> st1.mem[i] == st0.mem[i]
    ensures Outlives(st1, lo, hi, busy, r)
  {
    forall i: nat | lo <= i < hi ensures !Freed(st0, st1, i) {
      assert !Freed(st0, st1, i);
    }
    forall p: nat, i: int | p < |st1.strg| && st1.strg[p].live && p !in busy && Rank(st1.strg[p].elem) < r && lo <= i < hi
      ensures !InBlock(st1.strg[p], i) {
      assert !InBlock(st0.strg[p], i);
    }
  }

  /** The object at `dst` now is what the object at `src` was. */
  ghost predicate Assigned(m0: seq<Cell>, m1: seq<Cell>, dst: nat, src: nat, n: nat) {
    && src + n <= |m0| && dst + n <= |m1|
    && forall i: nat {:trigger m1[i]} :: dst <= i < dst + n ==> m1[i] == m0[src + (i - dst)]
  }

  ghost predicate Husked(m0: seq<Cell>, m1: seq<Cell>, src: nat, n: nat) {
    && src + n <= |m0| && src + n <= |m1|
    && forall i: nat {:trigger m1[i]} :: src <= i < src + n ==> m1[i] == Husk(m0[i])
  }

  // ---- relocation

  /** The cells [src, src + n) have gone to `dst`. */
  ghost predicate Relocated(m0: seq<Cell>, m1: seq<Cell>, dst: nat, src: nat, n: nat) {
    && src + n <= |m0| && dst + n <= |m0| == |m1|
    && forall i: nat {:trigger m1[i]} :: i < |m0| ==>
         m1[i] == if dst <= i < dst + n then m0[src + (i - dst)]
                  else if src <= i < src + n then Raw
                  else m0[i]
  }

  lemma RelocatedPeel(m0: seq<Cell>, m1: seq<Cell>, m2: seq<Cell>, dst: nat, src: nat, n: nat)
    requires n > 0 && Apart(dst, src, n) && Relocated(m0, m2, dst, src, n) && m1 == m0[dst := m0[src]][src := Raw]
    ensures Relocated(m1, m2, dst + 1, src + 1, n - 1)
  {
    forall i: nat | dst + 1 <= i < dst + n ensures m2[i] == m1[(src + 1) + (i - (dst + 1))] {
      assert m2[i] == m0[src + (i - dst)];
    }
  }

  /** Relocating objects changes no count. */
  lemma {:induction false} RelocateKeeps(st: State, extra: multiset<nat>, busy: set<nat>, dst: nat, src: nat, n: nat, st': State)
    requires Inv(st, extra, busy) && Apart(dst, src, n)
    requires IsRaw(st.mem, dst, dst + n) && Loose(st, dst, dst + n, busy) && Loose(st, src, src + n, busy)
    requires Relocated(st.mem, st'.mem, dst, src, n) && st'.strg == st.strg
    ensures Inv(st', extra, busy)
    decreases n
  {
    if n == 0 {
      assert st'.mem == st.mem;
    } else {
      hide Inv;
      var st1 := st.(mem := st.mem[dst := st.mem[src]][src := Raw]);
      MoveCellKeeps(st, extra, busy, dst, src, Raw, st1);
      RelocatedPeel(st.mem, st1.mem, st'.mem, dst, src, n);
      LooseRefsOnly(st, st1, dst, dst + n, busy);
      LooseRefsOnly(st, st1, src, src + n, busy);
      RelocateKeeps(st1, extra, busy, dst + 1, src + 1, n - 1, st');
    }
  }

  /** Ending the lives of objects without handles changes no count. */
  lemma {:induction false} EraseKeeps(st: State, extra: multiset<nat>, busy: set<nat>, lo: nat, hi: nat, st': State)
    requires Inv(st, extra, busy) && lo <= hi <= |st.mem| && Loose(st, lo, hi, busy) && NoHandles(st, lo, hi)
    requires st' == st.(mem := st'.mem) && |st'.mem| == |st.mem|
    requires forall i: nat :: i < |st.mem| ==> st'.mem[i] == if lo <= i < hi then Raw else st.mem[i]
    ensures Inv(st', extra, busy)
    decreases hi - lo
  {
    if lo == hi {
      assert st'.mem == st.mem;
    } else {
      hide Inv;
      var st1 := st.(mem := st.mem[lo := Raw]);
      EndLifeKeeps(st, extra, busy, lo, st1);
      assert extra + multiset{} == extra;
      EraseKeeps(st1, extra, busy, lo + 1, hi, st');
    }
  }

  lemma {:induction false} CountMonotone(m0: seq<Cell>, m1: seq<Cell>, p: nat)
    requires |m0| == |m1|
    requires forall i: nat :: i < |m0| ==> m0[i] == m1[i] || !m0[i].Handle?
    ensures Count(m0, p) <= Count(m1, p)
  {
    if m0 != [] {
      var k := |m0| - 1;
      CountMonotone(m0[..k], m1[..k], p);
      assert m0 == m0[..k] + [m0[k]] && m1 == m1[..k] + [m1[k]];
    }
  }

  // ---- allocation and default values

  lemma NewStorageKeeps(st: State, extra: multiset<nat>, busy: set<nat>, s: Storage, st': State)
    requires Inv(st, extra, busy)
    requires s.live && s.ref == 1 && s.cap == 0 && s.len == 0 && s.dat == 0
    requires st' == st.(strg := st.strg + [s])
    ensures Inv(st', extra + multiset{|st.strg|}, busy)
  {
    forall p: nat | p < |st'.strg| && st'.strg[p].live && p !in busy ensures AtRest(st', p) {
      if p < |st.strg| {
        assert AtRest(st, p);
        HoldsKept(st, st', st.strg[p].dat, FlatN(st.strg[p].elem, st.strg[p].len));
      }
    }
    assert forall i: int :: !InBlock(s, i);
    forall p: nat, i: int | p < |st'.strg| && InBlock(st'.strg[p], i) ensures p < |st.strg| && InBlock(st.strg[p], i) {
    }
  }

  /** The storage of a default-constructed array. */
  function EmptyStorage(e: Type): Storage {
    Storage(e, 1, 0, 0, 0, true)
  }

  ghost predicate DefaultCell(st0: State, st1: State, c: Cell, l: Leaf) {
    match l
    case Word(_) => c == Bits(0)
    case Ref(e) => c.Handle? && |st0.strg| <= c.ptr < |st1.strg| && st1.strg[c.ptr] == EmptyStorage(e)
  }

  /** The cells from `a` on hold default values; the only storages made are the
      empty arrays among them. */
  ghost predicate Built(st0: State, st1: State, a: nat, l: seq<Leaf>) {
    && a + |l| <= |st0.mem| == |st1.mem|
    && |st0.strg| <= |st1.strg| && st1.strg[..|st0.strg|] == st0.strg
    && (forall i: nat :: i < |st0.mem| && !(a <= i < a + |l|) ==> st1.mem[i] == st0.mem[i])
    && (forall q: nat :: |st0.strg| <= q < |st1.strg| ==> st1.strg[q] == EmptyStorage(st1.strg[q].elem))
    && (forall i: nat :: i < |l| ==> DefaultCell(st0, st1, st1.mem[a + i], l[i]))
  }

  lemma BuiltHolds(st0: State, st1: State, a: nat, l: seq<Leaf>)
    requires Built(st0, st1, a, l)
    ensures Holds(st1, a, l)
  {
    forall i: nat | i < |l| ensures CellOk(st1, st1.mem[a + i], l[i]) {
      assert DefaultCell(st0, st1, st1.mem[a + i], l[i]);
    }
  }

  lemma BuiltNothing(st: State, a: nat)
    requires a <= |st.mem|
    ensures Built(st, st, a, [])
  {
  }

  lemma BuiltThen(st0: State, st1: State, st2: State, a: nat, l1: seq<Leaf>, l2: seq<Leaf>)
    requires Built(st0, st1, a, l1) && Built(st1, st2, a + |l1|, l2)
    ensures Built(st0, st2, a, l1 + l2)
  {
    forall q: nat | |st0.strg| <= q < |st2.strg| ensures st2.strg[q] == EmptyStorage(st2.strg[q].elem) {
      if q < |st1.strg| {
        assert st2.strg[..|st1.strg|][q] == st1.strg[q];
      }
    }
    forall i: nat | i < |l1 + l2| ensures DefaultCell(st0, st2, st2.mem[a + i], (l1 + l2)[i]) {
      if i < |l1| {
        assert DefaultCell(st0, st1, st1.mem[a + i], l1[i]);
        assert st2.mem[a + i] == st1.mem[a + i];
        if l1[i].Ref? {
          assert st2.strg[..|st1.strg|][st1.mem[a + i].ptr] == st1.strg[st1.mem[a + i].ptr];
        }
      } else {
        assert DefaultCell(st1, st2, st2.mem[(a + |l1|) + (i - |l1|)], l2[i - |l1|]);
      }
    }
  }

  /** A raw loose range is still raw and loose after default values were built elsewhere. */
  lemma BuiltBeside(st0: State, st1: State, a: nat, l: seq<Leaf>, lo: nat, hi: nat, busy: set<nat>)
    requires Built(st0, st1, a, l) && (hi <= a || a + |l| <= lo)
    requires IsRaw(st0.mem, lo, hi) && Loose(st0, lo, hi, busy)
    ensures IsRaw(st1.mem, lo, hi) && Loose(st1, lo, hi, busy)
  {
    forall p: nat, i: int | p < |st1.strg| && st1.strg[p].live && p !in busy && lo <= i < hi
      ensures !InBlock(st1.strg[p], i) {
      if p < |st0.strg| {
        assert st1.strg[..|st0.strg|][p] == st0.strg[p];
        assert !InBlock(st0.strg[p], i);
      }
    }
  }
}

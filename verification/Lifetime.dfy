/** The reference-counting functions of the generated runtime and the destructors
    built on them. */
module Lifetime {
  import opened Types
  import opened HeapState
  import opened HeapTheorems

  /** What an expression denotes: a named object, part of a temporary, or a new value. */
  datatype ValueCat = LValue | XValue | PRValue

  class Heap {
    var mem: seq<Cell>
    var strg: seq<Storage>

    /** The number of elements that bulk moves have relocated so far. */
    ghost var moved: nat

    /** A program starts in an empty address space without storages. */
    constructor (size: nat)
      ensures mem == seq(size, _ => Raw) && strg == [] && moved == 0
      ensures Inv(St(), multiset{}, {})
    {
      mem, strg, moved := seq(size, _ => Raw), [], 0;
      EmptyHeap(size);
    }

    ghost function St(): State
      reads this
    {
      State(mem, strg)
    }

    // ---- pointers

    method PtrInc(c: Pointer, ghost extra: multiset<nat>, ghost busy: set<nat>)
      requires Inv(St(), extra, busy)
      requires c.Handle? ==> c.ptr < |strg| && strg[c.ptr].live
      modifies `strg
      ensures Inv(St(), extra + HeldAt(c), busy)
      ensures |strg| == |old(strg)|
      ensures forall p: nat :: p < |strg| ==> strg[p] == old(strg)[p].(ref := strg[p].ref)
    {
      if c.Handle? {
        ghost var st := St();
        strg := strg[c.ptr := strg[c.ptr].(ref := strg[c.ptr].ref + 1)];
        IncKeeps(st, extra, busy, c.ptr, St());
      }
    }

    /** Gives up one counted pointer; the last one takes the storage with it. */
    method PtrDec(e: Type, c: Pointer, ghost extra: multiset<nat>, ghost busy: set<nat>)
      requires Inv(St(), extra, busy) && BusyAbove(St(), busy, Rank(e) + 1)
      requires c.Handle? ==> extra[c.ptr] > 0 && c.ptr < |strg| && strg[c.ptr].elem == e
      modifies `mem, `strg
      ensures Inv(St(), extra - HeldAt(c), busy)
      ensures Dropped(old(St()), St(), 0, 0, Rank(e) + 1)
      ensures c.Null? ==> unchanged(this)
      decreases e, 4
    {
      hide Inv, Dropped, BusyAbove, Holds;
      ghost var st := St();
      NothingDropped(st, Rank(e) + 1);
      if c.Handle? {
        ghost var p := c.ptr;
        HeldIsAtRest(st, extra, busy, p);
        strg := strg[c.ptr := strg[c.ptr].(ref := strg[c.ptr].ref - 1)];
        if strg[c.ptr].ref == 0 {
          BeginRelease(st, extra, busy, p, St());
          ghost var st1 := St();
          assert extra - HeldAt(c) + multiset{p} == extra;
          ArrStrgDtor(e, c.ptr, extra - HeldAt(c), busy + {p});
          ghost var st2 := St();
          strg := strg[c.ptr := strg[c.ptr].(live := false)];
          EndRelease(st, st1, st2, extra - HeldAt(c), busy, p, St());
        } else {
          DecKeeps(st, extra, busy, p, St());
          CountDropped(st, p, Rank(e) + 1, St());
        }
      } else {
        assert extra - HeldAt(c) == extra;
      }
    }

    /** The destructor of a storage nobody points to any more. */
    method ArrStrgDtor(e: Type, p: nat, ghost extra: multiset<nat>, ghost busy: set<nat>)
      requires Inv(St(), extra, busy) && BusyAbove(St(), busy, Rank(e))
      requires p in busy && strg[p].elem == e
      requires Holds(St(), strg[p].dat, FlatN(e, strg[p].len))
      modifies `mem, `strg
      ensures Inv(St(), extra, busy)
      ensures Dropped(old(St()), St(), old(strg[p].dat), old(strg[p].dat + Span(e, strg[p].len)), Rank(e))
      decreases e, 3
    {
      BusyBlockLoose(St(), extra, busy, p);
      DestroyN(e, strg[p].dat, strg[p].len, extra, busy);
    }

    method DestroyN(t: Type, dat: nat, len: nat, ghost extra: multiset<nat>, ghost busy: set<nat>)
      requires Inv(St(), extra, busy) && BusyAbove(St(), busy, Rank(t))
      requires Holds(St(), dat, FlatN(t, len)) && Loose(St(), dat, dat + Span(t, len), busy)
      modifies `mem, `strg
      ensures Inv(St(), extra, busy)
      ensures Dropped(old(St()), St(), dat, dat + Span(t, len), Rank(t))
      decreases t, 2
    {
      hide Inv, Dropped, Holds, Loose, BusyAbove;
      var d: nat, n: nat := dat, len;
      ghost var st := St();
      DroppedNothing(st, dat, FlatN(t, len), Rank(t));
      while n != 0
        invariant n <= len && d + Span(t, n) == dat + Span(t, len)
        invariant Inv(St(), extra, busy) && BusyAbove(St(), busy, Rank(t))
        invariant dat <= d && Dropped(st, St(), dat, d, Rank(t))
        invariant Holds(St(), d, FlatN(t, n)) && Loose(St(), d, d + Span(t, n), busy)
      {
        ghost var mid := d + |Flat(t)|;
        ghost var st1 := St();
        SplitElem(st1, d, t, n);
        LooseWithin(st1, d, d + Span(t, n), busy, d, mid);
        Destroy(t, d, extra, busy);
        DropStep(st, st1, St(), dat, d, mid, Rank(t), FlatN(t, n - 1), busy);
        d, n := d + |Flat(t)|, n - 1;
      }
    }

    // ---- lifetime of one object

    method Destroy(t: Type, a: nat, ghost extra: multiset<nat>, ghost busy: set<nat>)
      requires Inv(St(), extra, busy) && BusyAbove(St(), busy, Rank(t))
      requires Holds(St(), a, Flat(t)) && Loose(St(), a, a + |Flat(t)|, busy)
      modifies `mem, `strg
      ensures Inv(St(), extra, busy)
      ensures Dropped(old(St()), St(), a, a + |Flat(t)|, Rank(t))
      decreases t, 1
    {
      ghost var st := St();
      match t
      case BtnType(_) =>
        assert CellOk(st, mem[a + 0], Flat(t)[0]);
        mem := mem[a := Raw];
        EndLifeKeeps(st, extra, busy, a, St());
      case ArrayType(e) =>
        assert CellOk(st, mem[a + 0], Flat(t)[0]);
        PtrDtor(e, a, extra, busy);
      case StructType(fs) =>
        DestroyFields(t, a, extra, busy);
    }

    method DestroyFields(t: Type, a: nat, ghost extra: multiset<nat>, ghost busy: set<nat>)
      requires t.StructType?
      requires Inv(St(), extra, busy) && BusyAbove(St(), busy, Rank(t))
      requires Holds(St(), a, FlatAll(t.fields)) && Loose(St(), a, a + |FlatAll(t.fields)|, busy)
      modifies `mem, `strg
      ensures Inv(St(), extra, busy)
      ensures Dropped(old(St()), St(), a, a + |FlatAll(t.fields)|, Rank(t))
      decreases t, 0
    {
      hide Inv, Dropped, Holds, Loose, BusyAbove;
      var fs, k := t.fields, 0;
      ghost var st := St();
      DroppedNothing(st, a, FlatAll(fs), Rank(t));
      ghost var lo: nat := 0;
      while k < |fs|
        invariant k <= |fs| && lo == |FlatAll(fs[..k])| <= |FlatAll(fs)|
        invariant Inv(St(), extra, busy) && BusyAbove(St(), busy, Rank(t))
        invariant Dropped(st, St(), a, a + lo, Rank(t))
        invariant Holds(St(), a + lo, FlatAll(fs)[lo..]) && Loose(St(), a + lo, a + |FlatAll(fs)|, busy)
      {
        ghost var hi := |FlatAll(fs[..k + 1])|;
        ghost var st1 := St();
        SplitField(st1, a, fs, k);
        FieldRank(fs, k);
        LooseWithin(st1, a + lo, a + |FlatAll(fs)|, busy, a + lo, a + hi);
        BusyAboveLower(st1, busy, Rank(t), Rank(fs[k]));
        Destroy(fs[k], a + |FlatAll(fs[..k])|, extra, busy);
        DroppedWeaken(st1, St(), a + lo, a + hi, Rank(fs[k]), Rank(t));
        DropStep(st, st1, St(), a, a + lo, a + hi, Rank(t), FlatAll(fs)[hi..], busy);
        k, lo := k + 1, hi;
      }
      assert fs[..k] == fs;
    }

    method PtrDtor(e: Type, a: nat, ghost extra: multiset<nat>, ghost busy: set<nat>)
      requires Inv(St(), extra, busy) && BusyAbove(St(), busy, Rank(e) + 1)
      requires a < |mem| && CellOk(St(), mem[a], Ref(e)) && Loose(St(), a, a + 1, busy)
      modifies `mem, `strg
      ensures Inv(St(), extra, busy)
      ensures Dropped(old(St()), St(), a, a + 1, Rank(e) + 1)
      decreases e, 5
    {
      hide Inv, Dropped, BusyAbove, Loose;
      ghost var st := St();
      var c: Pointer := mem[a];
      mem := mem[a := Raw];
      EndLifeKeeps(st, extra, busy, a, St());
      ghost var st1 := St();
      AsgnReady(st, st1, extra, busy, a, c, Rank(e) + 1);
      PtrDec(e, c, extra + HeldAt(c), busy);
      assert extra + HeldAt(c) - HeldAt(c) == extra;
      DroppedAfterEnd(st, st1, St(), a, Rank(e) + 1);
    }

    method PtrCopCtor(dst: nat, src: nat, ghost extra: multiset<nat>, ghost busy: set<nat>)
      requires Inv(St(), extra, busy) && dst < |mem| && src < |mem|
      requires mem[dst] == Raw && Loose(St(), dst, dst + 1, busy)
      requires mem[src].Null? || mem[src].Handle?
      modifies `mem, `strg
      ensures Inv(St(), extra, busy)
      ensures Copied(old(mem), mem, dst, src, 1) && RefsOnly(old(strg), strg)
    {
      ghost var st := St();
      var c: Pointer := mem[src];
      if c.Handle? {
        HandleIsLive(st, extra, src);
      }
      PtrInc(c, extra, busy);
      ghost var st1 := St();
      LooseRefsOnly(st, st1, dst, dst + 1, busy);
      mem := mem[dst := c];
      CopyCellKeeps(st, st1, extra, busy, dst, src, St());
    }

    method PtrMovCtor(dst: nat, src: nat, ghost extra: multiset<nat>, ghost busy: set<nat>)
      requires Inv(St(), extra, busy) && dst < |mem| && src < |mem| && dst != src
      requires mem[dst] == Raw && Loose(St(), dst, dst + 1, busy)
      requires (mem[src].Null? || mem[src].Handle?) && Loose(St(), src, src + 1, busy)
      modifies `mem
      ensures Inv(St(), extra, busy)
      ensures Moved(old(mem), mem, dst, src, 1)
    {
      ghost var st := St();
      mem := mem[dst := mem[src]];
      mem := mem[src := Null];
      MoveCellKeeps(st, extra, busy, dst, src, Null, St());
    }

    method CopyConstruct(t: Type, dst: nat, src: nat, ghost extra: multiset<nat>, ghost busy: set<nat>)
      requires Inv(St(), extra, busy)
      requires Holds(St(), src, Flat(t)) && Apart(dst, src, |Flat(t)|)
      requires IsRaw(mem, dst, dst + |Flat(t)|) && Loose(St(), dst, dst + |Flat(t)|, busy)
      modifies `mem, `strg
      ensures Inv(St(), extra, busy)
      ensures Copied(old(mem), mem, dst, src, |Flat(t)|) && RefsOnly(old(strg), strg)
      decreases t, 1
    {
      ghost var st := St();
      match t
      case BtnType(_) =>
        assert CellOk(st, mem[src + 0], Flat(t)[0]);
        mem := mem[dst := mem[src]];
        assert extra + multiset{} == extra;
        CopyCellKeeps(st, st, extra, busy, dst, src, St());
      case ArrayType(e) =>
        assert CellOk(st, mem[src + 0], Flat(t)[0]);
        PtrCopCtor(dst, src, extra, busy);
      case StructType(fs) =>
        CopyFields(t, dst, src, extra, busy);
    }

    method CopyFields(t: Type, dst: nat, src: nat, ghost extra: multiset<nat>, ghost busy: set<nat>)
      requires t.StructType? && Inv(St(), extra, busy)
      requires Holds(St(), src, FlatAll(t.fields)) && Apart(dst, src, |FlatAll(t.fields)|)
      requires IsRaw(mem, dst, dst + |FlatAll(t.fields)|) && Loose(St(), dst, dst + |FlatAll(t.fields)|, busy)
      modifies `mem, `strg
      ensures Inv(St(), extra, busy)
      ensures Copied(old(mem), mem, dst, src, |FlatAll(t.fields)|) && RefsOnly(old(strg), strg)
      decreases t, 0
    {
      hide Inv, Holds, Loose, IsRaw, Copied, RefsOnly, Apart, FlatAll, Rank;
      ghost var st := St();
      NoFields(t.fields);
      CopiedNothing(st, dst, src, FlatAll(t.fields));
      var k := 0;
      while k < |t.fields|
        invariant k <= |t.fields| && Inv(St(), extra, busy)
        invariant Copied(st.mem, mem, dst, src, |FlatAll(t.fields[..k])|) && RefsOnly(st.strg, strg)
      {
        CopyField(t, k, dst, src, st, extra, busy);
        k := k + 1;
      }
      assert t.fields[..k] == t.fields;
    }

    method CopyField(t: Type, k: nat, dst: nat, src: nat, ghost st: State, ghost extra: multiset<nat>, ghost busy: set<nat>)
      requires t.StructType? && k < |t.fields| && Inv(St(), extra, busy)
      requires Holds(st, src, Flat(t)) && Apart(dst, src, |Flat(t)|)
      requires IsRaw(st.mem, dst, dst + |Flat(t)|) && Loose(st, dst, dst + |Flat(t)|, busy)
      requires Copied(st.mem, mem, dst, src, |FlatAll(t.fields[..k])|) && RefsOnly(st.strg, strg)
      modifies `mem, `strg
      ensures Inv(St(), extra, busy)
      ensures Copied(st.mem, mem, dst, src, |FlatAll(t.fields[..k + 1])|) && RefsOnly(st.strg, strg)
      decreases t.fields[k], 2
    {
      hide Inv, Holds, Loose, IsRaw, Copied, RefsOnly, Apart, FlatAll, Flat, Rank;
      var n := |FlatAll(t.fields[..k])|;
      ghost var st1 := St();
      CopyFieldReady(st, st1, busy, dst, src, t, k);
      CopyConstruct(t.fields[k], dst + n, src + n, extra, busy);
      CopiedThen(st.mem, st1.mem, mem, dst, src, n, |Flat(t.fields[k])|);
      RefsOnlyThen(st.strg, st1.strg, strg);
    }

    method MoveConstruct(t: Type, dst: nat, src: nat, ghost extra: multiset<nat>, ghost busy: set<nat>)
      requires Inv(St(), extra, busy)
      requires Holds(St(), src, Flat(t)) && Apart(dst, src, |Flat(t)|)
      requires IsRaw(mem, dst, dst + |Flat(t)|) && Loose(St(), dst, dst + |Flat(t)|, busy)
      requires Loose(St(), src, src + |Flat(t)|, busy)
      modifies `mem
      ensures Inv(St(), extra, busy)
      ensures Moved(old(mem), mem, dst, src, |Flat(t)|)
      decreases t, 1
    {
      ghost var st := St();
      match t
      case BtnType(_) =>
        assert CellOk(st, mem[src + 0], Flat(t)[0]);
        mem := mem[dst := mem[src]];
        assert extra + multiset{} == extra;
        CopyCellKeeps(st, st, extra, busy, dst, src, St());
      case ArrayType(e) =>
        assert CellOk(st, mem[src + 0], Flat(t)[0]);
        PtrMovCtor(dst, src, extra, busy);
      case StructType(fs) =>
        MoveFields(t, dst, src, extra, busy);
    }

    method MoveFields(t: Type, dst: nat, src: nat, ghost extra: multiset<nat>, ghost busy: set<nat>)
      requires t.StructType? && Inv(St(), extra, busy)
      requires Holds(St(), src, FlatAll(t.fields)) && Apart(dst, src, |FlatAll(t.fields)|)
      requires IsRaw(mem, dst, dst + |FlatAll(t.fields)|) && Loose(St(), dst, dst + |FlatAll(t.fields)|, busy)
      requires Loose(St(), src, src + |FlatAll(t.fields)|, busy)
      modifies `mem
      ensures Inv(St(), extra, busy)
      ensures Moved(old(mem), mem, dst, src, |FlatAll(t.fields)|)
      decreases t, 0
    {
      hide Inv, Holds, Loose, IsRaw, Moved, Apart, FlatAll, Rank;
      ghost var st := St();
      NoFields(t.fields);
      MovedNothing(st, dst, src, FlatAll(t.fields));
      var k := 0;
      while k < |t.fields|
        invariant k <= |t.fields| && Inv(St(), extra, busy)
        invariant Moved(st.mem, mem, dst, src, |FlatAll(t.fields[..k])|)
      {
        MoveField(t, k, dst, src, st, extra, busy);
        k := k + 1;
      }
      assert t.fields[..k] == t.fields;
    }

    method MoveField(t: Type, k: nat, dst: nat, src: nat, ghost st: State, ghost extra: multiset<nat>, ghost busy: set<nat>)
      requires t.StructType? && k < |t.fields| && Inv(St(), extra, busy) && strg == st.strg
      requires Holds(st, src, Flat(t)) && Apart(dst, src, |Flat(t)|)
      requires IsRaw(st.mem, dst, dst + |Flat(t)|) && Loose(st, dst, dst + |Flat(t)|, busy) && Loose(st, src, src + |Flat(t)|, busy)
      requires Moved(st.mem, mem, dst, src, |FlatAll(t.fields[..k])|)
      modifies `mem
      ensures Inv(St(), extra, busy)
      ensures Moved(st.mem, mem, dst, src, |FlatAll(t.fields[..k + 1])|)
      decreases t.fields[k], 2
    {
      hide Inv, Holds, Loose, IsRaw, Moved, Apart, FlatAll, Flat, Rank;
      var n := |FlatAll(t.fields[..k])|;
      ghost var st1 := St();
      CopyFieldReady(st, st1, busy, dst, src, t, k);
      LooseRefsOnly(st, st1, src, src + |Flat(t)|, busy);
      LooseWithin(st1, src, src + |Flat(t)|, busy, src + n, src + n + |Flat(t.fields[k])|);
      MoveConstruct(t.fields[k], dst + n, src + n, extra, busy);
      MovedThen(st.mem, st1.mem, mem, dst, src, n, |Flat(t.fields[k])|);
    }

    lemma AsgnStores(st: State, st3: State, extra: multiset<nat>, busy: set<nat>, dst: nat, c: Pointer, r: nat)
      requires Inv(st3, extra + HeldAt(c), busy) && Swept(st, st3, Range(dst, dst + 1), r) && dst < |st.mem|
      requires !Freed(st, st3, dst) && dst < |st3.mem| && Loose(st3, dst, dst + 1, busy) && !st3.mem[dst].Handle?
      ensures Inv(st3.(mem := st3.mem[dst := c]), extra, busy)
      ensures Swept(st, st3.(mem := st3.mem[dst := c]), Range(dst, dst + 1), r)
    {
      hide Inv, Loose, Swept, Freed;
      var st4 := st3.(mem := st3.mem[dst := c]);
      InFlight(st3, extra, busy, c);
      StoreKeeps(st3, extra + HeldAt(c), busy, dst, c, st4);
      assert extra + HeldAt(c) - HeldAt(c) == extra;
      AsgnSwept(st, st3, dst, c, r, st4);
    }

    method PtrCopAsgn(e: Type, dst: nat, src: nat, ghost extra: multiset<nat>, ghost busy: set<nat>)
      requires Inv(St(), extra, busy) && BusyAbove(St(), busy, Rank(e) + 1)
      requires dst < |mem| && CellOk(St(), mem[dst], Ref(e)) && Loose(St(), dst, dst + 1, busy)
      requires src < |mem| && CellOk(St(), mem[src], Ref(e))
      modifies `mem, `strg
      ensures Inv(St(), extra, busy)
      ensures Swept(old(St()), St(), Range(dst, dst + 1), Rank(e) + 1)
      ensures mem[dst] == old(mem[src])
    {
      hide Inv, Loose, Swept, BusyAbove, Dropped;
      ghost var st := St();
      var d: Pointer, c: Pointer := mem[dst], mem[src];
      PointerIsLive(st, extra, busy, src);
      PtrInc(c, extra, busy);
      ghost var st1 := St();
      LooseRefsOnly(st, st1, dst, dst + 1, busy);
      mem := mem[dst := Raw];
      EndLifeKeeps(st1, extra + HeldAt(c), busy, dst, St());
      ghost var st2 := St();
      AsgnReady(st, st2, extra + HeldAt(c), busy, dst, d, Rank(e) + 1);
      PtrDec(e, d, extra + HeldAt(c) + HeldAt(d), busy);
      assert extra + HeldAt(c) + HeldAt(d) - HeldAt(d) == extra + HeldAt(c);
      ghost var st3 := St();
      AsgnDropped(st, st2, st3, busy, dst, Rank(e) + 1);
      mem := mem[dst := c];
      AsgnStores(st, st3, extra, busy, dst, c, Rank(e) + 1);
    }

    method PtrMovAsgn(e: Type, dst: nat, src: nat, ghost extra: multiset<nat>, ghost busy: set<nat>)
      requires Inv(St(), extra, busy) && BusyAbove(St(), busy, Rank(e) + 1)
      requires dst < |mem| && CellOk(St(), mem[dst], Ref(e)) && Loose(St(), dst, dst + 1, busy)
      requires src < |mem| && CellOk(St(), mem[src], Ref(e)) && Loose(St(), src, src + 1, busy) && dst != src
      modifies `mem, `strg
      ensures Inv(St(), extra, busy)
      ensures Swept(old(St()), St(), Range(dst, dst + 1) + Range(src, src + 1), Rank(e) + 1)
      ensures mem[dst] == old(mem[src]) && mem[src] == Null
    {
      hide Inv, Loose, Swept, BusyAbove, Dropped;
      ghost var st := St();
      PtrDtor(e, dst, extra, busy);
      ghost var st1 := St();
      MovAsgnDropped(st, st1, busy, dst, src, Rank(e) + 1);
      mem := mem[dst := mem[src]];
      mem := mem[src := Null];
      MoveCellKeeps(st1, extra, busy, dst, src, Null, St());
      MovAsgnSwept(st, st1, busy, dst, src, Rank(e) + 1, St());
    }

    method StoreNumber(k: Btn, dst: nat, src: nat, ghost extra: multiset<nat>, ghost busy: set<nat>)
      requires Inv(St(), extra, busy)
      requires Holds(St(), dst, [Word(k)]) && Loose(St(), dst, dst + 1, busy) && Holds(St(), src, [Word(k)])
      modifies `mem
      ensures Inv(St(), extra, busy)
      ensures mem == old(mem)[dst := old(mem[src])]
      ensures Swept(old(St()), St(), Range(dst, dst + 1), 0)
      ensures Assigned(old(mem), mem, dst, src, 1) && (dst != src ==> Husked(old(mem), mem, src, 1))
    {
      hide Inv, Loose, Swept;
      ghost var st := St();
      assert CellOk(st, mem[dst + 0], [Word(k)][0]) && CellOk(st, mem[src + 0], [Word(k)][0]);
      mem := mem[dst := mem[src]];
      assert extra - multiset{} == extra;
      StoreKeeps(st, extra, busy, dst, mem[dst], St());
      NumberSwept(st, dst, mem[dst], St());
    }

    method CopyAssign(t: Type, dst: nat, src: nat, ghost extra: multiset<nat>, ghost busy: set<nat>)
      requires Inv(St(), extra, busy) && BusyAbove(St(), busy, Rank(t))
      requires Holds(St(), dst, Flat(t)) && Loose(St(), dst, dst + |Flat(t)|, busy)
      requires Holds(St(), src, Flat(t)) && Outlives(St(), src, src + |Flat(t)|, busy, Rank(t))
      requires dst == src || Apart(dst, src, |Flat(t)|)
      modifies `mem, `strg
      ensures Inv(St(), extra, busy)
      ensures Swept(old(St()), St(), Range(dst, dst + |Flat(t)|), Rank(t))
      ensures Assigned(old(mem), mem, dst, src, |Flat(t)|)
      decreases t, 1
    {
      hide Inv, Loose, Swept, BusyAbove, Outlives;
      ghost var st := St();
      match t
      case BtnType(_) =>
        StoreNumber(t.kind, dst, src, extra, busy);
      case ArrayType(e) =>
        assert CellOk(st, mem[dst + 0], Flat(t)[0]) && CellOk(st, mem[src + 0], Flat(t)[0]);
        PtrCopAsgn(e, dst, src, extra, busy);
        SweptSizes(st, St(), Range(dst, dst + 1), Rank(t));
      case StructType(fs) =>
        CopyAssignFields(t, dst, src, extra, busy);
    }

    method CopyAssignFields(t: Type, dst: nat, src: nat, ghost extra: multiset<nat>, ghost busy: set<nat>)
      requires t.StructType? && Inv(St(), extra, busy) && BusyAbove(St(), busy, Rank(t))
      requires Holds(St(), dst, Flat(t)) && Loose(St(), dst, dst + |Flat(t)|, busy)
      requires Holds(St(), src, Flat(t)) && Outlives(St(), src, src + |Flat(t)|, busy, Rank(t))
      requires dst == src || Apart(dst, src, |Flat(t)|)
      modifies `mem, `strg
      ensures Inv(St(), extra, busy)
      ensures Swept(old(St()), St(), Range(dst, dst + |Flat(t)|), Rank(t))
      ensures Assigned(old(mem), mem, dst, src, |Flat(t)|)
      decreases t, 0
    {
      hide Inv, Holds, Loose, Swept, BusyAbove, Outlives, Assigning, Assigned, Apart, Flat;
      ghost var st := St();
      var fs, k := t.fields, 0;
      AssigningStart(st, dst, src, t, busy);
      while k < |fs|
        invariant k <= |fs| && Inv(St(), extra, busy)
        invariant Assigning(st, St(), dst, src, t, k, busy)
      {
        var n := |FlatAll(fs[..k])|;
        ghost var cur := St();
        AssigningField(st, cur, dst, src, t, k, busy);
        CopyAssign(fs[k], dst + n, src + n, extra, busy);
        AssigningStep(st, cur, St(), dst, src, t, k, busy);
        k := k + 1;
      }
      AssigningDone(st, St(), dst, src, t, busy);
    }

    method MoveAssign(t: Type, dst: nat, src: nat, ghost extra: multiset<nat>, ghost busy: set<nat>)
      requires Inv(St(), extra, busy) && BusyAbove(St(), busy, Rank(t))
      requires Holds(St(), dst, Flat(t)) && Loose(St(), dst, dst + |Flat(t)|, busy)
      requires Holds(St(), src, Flat(t)) && Loose(St(), src, src + |Flat(t)|, busy)
      requires Apart(dst, src, |Flat(t)|)
      modifies `mem, `strg
      ensures Inv(St(), extra, busy)
      ensures Swept(old(St()), St(), Range(dst, dst + |Flat(t)|) + Range(src, src + |Flat(t)|), Rank(t))
      ensures Assigned(old(mem), mem, dst, src, |Flat(t)|) && Husked(old(mem), mem, src, |Flat(t)|)
      decreases t, 1
    {
      hide Inv, Loose, Swept, BusyAbove, Outlives;
      ghost var st := St();
      match t
      case BtnType(_) =>
        StoreNumber(t.kind, dst, src, extra, busy);
        SweptWeaken(st, St(), Range(dst, dst + 1), 0, Range(dst, dst + 1) + Range(src, src + 1), Rank(t));
      case ArrayType(e) =>
        assert CellOk(st, mem[dst + 0], Flat(t)[0]) && CellOk(st, mem[src + 0], Flat(t)[0]);
        PtrMovAsgn(e, dst, src, extra, busy);
        SweptSizes(st, St(), Range(dst, dst + 1) + Range(src, src + 1), Rank(t));
      case StructType(fs) =>
        MoveAssignFields(t, dst, src, extra, busy);
    }

    method MoveAssignFields(t: Type, dst: nat, src: nat, ghost extra: multiset<nat>, ghost busy: set<nat>)
      requires t.StructType? && Inv(St(), extra, busy) && BusyAbove(St(), busy, Rank(t))
      requires Holds(St(), dst, Flat(t)) && Loose(St(), dst, dst + |Flat(t)|, busy)
      requires Holds(St(), src, Flat(t)) && Loose(St(), src, src + |Flat(t)|, busy)
      requires Apart(dst, src, |Flat(t)|)
      modifies `mem, `strg
      ensures Inv(St(), extra, busy)
      ensures Swept(old(St()), St(), Range(dst, dst + |Flat(t)|) + Range(src, src + |Flat(t)|), Rank(t))
      ensures Assigned(old(mem), mem, dst, src, |Flat(t)|) && Husked(old(mem), mem, src, |Flat(t)|)
      decreases t, 0
    {
      hide Inv, Holds, Loose, Swept, BusyAbove, Moving, Assigned, Husked, Apart, Flat;
      ghost var st := St();
      var fs, k := t.fields, 0;
      MovingStart(st, dst, src, t, busy);
      while k < |fs|
        invariant k <= |fs| && Inv(St(), extra, busy)
        invariant Moving(st, St(), dst, src, t, k, busy)
      {
        var n := |FlatAll(fs[..k])|;
        ghost var cur := St();
        MovingField(st, cur, dst, src, t, k, busy);
        MoveAssign(fs[k], dst + n, src + n, extra, busy);
        MovingStep(st, cur, St(), dst, src, t, k, busy);
        k := k + 1;
      }
      MovingDone(st, St(), dst, src, t, busy);
    }

    // ---- default construction

    method ArrDefCtor(e: Type, dst: nat, ghost extra: multiset<nat>, ghost busy: set<nat>)
      requires Inv(St(), extra, busy) && IsRaw(mem, dst, dst + 1) && Loose(St(), dst, dst + 1, busy)
      modifies `mem, `strg
      ensures Inv(St(), extra, busy) && Built(old(St()), St(), dst, [Ref(e)])
      ensures strg == old(strg) + [Storage(e, 1, 0, 0, 0, true)] && mem == old(mem)[dst := Handle(|old(strg)|)]
    {
      hide Inv, Loose;
      ghost var st := St();
      strg := strg + [EmptyStorage(e)];
      ghost var st1 := St();
      NewStorageKeeps(st, extra, busy, EmptyStorage(e), st1);
      EmptyIsNowhere(st, st1, e, dst, busy);
      mem := mem[dst := Handle(|strg| - 1)];
      StoreKeeps(st1, extra + multiset{|st.strg|}, busy, dst, mem[dst], St());
      assert extra + multiset{|st.strg|} - multiset{|st.strg|} == extra;
    }

    method DefConstruct(t: Type, dst: nat, ghost extra: multiset<nat>, ghost busy: set<nat>)
      requires Inv(St(), extra, busy)
      requires IsRaw(mem, dst, dst + |Flat(t)|) && Loose(St(), dst, dst + |Flat(t)|, busy)
      modifies `mem, `strg
      ensures Inv(St(), extra, busy) && Built(old(St()), St(), dst, Flat(t))
      ensures t.BtnType? ==> mem == old(mem)[dst := Bits(0)] && strg == old(strg)
      decreases t, 1
    {
      hide Inv, Loose, Built, IsRaw;
      ghost var st := St();
      match t
      case BtnType(k) =>
        RawInMemory(mem, dst, dst + 1);
        mem := mem[dst := Bits(0)];
        ZeroBuilt(st, k, dst, extra, busy);
      case ArrayType(e) =>
        ArrDefCtor(e, dst, extra, busy);
      case StructType(fs) =>
        DefConstructFields(t, dst, extra, busy);
    }

    lemma ZeroBuilt(st: State, k: Btn, dst: nat, extra: multiset<nat>, busy: set<nat>)
      requires Inv(st, extra, busy) && IsRaw(st.mem, dst, dst + 1) && Loose(st, dst, dst + 1, busy)
      ensures Inv(st.(mem := st.mem[dst := Bits(0)]), extra, busy)
      ensures Built(st, st.(mem := st.mem[dst := Bits(0)]), dst, [Word(k)])
    {
      hide Inv;
      assert extra - multiset{} == extra;
      StoreKeeps(st, extra, busy, dst, Bits(0), st.(mem := st.mem[dst := Bits(0)]));
    }

    method DefConstructFields(t: Type, dst: nat, ghost extra: multiset<nat>, ghost busy: set<nat>)
      requires t.StructType? && Inv(St(), extra, busy)
      requires IsRaw(mem, dst, dst + |FlatAll(t.fields)|) && Loose(St(), dst, dst + |FlatAll(t.fields)|, busy)
      modifies `mem, `strg
      ensures Inv(St(), extra, busy) && Built(old(St()), St(), dst, FlatAll(t.fields))
      decreases t, 0
    {
      hide Inv, Loose, Built, IsRaw, Flat;
      ghost var st := St();
      var fs, k := t.fields, 0;
      RawInMemory(mem, dst, dst + |FlatAll(fs)|);
      BuiltNothing(st, dst);
      while k < |fs|
        invariant k <= |fs| && |FlatAll(fs[..k])| <= |FlatAll(fs)|
        invariant Inv(St(), extra, busy) && Built(st, St(), dst, FlatAll(fs[..k]))
        invariant IsRaw(mem, dst + |FlatAll(fs[..k])|, dst + |FlatAll(fs)|)
        invariant Loose(St(), dst + |FlatAll(fs[..k])|, dst + |FlatAll(fs)|, busy)
      {
        var n := |FlatAll(fs[..k])|;
        ghost var m := n + |Flat(fs[k])|;
        ghost var st1 := St();
        FieldAt(fs, k);
        LooseWithin(st1, dst + n, dst + |FlatAll(fs)|, busy, dst + n, dst + m);
        IsRawWithin(st1.mem, dst + n, dst + |FlatAll(fs)|, dst + n, dst + m);
        IsRawWithin(st1.mem, dst + n, dst + |FlatAll(fs)|, dst + m, dst + |FlatAll(fs)|);
        DefConstruct(fs[k], dst + n, extra, busy);
        assert fs[..k + 1][..k] == fs[..k];
        BuiltThen(st, st1, St(), dst, FlatAll(fs[..k]), Flat(fs[k]));
        LooseWithin(st1, dst + n, dst + |FlatAll(fs)|, busy, dst + m, dst + |FlatAll(fs)|);
        BuiltBeside(st1, St(), dst + n, Flat(fs[k]), dst + m, dst + |FlatAll(fs)|, busy);
        k := k + 1;
      }
      assert fs[..k] == fs;
    }

    // ---- initialisation and assignment by value category

    /** Initialises the object at `dst` from an expression. A new value of a type that
        is not a plain number has been built in place, so nothing is left to do. */
    method Construct(t: Type, dst: nat, cat: ValueCat, src: nat, ghost extra: multiset<nat>, ghost busy: set<nat>)
      requires Inv(St(), extra, busy)
      requires t.BtnType? || !cat.PRValue? ==>
        && Holds(St(), src, Flat(t)) && Apart(dst, src, |Flat(t)|)
        && IsRaw(mem, dst, dst + |Flat(t)|) && Loose(St(), dst, dst + |Flat(t)|, busy)
      requires cat.XValue? ==> Loose(St(), src, src + |Flat(t)|, busy)
      modifies `mem, `strg
      ensures Inv(St(), extra, busy)
      ensures cat.PRValue? && !t.BtnType? ==> mem == old(mem) && strg == old(strg)
      ensures cat.XValue? ==> Moved(old(mem), mem, dst, src, |Flat(t)|) && strg == old(strg)
      ensures cat.LValue? || (cat.PRValue? && t.BtnType?) ==>
        Copied(old(mem), mem, dst, src, |Flat(t)|) && RefsOnly(old(strg), strg)
    {
      if ClassifyType(t) == TriviallyCopyable {
        ghost var st := St();
        assert CellOk(st, mem[src + 0], Flat(t)[0]);
        mem := mem[dst := mem[src]];
        assert extra + multiset{} == extra;
        CopyCellKeeps(st, st, extra, busy, dst, src, St());
      } else if cat == LValue {
        CopyConstruct(t, dst, src, extra, busy);
      } else if cat == XValue {
        MoveConstruct(t, dst, src, extra, busy);
      }
    }

    /** Assigns an expression to the object at `dst`. A temporary is moved from and
        then destroyed, which ends its life without touching any count again. */
    method Assign(t: Type, dst: nat, cat: ValueCat, src: nat, ghost extra: multiset<nat>, ghost busy: set<nat>)
      requires Inv(St(), extra, busy) && BusyAbove(St(), busy, Rank(t))
      requires Holds(St(), dst, Flat(t)) && Loose(St(), dst, dst + |Flat(t)|, busy)
      requires Holds(St(), src, Flat(t)) && Outlives(St(), src, src + |Flat(t)|, busy, Rank(t))
      requires Apart(dst, src, |Flat(t)|) || (cat.LValue? && dst == src)
      requires !cat.LValue? ==> Loose(St(), src, src + |Flat(t)|, busy)
      modifies `mem, `strg
      ensures Inv(St(), extra, busy)
      ensures Swept(old(St()), St(), Range(dst, dst + |Flat(t)|) + Range(src, src + |Flat(t)|), Rank(t))
      ensures Assigned(old(mem), mem, dst, src, |Flat(t)|)
      ensures cat.LValue? ==> mem[src..src + |Flat(t)|] == old(mem)[src..src + |Flat(t)|]
      ensures cat.XValue? ==> Husked(old(mem), mem, src, |Flat(t)|)
      ensures cat.PRValue? && !t.BtnType? ==> IsRaw(mem, src, src + |Flat(t)|)
    {
      hide Inv, Loose, Swept, BusyAbove, Outlives;
      ghost var st, n := St(), |Flat(t)|;
      if ClassifyType(t) == TriviallyCopyable {
        StoreNumber(t.kind, dst, src, extra, busy);
        SweptWeaken(st, St(), Range(dst, dst + n), 0, Range(dst, dst + n) + Range(src, src + n), Rank(t));
      } else if cat == LValue {
        CopyAssign(t, dst, src, extra, busy);
        AssignedSource(st, St(), dst, src, n, busy, Rank(t));
        SweptWeaken(st, St(), Range(dst, dst + n), Rank(t), Range(dst, dst + n) + Range(src, src + n), Rank(t));
      } else {
        MoveAssign(t, dst, src, extra, busy);
        if cat == PRValue {
          ghost var st1 := St();
          HuskReady(st, st1, dst, src, t, busy);
          Destroy(t, src, extra, busy);
          EraseIsDrop(st1, St(), extra, busy, src, src + n, Rank(t));
          HuskErased(st, st1, St(), dst, src, n, Rank(t), busy);
        }
      }
    }

    // ---- one operation undoes the other

    /** Copying an object and destroying the copy restores memory and every count. */
    method CopyThenDestroy(t: Type, dst: nat, src: nat, ghost extra: multiset<nat>, ghost busy: set<nat>)
      requires Inv(St(), extra, busy) && BusyAbove(St(), busy, Rank(t))
      requires Holds(St(), src, Flat(t)) && Apart(dst, src, |Flat(t)|)
      requires IsRaw(mem, dst, dst + |Flat(t)|) && Loose(St(), dst, dst + |Flat(t)|, busy)
      modifies `mem, `strg
      ensures mem == old(mem) && strg == old(strg)
    {
      hide Inv, Loose, Dropped, BusyAbove;
      ghost var st := St();
      CopyConstruct(t, dst, src, extra, busy);
      ghost var st1 := St();
      LooseRefsOnly(st, st1, dst, dst + |Flat(t)|, busy);
      CopyIsThere(st, st1, dst, src, t, busy);
      Destroy(t, dst, extra, busy);
      CopyDropped(st, st1, St(), extra, busy, dst, src, |Flat(t)|, Rank(t));
    }

    /** Moving an object and destroying the source only changes where it is. */
    method MoveThenDestroy(t: Type, dst: nat, src: nat, ghost extra: multiset<nat>, ghost busy: set<nat>)
      requires Inv(St(), extra, busy) && BusyAbove(St(), busy, Rank(t))
      requires Holds(St(), src, Flat(t)) && Apart(dst, src, |Flat(t)|)
      requires IsRaw(mem, dst, dst + |Flat(t)|) && Loose(St(), dst, dst + |Flat(t)|, busy)
      requires Loose(St(), src, src + |Flat(t)|, busy)
      modifies `mem, `strg
      ensures Inv(St(), extra, busy)
      ensures Relocated(old(mem), mem, dst, src, |Flat(t)|) && strg == old(strg)
    {
      hide Inv, Loose, Dropped, BusyAbove;
      ghost var st := St();
      MoveConstruct(t, dst, src, extra, busy);
      ghost var st1 := St();
      LooseRefsOnly(st, st1, src, src + |Flat(t)|, busy);
      HuskIsThere(st, st1, dst, src, t, busy);
      Destroy(t, src, extra, busy);
      MoveDropped(st, st1, St(), extra, busy, dst, src, |Flat(t)|, Rank(t));
    }
  }

  /** What copying or moving field `k` of a struct needs. */
  lemma CopyFieldReady(st: State, cur: State, busy: set<nat>, dst: nat, src: nat, t: Type, k: nat)
    requires t.StructType? && k < |t.fields| && Holds(st, src, Flat(t)) && Apart(dst, src, |Flat(t)|)
    requires IsRaw(st.mem, dst, dst + |Flat(t)|) && Loose(st, dst, dst + |Flat(t)|, busy)
    requires RefsOnly(st.strg, cur.strg)
    requires var n := |FlatAll(t.fields[..k])|; Copied(st.mem, cur.mem, dst, src, n) || Moved(st.mem, cur.mem, dst, src, n)
    ensures var n := |FlatAll(t.fields[..k])|; var f := |Flat(t.fields[k])|;
            && |FlatAll(t.fields[..k + 1])| == n + f <= |Flat(t)|
            && Holds(cur, src + n, Flat(t.fields[k])) && IsRaw(cur.mem, dst + n, dst + n + f)
            && Loose(cur, dst + n, dst + n + f, busy) && Apart(dst + n, src + n, f) && Apart(dst, src, n + f)
  {
    hide FlatAll, Flat, Rank, Holds, CellOk;
    FieldFits(t, k);
    HoldsInMemory(st, src, Flat(t));
    LooseRefsOnly(st, cur, dst, dst + |Flat(t)|, busy);
    FieldHolds(st, cur, src, t, k);
  }

  lemma HoldsInMemory(st: State, a: nat, l: seq<Leaf>)
    requires Holds(st, a, l)
    ensures a + |l| <= |st.mem|
  {
  }

  lemma PointerIsLive(st: State, extra: multiset<nat>, busy: set<nat>, i: nat)
    requires Inv(st, extra, busy) && i < |st.mem|
    ensures st.mem[i].Handle? ==> st.mem[i].ptr < |st.strg| && st.strg[st.mem[i].ptr].live
  {
    if st.mem[i].Handle? {
      HandleIsLive(st, extra, i);
    }
  }

  /** The old pointer of an assignment is held and may be released. */
  lemma AsgnReady(st: State, st2: State, extra: multiset<nat>, busy: set<nat>, dst: nat, d: Pointer, r: nat)
    requires Inv(st2, extra + HeldAt(d), busy)
    requires dst < |st.mem| && RefsOnly(st.strg, st2.strg) && st2.mem == st.mem[dst := Raw]
    requires BusyAbove(st, busy, r) && Loose(st, dst, dst + 1, busy)
    ensures BusyAbove(st2, busy, r) && Loose(st2, dst, dst + 1, busy)
    ensures d.Handle? ==> (extra + HeldAt(d))[d.ptr] > 0
  {
    LooseRefsOnly(st, st2, dst, dst + 1, busy);
  }

  /** Letting go of the old pointer leaves the destination cell alone. */
  lemma AsgnDropped(st: State, st2: State, st3: State, busy: set<nat>, dst: nat, r: nat)
    requires dst < |st.mem| && RefsOnly(st.strg, st2.strg) && st2.mem == st.mem[dst := Raw]
    requires BusyAbove(st2, busy, r) && Loose(st2, dst, dst + 1, busy) && Dropped(st2, st3, 0, 0, r)
    ensures |st3.mem| == |st.mem| && st3.mem[dst] == Raw && Loose(st3, dst, dst + 1, busy)
    ensures Swept(st, st3, Range(dst, dst + 1), r) && !Freed(st, st3, dst)
  {
    LooseSurvives(st2, st3, Range(0, 0), r, busy, dst, dst + 1);
    FreedRefsOnly(st, st2, st3);
    assert !Freed(st2, st3, dst);
  }

  lemma FreedRefsOnly(st: State, st1: State, st2: State)
    requires RefsOnly(st.strg, st1.strg) && |st1.strg| == |st2.strg|
    ensures forall i: int :: Freed(st, st2, i) == Freed(st1, st2, i)
  {
    assert forall p: nat, i: int :: p < |st.strg| ==> InBlock(st.strg[p], i) == InBlock(st1.strg[p], i);
  }

  lemma AsgnSwept(st: State, st3: State, dst: nat, c: Cell, r: nat, st4: State)
    requires Swept(st, st3, Range(dst, dst + 1), r) && dst < |st.mem| && !Freed(st, st3, dst)
    requires st4 == st3.(mem := st3.mem[dst := c])
    ensures Swept(st, st4, Range(dst, dst + 1), r)
  {
    FreedRefsOnly(st, st, st4);
    assert forall i: int :: Freed(st, st4, i) == Freed(st, st3, i);
  }

  lemma MovAsgnDropped(st: State, st1: State, busy: set<nat>, dst: nat, src: nat, r: nat)
    requires dst < |st.mem| && src < |st.mem| && dst != src && BusyAbove(st, busy, r)
    requires Loose(st, dst, dst + 1, busy) && Loose(st, src, src + 1, busy)
    requires Dropped(st, st1, dst, dst + 1, r)
    ensures |st1.mem| == |st.mem| && st1.mem[dst] == Raw && st1.mem[src] == st.mem[src]
    ensures Loose(st1, dst, dst + 1, busy) && Loose(st1, src, src + 1, busy)
  {
    LooseSurvives(st, st1, Range(dst, dst + 1), r, busy, dst, dst + 1);
    LooseSurvives(st, st1, Range(dst, dst + 1), r, busy, src, src + 1);
  }

  lemma MovAsgnSwept(st: State, st1: State, busy: set<nat>, dst: nat, src: nat, r: nat, st2: State)
    requires dst < |st.mem| == |st1.mem| && src < |st.mem| && dst != src && BusyAbove(st, busy, r)
    requires Loose(st, dst, dst + 1, busy) && Loose(st, src, src + 1, busy)
    requires Dropped(st, st1, dst, dst + 1, r)
    requires st2 == st1.(mem := st1.mem[dst := st1.mem[src]][src := Null])
    ensures Swept(st, st2, Range(dst, dst + 1) + Range(src, src + 1), r)
  {
    LooseSurvives(st, st1, Range(dst, dst + 1), r, busy, dst, dst + 1);
    LooseSurvives(st, st1, Range(dst, dst + 1), r, busy, src, src + 1);
    assert forall i: int :: Freed(st, st2, i) == Freed(st, st1, i);
    assert !Freed(st, st1, dst) && !Freed(st, st1, src);
  }

  /** The block of a storage being changed belongs to no storage at rest. */
  lemma BusyBlockLoose(st: State, extra: multiset<nat>, busy: set<nat>, p: nat)
    requires Inv(st, extra, busy) && p in busy
    ensures Loose(st, st.strg[p].dat, st.strg[p].dat + Span(st.strg[p].elem, st.strg[p].cap), busy)
    ensures Span(st.strg[p].elem, st.strg[p].len) <= Span(st.strg[p].elem, st.strg[p].cap)
  {
    SpanMonotone(st.strg[p].elem, st.strg[p].len, st.strg[p].cap);
    var lo, hi := st.strg[p].dat, st.strg[p].dat + Span(st.strg[p].elem, st.strg[p].cap);
    forall q: nat, i: int | q < |st.strg| && st.strg[q].live && q !in busy && lo <= i < hi
      ensures !InBlock(st.strg[q], i) {
      assert InBlock(st.strg[p], i);
    }
  }

  lemma SplitElem(st: State, a: nat, t: Type, n: nat)
    requires n > 0
    ensures Span(t, n) == |Flat(t)| + Span(t, n - 1)
    ensures Holds(st, a, FlatN(t, n)) <==> Holds(st, a, Flat(t)) && Holds(st, a + |Flat(t)|, FlatN(t, n - 1))
  {
    FlatNFront(t, n);
    HoldsSplit(st, a, FlatN(t, n), |Flat(t)|);
  }

  /** One more object of a row is dropped; the rest of the row is untouched. */
  lemma DropStep(st0: State, st1: State, st2: State, lo: nat, mid: nat, hi: nat, r: nat, rest: seq<Leaf>, busy: set<nat>)
    requires lo <= mid <= hi
    requires Dropped(st0, st1, lo, mid, r) && Dropped(st1, st2, mid, hi, r)
    requires BusyAbove(st1, busy, r)
    requires Holds(st1, hi, rest) && Loose(st1, mid, hi + |rest|, busy)
    ensures Dropped(st0, st2, lo, hi, r)
    ensures BusyAbove(st2, busy, r)
    ensures Holds(st2, hi, rest) && Loose(st2, hi, hi + |rest|, busy)
  {
    DroppedThen(st0, st1, st2, lo, mid, hi, r);
    LooseSurvives(st1, st2, Range(mid, hi), r, busy, hi, hi + |rest|);
    HoldsKept(st1, st2, hi, rest);
  }

  lemma SplitField(st: State, a: nat, fs: seq<Type>, k: nat)
    requires k < |fs|
    ensures |FlatAll(fs[..k])| <= |FlatAll(fs[..k + 1])| == |FlatAll(fs[..k])| + |Flat(fs[k])| <= |FlatAll(fs)|
    ensures Holds(st, a + |FlatAll(fs[..k])|, FlatAll(fs)[|FlatAll(fs[..k])|..])
       <==> Holds(st, a + |FlatAll(fs[..k])|, Flat(fs[k]))
            && Holds(st, a + |FlatAll(fs[..k + 1])|, FlatAll(fs)[|FlatAll(fs[..k + 1])|..])
  {
    hide Holds, Flat, FlatAll;
    FieldAt(fs, k);
    var lo, hi := |FlatAll(fs[..k])|, |FlatAll(fs[..k + 1])|;
    var rest := FlatAll(fs)[lo..];
    assert rest[..hi - lo] == Flat(fs[k]) && rest[hi - lo..] == FlatAll(fs)[hi..];
    HoldsSplit(st, a + lo, rest, hi - lo);
  }

  lemma DroppedAfterEnd(st0: State, st1: State, st2: State, a: nat, r: nat)
    requires a < |st0.mem| && st1 == st0.(mem := st0.mem[a := Raw])
    requires Dropped(st1, st2, 0, 0, r)
    ensures Dropped(st0, st2, a, a + 1, r)
  {
    forall i: nat | i < |st0.mem| && i != a
      ensures st2.mem[i] == st0.mem[i] || (st2.mem[i] == Raw && Freed(st0, st2, i))
    {
      if st2.mem[i] != st0.mem[i] {
        assert Freed(st1, st2, i);
      }
    }
  }

  lemma NothingDropped(st: State, r: nat)
    ensures Dropped(st, st, 0, 0, r)
  {
  }

  lemma CountDropped(st: State, p: nat, r: nat, st': State)
    requires p < |st.strg| && st' == st.(strg := st.strg[p := st.strg[p].(ref := st.strg[p].ref - 1)])
    ensures Dropped(st, st', 0, 0, r)
  {
  }

  lemma HeldIsAtRest(st: State, extra: multiset<nat>, busy: set<nat>, p: nat)
    requires Inv(st, extra, busy) && extra[p] > 0
    requires p < |st.strg| && BusyAbove(st, busy, Rank(st.strg[p].elem) + 1)
    ensures st.strg[p].live && p !in busy && st.strg[p].ref >= 1
  {
    assert AtRest(st, p);
  }

  /** The count has reached zero: the storage is now being changed. */
  lemma BeginRelease(st: State, extra: multiset<nat>, busy: set<nat>, p: nat, st': State)
    requires Inv(st, extra, busy) && extra[p] > 0 && p < |st.strg| && st.strg[p].ref == 1 && p !in busy
    requires st' == st.(strg := st.strg[p := st.strg[p].(ref := 0)])
    requires BusyAbove(st, busy, Rank(st.strg[p].elem) + 1)
    ensures Inv(st', extra - multiset{p}, busy + {p}) && BusyAbove(st', busy + {p}, Rank(st.strg[p].elem))
    ensures Holds(st', st.strg[p].dat, FlatN(st.strg[p].elem, st.strg[p].len))
  {
    assert st.strg[p].live;
    assert AtRest(st, p);
    RefChangeRests(st, extra, busy + {p}, p, st');
    HoldsKept(st, st', st.strg[p].dat, FlatN(st.strg[p].elem, st.strg[p].len));
  }

  /** The elements are gone: the storage and its block can be given back. */
  lemma EndRelease(st: State, st1: State, st2: State, extra: multiset<nat>, busy: set<nat>, p: nat, st3: State)
    requires Inv(st, extra + multiset{p}, busy) && p < |st.strg| && p !in busy && st.strg[p].live
    requires st1 == st.(strg := st.strg[p := st.strg[p].(ref := 0)])
    requires Inv(st1, extra, busy + {p}) && Inv(st2, extra, busy + {p})
    requires BusyAbove(st, busy, Rank(st.strg[p].elem) + 1)
    requires Dropped(st1, st2, st.strg[p].dat, st.strg[p].dat + Span(st.strg[p].elem, st.strg[p].len), Rank(st.strg[p].elem))
    requires st3 == st2.(strg := st2.strg[p := st2.strg[p].(live := false)])
    ensures Inv(st3, extra, busy)
    ensures Dropped(st, st3, 0, 0, Rank(st.strg[p].elem) + 1)
  {
    assert AtRest(st, p);
    DyingKeeps(st2, extra, busy, p, st3);
    ReleasedBlock(st, st1, st2, p, st3);
  }

  lemma DyingKeeps(st: State, extra: multiset<nat>, busy: set<nat>, p: nat, st': State)
    requires Inv(st, extra, busy + {p}) && p !in busy && p < |st.strg| && st.strg[p].ref <= 0
    requires st' == st.(strg := st.strg[p := st.strg[p].(live := false)])
    ensures Inv(st', extra, busy)
  {
    assert st.strg[p].live && st.strg[p].ref == Count(st.mem, p) + extra[p];
    forall q: nat | q < |st'.strg| && st'.strg[q].live && q !in busy ensures AtRest(st', q) {
      assert AtRest(st, q);
      HoldsKept(st, st', st.strg[q].dat, FlatN(st.strg[q].elem, st.strg[q].len));
    }
    assert forall q: nat, i: int :: q < |st.strg| ==> InBlock(st'.strg[q], i) == InBlock(st.strg[q], i);
  }

  lemma ReleasedBlock(st: State, st1: State, st2: State, p: nat, st3: State)
    requires p < |st.strg| && st.strg[p].live
    requires st1 == st.(strg := st.strg[p := st.strg[p].(ref := 0)])
    requires Dropped(st1, st2, st.strg[p].dat, st.strg[p].dat + Span(st.strg[p].elem, st.strg[p].len), Rank(st.strg[p].elem))
    requires st3 == st2.(strg := st2.strg[p := st2.strg[p].(live := false)])
    requires AtRest(st, p) && st.strg[p].len <= st.strg[p].cap
    ensures Dropped(st, st3, 0, 0, Rank(st.strg[p].elem) + 1)
  {
    var s, e := st.strg[p], st.strg[p].elem;
    SpanMonotone(e, s.len, s.cap);
    assert forall q: nat, i: int :: q < |st.strg| ==> InBlock(st1.strg[q], i) == InBlock(st.strg[q], i);
    forall i: nat | i < |st.mem| ensures Freed(st, st3, i) == (InBlock(s, i) || Freed(st1, st2, i)) {
      assert InBlock(st.strg[p], i) ==> Freed(st, st3, i);
    }
    assert forall i: nat :: i < |st.mem| && InBlock(s, i) ==> st3.mem[i] == Raw;
  }

  // ---- assignment field by field

  lemma NumberSwept(st: State, dst: nat, c: Cell, st': State)
    requires dst < |st.mem| && st' == st.(mem := st.mem[dst := c])
    ensures Swept(st, st', Range(dst, dst + 1), 0)
  {
  }

  /** Of `all` cells the first `n` have been assigned; the source still is what it was. */
  ghost predicate PartAssigned(m0: seq<Cell>, m1: seq<Cell>, dst: nat, src: nat, n: nat, all: nat) {
    && n <= all && dst + all <= |m0| && src + all <= |m0| == |m1|
    && Assigned(m0, m1, dst, src, n)
    && (forall i: nat :: dst + n <= i < dst + all ==> m1[i] == m0[i])
    && (forall i: nat :: src <= i < src + all ==> m1[i] == m0[i])
  }

  /** The swept heap still has the destination, and nothing needed was freed. */
  ghost predicate SweptBeside(st: State, cur: State, touched: set<nat>, r: nat, busy: set<nat>, dst: nat, all: nat) {
    && Swept(st, cur, touched, r)
    && (forall i: nat :: dst <= i < dst + all ==> !Freed(st, cur, i))
    && Loose(cur, dst, dst + all, busy) && BusyAbove(cur, busy, r)
  }

  lemma SweptBesideStep(st: State, cur: State, next: State, touched: set<nat>, more: set<nat>, r: nat, r': nat,
                        busy: set<nat>, dst: nat, all: nat, others: set<nat>)
    requires SweptBeside(st, cur, touched, r, busy, dst, all) && dst + all <= |cur.mem|
    requires Swept(cur, next, more, r') && r' <= r
    requires others == touched + more
    requires forall i: nat :: i in more ==> !Freed(st, cur, i)
    ensures SweptBeside(st, next, others, r, busy, dst, all)
    ensures forall i: nat :: dst <= i < dst + all && i !in more ==> next.mem[i] == cur.mem[i]
  {
    SweptWeaken(cur, next, more, r', more, r);
    LooseSurvives(cur, next, more, r, busy, dst, dst + all);
    SweptOn(st, cur, next, touched, more, r);
  }

  lemma PartAssignedStep(m0: seq<Cell>, m1: seq<Cell>, m2: seq<Cell>, dst: nat, src: nat, n: nat, k: nat, all: nat)
    requires PartAssigned(m0, m1, dst, src, n, all) && n + k <= all && |m2| == |m1|
    requires Assigned(m1, m2, dst + n, src + n, k)
    requires dst == src || Apart(dst, src, all)
    requires forall i: nat :: dst <= i < dst + all && !(dst + n <= i < dst + n + k) ==> m2[i] == m1[i]
    requires forall i: nat :: src <= i < src + all && !(dst + n <= i < dst + n + k) ==> m2[i] == m1[i]
    ensures PartAssigned(m0, m2, dst, src, n + k, all)
  {
    AssignedThen(m0, m1, m2, dst, src, n, k);
    SourceKept(m1, m2, dst, src, n, k, all);
  }

  /** The first `k` fields of a struct have been copy-assigned. */
  ghost predicate Assigning(st: State, cur: State, dst: nat, src: nat, t: Type, k: nat, busy: set<nat>)
    requires t.StructType? && k <= |t.fields|
  {
    var n, all := |FlatAll(t.fields[..k])|, |Flat(t)|;
    && PartAssigned(st.mem, cur.mem, dst, src, n, all)
    && SweptBeside(st, cur, Range(dst, dst + n), Rank(t), busy, dst, all)
    && Outlives(cur, src, src + all, busy, Rank(t))
  }

  lemma AssigningStart(st: State, dst: nat, src: nat, t: Type, busy: set<nat>)
    requires t.StructType? && BusyAbove(st, busy, Rank(t))
    requires Holds(st, dst, Flat(t)) && Loose(st, dst, dst + |Flat(t)|, busy)
    requires Holds(st, src, Flat(t)) && Outlives(st, src, src + |Flat(t)|, busy, Rank(t))
    ensures Assigning(st, st, dst, src, t, 0, busy)
  {
  }

  lemma FieldHolds(st: State, cur: State, a: nat, t: Type, k: nat)
    requires t.StructType? && k < |t.fields| && Holds(st, a, Flat(t))
    requires |cur.mem| == |st.mem| && |st.strg| == |cur.strg|
    requires forall p: nat :: p < |st.strg| ==> cur.strg[p].elem == st.strg[p].elem
    requires var n := |FlatAll(t.fields[..k])|; forall i: nat :: a + n <= i < a + |Flat(t)| ==> cur.mem[i] == st.mem[i]
    ensures var n := |FlatAll(t.fields[..k])|; var f := |Flat(t.fields[k])|;
            && |FlatAll(t.fields[..k + 1])| == n + f <= |Flat(t)|
            && Rank(t.fields[k]) <= Rank(t)
            && Holds(cur, a + n, Flat(t.fields[k]))
  {
    var fs, n := t.fields, |FlatAll(t.fields[..k])|;
    FieldAt(fs, k);
    FieldRank(fs, k);
    assert Holds(st, a + n, Flat(fs[k])) by {
      forall i: nat | i < |Flat(fs[k])| ensures CellOk(st, st.mem[a + n + i], Flat(fs[k])[i]) {
        assert FlatAll(fs)[n..|FlatAll(fs[..k + 1])|][i] == FlatAll(fs)[n + i];
        assert CellOk(st, st.mem[a + (n + i)], FlatAll(fs)[n + i]);
      }
    }
    HoldsKept(st, cur, a + n, Flat(fs[k]));
  }

  lemma AssigningField(st: State, cur: State, dst: nat, src: nat, t: Type, k: nat, busy: set<nat>)
    requires t.StructType? && k < |t.fields| && Assigning(st, cur, dst, src, t, k, busy)
    requires Holds(st, dst, Flat(t)) && Holds(st, src, Flat(t)) && (dst == src || Apart(dst, src, |Flat(t)|))
    ensures var n := |FlatAll(t.fields[..k])|; var f := t.fields[k];
            && Holds(cur, dst + n, Flat(f)) && Loose(cur, dst + n, dst + n + |Flat(f)|, busy)
            && Holds(cur, src + n, Flat(f)) && Outlives(cur, src + n, src + n + |Flat(f)|, busy, Rank(f))
            && (dst + n == src + n || Apart(dst + n, src + n, |Flat(f)|)) && BusyAbove(cur, busy, Rank(f))
  {
    FieldHolds(st, cur, dst, t, k);
    FieldHolds(st, cur, src, t, k);
  }

  lemma AssigningStep(st: State, cur: State, next: State, dst: nat, src: nat, t: Type, k: nat, busy: set<nat>)
    requires t.StructType? && k < |t.fields| && Assigning(st, cur, dst, src, t, k, busy)
    requires dst == src || Apart(dst, src, |Flat(t)|)
    requires var n := |FlatAll(t.fields[..k])|; var f := t.fields[k];
             && Swept(cur, next, Range(dst + n, dst + n + |Flat(f)|), Rank(f))
             && Assigned(cur.mem, next.mem, dst + n, src + n, |Flat(f)|)
    ensures Assigning(st, next, dst, src, t, k + 1, busy)
  {
    hide Range, Outlives, PartAssigned, Freed, FlatAll, Flat, Rank;
    var n, f, all := |FlatAll(t.fields[..k])|, t.fields[k], |Flat(t)|;
    var m := n + |Flat(f)|;
    FieldFits(t, k);
    PartAssignedSizes(st.mem, cur.mem, dst, src, n, all);
    var touched := Range(dst + n, dst + m);
    OutlivesSurvives(cur, next, touched, Rank(t), busy, src, src + all, Rank(f));
    SweptBesideStep(st, cur, next, Range(dst, dst + n), touched, Rank(t), Rank(f), busy, dst, all, Range(dst, dst + m));
    PartAssignedStep(st.mem, cur.mem, next.mem, dst, src, n, |Flat(f)|, all);
  }

  lemma PartAssignedSizes(m0: seq<Cell>, m1: seq<Cell>, dst: nat, src: nat, n: nat, all: nat)
    requires PartAssigned(m0, m1, dst, src, n, all)
    ensures n <= all && dst + all <= |m0| && src + all <= |m0| == |m1|
  {
  }

  lemma AssignedThen(m0: seq<Cell>, m1: seq<Cell>, m2: seq<Cell>, dst: nat, src: nat, n: nat, k: nat)
    requires Assigned(m0, m1, dst, src, n) && Assigned(m1, m2, dst + n, src + n, k) && src + n + k <= |m0|
    requires forall i: nat :: dst <= i < dst + n ==> m2[i] == m1[i]
    requires forall i: nat :: src + n <= i < src + n + k ==> m1[i] == m0[i]
    ensures Assigned(m0, m2, dst, src, n + k)
  {
    forall i: nat | dst <= i < dst + (n + k) ensures m2[i] == m0[src + (i - dst)] {
      if dst + n <= i {
        assert m2[i] == m1[(src + n) + (i - (dst + n))] == m1[src + (i - dst)];
      }
    }
  }

  /** Assigning a field, possibly to itself, leaves the source as it is. */
  lemma SourceKept(m1: seq<Cell>, m2: seq<Cell>, dst: nat, src: nat, n: nat, k: nat, all: nat)
    requires Assigned(m1, m2, dst + n, src + n, k) && n + k <= all && |m1| == |m2| && src + all <= |m1|
    requires dst == src || Apart(dst, src, all)
    requires forall i: nat :: src <= i < src + all && !(dst + n <= i < dst + n + k) ==> m2[i] == m1[i]
    ensures forall i: nat :: src <= i < src + all ==> m2[i] == m1[i]
  {
    forall i: nat | src <= i < src + all ensures m2[i] == m1[i] {
      if dst + n <= i < dst + n + k {
        assert m2[i] == m1[(src + n) + (i - (dst + n))];
      }
    }
  }

  lemma SweptOn(st0: State, st1: State, st2: State, touched1: set<nat>, touched2: set<nat>, r: nat)
    requires Swept(st0, st1, touched1, r) && Swept(st1, st2, touched2, r)
    requires forall i: nat :: i in touched2 ==> !Freed(st0, st1, i)
    ensures Swept(st0, st2, touched1 + touched2, r)
    ensures forall i: nat :: Freed(st0, st2, i) == (Freed(st0, st1, i) || Freed(st1, st2, i))
  {
    SweptThen(st0, st1, st2, touched1, touched2, r);
    forall i: nat ensures Freed(st0, st2, i) == (Freed(st0, st1, i) || Freed(st1, st2, i)) {
      FreedThen(st0, st1, st2, i);
    }
  }

  lemma AssigningDone(st: State, cur: State, dst: nat, src: nat, t: Type, busy: set<nat>)
    requires t.StructType? && Assigning(st, cur, dst, src, t, |t.fields|, busy)
    ensures Swept(st, cur, Range(dst, dst + |Flat(t)|), Rank(t)) && Assigned(st.mem, cur.mem, dst, src, |Flat(t)|)
  {
    assert t.fields[..|t.fields|] == t.fields;
  }

  ghost predicate PartMoved(m0: seq<Cell>, m1: seq<Cell>, dst: nat, src: nat, n: nat, all: nat) {
    && n <= all && dst + all <= |m0| && src + all <= |m0| == |m1|
    && Assigned(m0, m1, dst, src, n) && Husked(m0, m1, src, n)
    && (forall i: nat :: dst + n <= i < dst + all ==> m1[i] == m0[i])
    && (forall i: nat :: src + n <= i < src + all ==> m1[i] == m0[i])
  }

  lemma PartMovedStep(m0: seq<Cell>, m1: seq<Cell>, m2: seq<Cell>, dst: nat, src: nat, n: nat, k: nat, all: nat)
    requires PartMoved(m0, m1, dst, src, n, all) && n + k <= all && |m2| == |m1| && Apart(dst, src, all)
    requires Assigned(m1, m2, dst + n, src + n, k) && Husked(m1, m2, src + n, k)
    requires forall i: nat :: dst <= i < dst + all && !(dst + n <= i < dst + n + k) ==> m2[i] == m1[i]
    requires forall i: nat :: src <= i < src + all && !(src + n <= i < src + n + k) ==> m2[i] == m1[i]
    ensures PartMoved(m0, m2, dst, src, n + k, all)
  {
    AssignedThen(m0, m1, m2, dst, src, n, k);
  }

  lemma PartMovedSizes(m0: seq<Cell>, m1: seq<Cell>, dst: nat, src: nat, n: nat, all: nat)
    requires PartMoved(m0, m1, dst, src, n, all)
    ensures n <= all && dst + all <= |m0| && src + all <= |m0| == |m1|
  {
  }

  /** The first `k` fields of a struct have been move-assigned. */
  ghost predicate Moving(st: State, cur: State, dst: nat, src: nat, t: Type, k: nat, busy: set<nat>)
    requires t.StructType? && k <= |t.fields|
  {
    var n, all := |FlatAll(t.fields[..k])|, |Flat(t)|;
    && PartMoved(st.mem, cur.mem, dst, src, n, all)
    && SweptBeside(st, cur, Range(dst, dst + n) + Range(src, src + n), Rank(t), busy, dst, all)
    && SweptBeside(st, cur, Range(dst, dst + n) + Range(src, src + n), Rank(t), busy, src, all)
  }

  lemma MovingStart(st: State, dst: nat, src: nat, t: Type, busy: set<nat>)
    requires t.StructType? && BusyAbove(st, busy, Rank(t))
    requires Holds(st, dst, Flat(t)) && Loose(st, dst, dst + |Flat(t)|, busy)
    requires Holds(st, src, Flat(t)) && Loose(st, src, src + |Flat(t)|, busy)
    ensures Moving(st, st, dst, src, t, 0, busy)
  {
  }

  lemma MovingField(st: State, cur: State, dst: nat, src: nat, t: Type, k: nat, busy: set<nat>)
    requires t.StructType? && k < |t.fields| && Moving(st, cur, dst, src, t, k, busy)
    requires Holds(st, dst, Flat(t)) && Holds(st, src, Flat(t)) && Apart(dst, src, |Flat(t)|)
    ensures var n := |FlatAll(t.fields[..k])|; var f := t.fields[k];
            && Holds(cur, dst + n, Flat(f)) && Loose(cur, dst + n, dst + n + |Flat(f)|, busy)
            && Holds(cur, src + n, Flat(f)) && Loose(cur, src + n, src + n + |Flat(f)|, busy)
            && Apart(dst + n, src + n, |Flat(f)|) && BusyAbove(cur, busy, Rank(f))
  {
    FieldHolds(st, cur, dst, t, k);
    FieldHolds(st, cur, src, t, k);
  }

  lemma MovingStep(st: State, cur: State, next: State, dst: nat, src: nat, t: Type, k: nat, busy: set<nat>)
    requires t.StructType? && k < |t.fields| && Moving(st, cur, dst, src, t, k, busy)
    requires Apart(dst, src, |Flat(t)|)
    requires var n := |FlatAll(t.fields[..k])|; var f := t.fields[k];
             && Swept(cur, next, Range(dst + n, dst + n + |Flat(f)|) + Range(src + n, src + n + |Flat(f)|), Rank(f))
             && Assigned(cur.mem, next.mem, dst + n, src + n, |Flat(f)|)
             && Husked(cur.mem, next.mem, src + n, |Flat(f)|)
    ensures Moving(st, next, dst, src, t, k + 1, busy)
  {
    hide Range, PartMoved, Freed, Assigned, Husked, Loose, BusyAbove, Swept, FlatAll, Flat, Rank;
    var n, f, all := |FlatAll(t.fields[..k])|, t.fields[k], |Flat(t)|;
    var m := n + |Flat(f)|;
    FieldFits(t, k);
    PartMovedSizes(st.mem, cur.mem, dst, src, n, all);
    var before, touched := Range(dst, dst + n) + Range(src, src + n), Range(dst + n, dst + m) + Range(src + n, src + m);
    var after := Range(dst, dst + m) + Range(src, src + m);
    SweptSizes(cur, next, touched, Rank(f));
    MidRange(before, touched, after, dst, src, n, m);
    SweptBesideStep(st, cur, next, before, touched, Rank(t), Rank(f), busy, dst, all, after);
    SweptBesideStep(st, cur, next, before, touched, Rank(t), Rank(f), busy, src, all, after);
    PartMovedStep(st.mem, cur.mem, next.mem, dst, src, n, |Flat(f)|, all);
  }

  lemma MidRange(before: set<nat>, touched: set<nat>, after: set<nat>, dst: nat, src: nat, n: nat, m: nat)
    requires n <= m && before == Range(dst, dst + n) + Range(src, src + n)
    requires touched == Range(dst + n, dst + m) + Range(src + n, src + m)
    requires after == Range(dst, dst + m) + Range(src, src + m)
    ensures after == before + touched
  {
  }

  lemma MovingDone(st: State, cur: State, dst: nat, src: nat, t: Type, busy: set<nat>)
    requires t.StructType? && Moving(st, cur, dst, src, t, |t.fields|, busy)
    ensures Swept(st, cur, Range(dst, dst + |Flat(t)|) + Range(src, src + |Flat(t)|), Rank(t))
    ensures Assigned(st.mem, cur.mem, dst, src, |Flat(t)|) && Husked(st.mem, cur.mem, src, |Flat(t)|)
  {
    assert t.fields[..|t.fields|] == t.fields;
  }

  // ---- what assignment and construction leave

  lemma EmptyIsNowhere(st: State, st1: State, e: Type, dst: nat, busy: set<nat>)
    requires Loose(st, dst, dst + 1, busy) && st1 == st.(strg := st.strg + [EmptyStorage(e)])
    ensures Loose(st1, dst, dst + 1, busy)
  {
    forall p: nat, i: int | p < |st1.strg| && st1.strg[p].live && p !in busy && dst <= i < dst + 1
      ensures !InBlock(st1.strg[p], i) {
      if p < |st.strg| {
        assert !InBlock(st.strg[p], i);
      }
    }
  }

  lemma AssignedSource(st: State, st1: State, dst: nat, src: nat, n: nat, busy: set<nat>, r: nat)
    requires Swept(st, st1, Range(dst, dst + n), r) && BusyAbove(st, busy, r)
    requires src + n <= |st.mem| && Outlives(st, src, src + n, busy, r)
    requires Assigned(st.mem, st1.mem, dst, src, n) && (dst == src || Apart(dst, src, n))
    ensures |st1.mem| == |st.mem| && st1.mem[src..src + n] == st.mem[src..src + n]
  {
    OutlivesSurvives(st, st1, Range(dst, dst + n), r, busy, src, src + n, r);
    forall i: nat | src <= i < src + n ensures st1.mem[i] == st.mem[i] {
      if dst == src {
        assert st1.mem[i] == st.mem[src + (i - dst)];
      }
    }
  }

  lemma HuskReady(st: State, st1: State, dst: nat, src: nat, t: Type, busy: set<nat>)
    requires Swept(st, st1, Range(dst, dst + |Flat(t)|) + Range(src, src + |Flat(t)|), Rank(t))
    requires BusyAbove(st, busy, Rank(t)) && Holds(st, src, Flat(t)) && Loose(st, src, src + |Flat(t)|, busy)
    requires Husked(st.mem, st1.mem, src, |Flat(t)|)
    ensures Holds(st1, src, Flat(t)) && Loose(st1, src, src + |Flat(t)|, busy) && BusyAbove(st1, busy, Rank(t))
    ensures NoHandles(st1, src, src + |Flat(t)|)
  {
    LooseSurvives(st, st1, Range(dst, dst + |Flat(t)|) + Range(src, src + |Flat(t)|), Rank(t), busy, src, src + |Flat(t)|);
    HuskHolds(st, st1, src, Flat(t));
  }

  lemma HuskHolds(st: State, st1: State, src: nat, l: seq<Leaf>)
    requires Holds(st, src, l) && |st1.mem| == |st.mem| && Husked(st.mem, st1.mem, src, |l|)
    ensures Holds(st1, src, l) && NoHandles(st1, src, src + |l|)
  {
    forall i: nat | i < |l| ensures CellOk(st1, st1.mem[src + i], l[i]) {
      assert CellOk(st, st.mem[src + i], l[i]);
    }
  }

  lemma HuskErased(st: State, st1: State, st2: State, dst: nat, src: nat, n: nat, r: nat, busy: set<nat>)
    requires Swept(st, st1, Range(dst, dst + n) + Range(src, src + n), r) && Apart(dst, src, n)
    requires Assigned(st.mem, st1.mem, dst, src, n)
    requires |st2.mem| == |st1.mem| && st2.strg == st1.strg && src + n <= |st1.mem|
    requires forall i: nat :: i < |st1.mem| ==> st2.mem[i] == if src <= i < src + n then Raw else st1.mem[i]
    ensures Swept(st, st2, Range(dst, dst + n) + Range(src, src + n), r)
    ensures Assigned(st.mem, st2.mem, dst, src, n) && IsRaw(st2.mem, src, src + n)
  {
    assert forall i: int :: Freed(st, st2, i) == Freed(st, st1, i);
  }

  lemma CopyIsThere(st: State, st1: State, dst: nat, src: nat, t: Type, busy: set<nat>)
    requires Holds(st, src, Flat(t)) && RefsOnly(st.strg, st1.strg)
    requires Copied(st.mem, st1.mem, dst, src, |Flat(t)|) && BusyAbove(st, busy, Rank(t))
    ensures Holds(st1, dst, Flat(t)) && BusyAbove(st1, busy, Rank(t))
  {
    CopiedHolds(st, st1, dst, src, Flat(t));
  }

  lemma HuskIsThere(st: State, st1: State, dst: nat, src: nat, t: Type, busy: set<nat>)
    requires Holds(st, src, Flat(t)) && st1.strg == st.strg && Apart(dst, src, |Flat(t)|)
    requires Moved(st.mem, st1.mem, dst, src, |Flat(t)|) && BusyAbove(st, busy, Rank(t))
    ensures Holds(st1, src, Flat(t)) && BusyAbove(st1, busy, Rank(t))
  {
    HuskHolds(st, st1, src, Flat(t));
  }
}

/**
 dup_mmap(): copying the parent's list of memory areas into a new address space,
 with the memory that is charged for them, on every way out.
 */
module DupMmap {
  import opened Counting

  const PAGE_SIZE := 4096
  const EINTR := 4
  const ENOMEM := 12

  datatype Flag = DontCopy | Account | Locked | LockOnFault | WipeOnFork

  datatype Area = Area(start: nat, end: nat, flags: set<Flag>)

  function Pages(a: Area): int { (a.end - a.start) / PAGE_SIZE }

  function Charge(a: Area): int { if Account in a.flags then Pages(a) else 0 }

  function Skipped(a: Area): int { if DontCopy in a.flags then Pages(a) else 0 }

  /** The copy of one area: its lock flags are cleared, its size and charge are the same. */
  function Unlocked(a: Area): (r: Area)
    ensures Pages(r) == Pages(a) && Charge(r) == Charge(a) && (WipeOnFork in r.flags <==> WipeOnFork in a.flags)
    ensures Locked !in r.flags && LockOnFault !in r.flags
  {
    a.(flags := a.flags - {Locked, LockOnFault})
  }

  /** The child's areas: the parent's in order, without those not to be copied, and unlocked. */
  function Copies(s: seq<Area>): seq<Area>
  {
    if s == [] then []
    else
      var last := s[|s| - 1];
      Copies(s[..|s| - 1]) + if DontCopy in last.flags then [] else [Unlocked(last)]
  }

  lemma CopiesNext(s: seq<Area>, i: nat)
    requires i < |s|
    ensures Copies(s[..i + 1]) ==
      Copies(s[..i]) + if DontCopy in s[i].flags then [] else [Unlocked(s[i])]
  {
    assert s[..i + 1][..i] == s[..i];
  }

  /** What the child does not copy is what it has fewer pages than the parent. */
  lemma {:induction false} CopiedPages(s: seq<Area>)
    ensures Sum(Copies(s), Pages) == Sum(s, Pages) - Sum(s, Skipped)
  {
    if s == [] {
    } else {
      var rest, last := s[..|s| - 1], s[|s| - 1];
      CopiedPages(rest);
      if DontCopy !in last.flags {
        SumAppend(Copies(rest), Pages, Unlocked(last));
      } else {
        assert Copies(s) == Copies(rest);
      }
    }
  }

  class Vma {
    const area: Area
    var next: Vma?
    var prev: Vma?

    constructor (area: Area)
      ensures this.area == area && next == null && prev == null
    {
      this.area := area;
      next, prev := null, null;
    }
  }

  class Mm {
    var mmap: Vma?
    var mapCount: int
    var totalVm: int
  }

  class Memory {
    var committed: int   // vm_committed_as
  }

  /** The list reached from head is linked both ways, is made of nodes of `pool` and holds these areas. */
  ghost predicate ListOf(head: Vma?, list: seq<Vma>, areas: seq<Area>, pool: set<Vma>)
    reads list
  {
    && head == (if list == [] then null else list[0])
    && |list| == |areas| && (forall i :: 0 <= i < |list| ==> LinkedAt(list, i, areas[i], pool))
  }

  ghost function Last(list: seq<Vma>): Vma? { if list == [] then null else list[|list| - 1] }

  ghost function Nodes(list: seq<Vma>): set<Vma> { set v | v in list }

  ghost predicate LinkedAt(list: seq<Vma>, i: nat, area: Area, pool: set<Vma>)
    requires i < |list|
    reads list
  {
    && list[i] in pool && list[i].area == area
    && list[i].next == (if i + 1 < |list| then list[i + 1] else null)
    && list[i].prev == (if i > 0 then list[i - 1] else null)
    && list[i] !in list[..i]
  }

  /** What a failing callee returns. */
  type Error = e: int | e != 0 witness -ENOMEM

  datatype StartFault = NoStartFault | LockKilled | KsmFails(err: Error) | KhugepagedFails(err: Error)

  /** What goes wrong outside this model when an area is reached. */
  datatype Fault =
    | NoFault | Signalled | OverCommit | DupFails | PolicyFails | UserfaultFails | AnonVmaFails | CopyFails(err: Error)

  /** Whether the fault strikes this area. */
  predicate Strikes(f: Fault, a: Area)
  {
    DontCopy !in a.flags &&
    match f
    case NoFault => false
    case OverCommit => Account in a.flags
    case AnonVmaFails => WipeOnFork !in a.flags
    case CopyFails(_) => WipeOnFork !in a.flags
    case _ => true
  }

  /** The return value when the fault strikes; every label ends in -ENOMEM. */
  function ErrorOf(f: Fault): int
  {
    match f
    case Signalled => -EINTR
    case CopyFails(err) => err
    case _ => -ENOMEM
  }

  /** Link a new area in behind prev. */
  method Link(mm: Mm, prev: Vma?, tmp: Vma, ghost list: seq<Vma>, ghost areas: seq<Area>, ghost pool: set<Vma>)
    requires ListOf(mm.mmap, list, areas, pool) && prev == Last(list)
    requires tmp !in list && tmp.next == null
    modifies mm`mmap, if prev == null then {} else {prev}, tmp`prev
    ensures ListOf(mm.mmap, list + [tmp], areas + [tmp.area], pool + {tmp})
  {
    if prev != null { assert LinkedAt(list, |list| - 1, areas[|list| - 1], pool); }
    if prev == null { mm.mmap := tmp; } else { prev.next := tmp; }
    tmp.prev := prev;
    ghost var longer := list + [tmp];
    forall i | 0 <= i < |longer|
      ensures LinkedAt(longer, i, (areas + [tmp.area])[i], pool + {tmp})
    {
      assert longer[..i] == list[..i];
      assert i < |list| ==> old(LinkedAt(list, i, areas[i], pool));
    }
  }

  /** One area, up to and including its page tables: the new area if it was linked, and the return value. */
  method DupArea(mm: Mm, mem: Memory, mpnt: Vma, prev: Vma?, fault: Fault,
                 ghost list: seq<Vma>, ghost areas: seq<Area>, ghost pool: set<Vma>)
    returns (ret: int, linked: Vma?)
    requires ListOf(mm.mmap, list, areas, pool) && prev == Last(list)
    requires DontCopy !in mpnt.area.flags
    modifies mm`mmap, mm`mapCount, mem, if prev == null then {} else {prev}
    ensures ret == if Strikes(fault, mpnt.area) then ErrorOf(fault) else 0
    ensures linked != null <==> !Strikes(fault, mpnt.area) || fault.CopyFails?
    ensures linked == null ==>
      && ListOf(mm.mmap, list, areas, pool) && mm.mapCount == old(mm.mapCount) && mem.committed == old(mem.committed)
    ensures linked != null ==>
      && fresh(linked) && ListOf(mm.mmap, list + [linked], areas + [Unlocked(mpnt.area)], pool + {linked})
      && mm.mapCount == old(mm.mapCount) + 1 && mem.committed == old(mem.committed) + Charge(mpnt.area)
  {
    linked, ret := null, 0;
    if fault.Signalled? { return -EINTR, null; }
    var charge := 0;
    label failNomem: {
      if Account in mpnt.area.flags {
        if fault.OverCommit? { break failNomem; }
        charge := Pages(mpnt.area);
        mem.committed := mem.committed + charge;
      }
      if fault.DupFails? || fault.PolicyFails? || fault.UserfaultFails? { break failNomem; }
      if WipeOnFork !in mpnt.area.flags && fault.AnonVmaFails? { break failNomem; }
      linked := new Vma(Unlocked(mpnt.area));
      Link(mm, prev, linked, list, areas, pool);
      mm.mapCount := mm.mapCount + 1;
      if WipeOnFork !in linked.area.flags && fault.CopyFails? { ret := fault.err; }
      return;
    }
    mem.committed := mem.committed - charge;
    ret := -ENOMEM;
  }

  /** How many of the parent's areas are dealt with before the copy stops. */
  ghost predicate StopsAt(areas: seq<Area>, fault: nat -> Fault, stop: nat)
  {
    && stop <= |areas|
    && (forall i :: 0 <= i < stop ==> !Strikes(fault(i), areas[i]))
    && (stop < |areas| ==> Strikes(fault(stop), areas[stop]))
  }

  /** An area whose page tables could not be copied is linked all the same. */
  ghost function Done(areas: seq<Area>, fault: nat -> Fault, stop: nat): nat
  {
    if stop < |areas| && fault(stop).CopyFails? then stop + 1 else stop
  }

  /** The books after some of the parent's areas: what was copied, what is still counted, what was charged. */
  datatype Ledger = Ledger(areas: seq<Area>, total: int, charged: int)

  function Books(s: seq<Area>, i: nat, oldTotal: int): Ledger
    requires i <= |s|
    decreases i
  {
    if i == 0 then Ledger([], oldTotal, 0)
    else
      var b, a := Books(s, i - 1, oldTotal), s[i - 1];
      if DontCopy in a.flags then b.(total := b.total - Pages(a))
      else b.(areas := b.areas + [Unlocked(a)], charged := b.charged + Charge(a))
  }

  lemma {:induction false} BooksCopies(s: seq<Area>, i: nat, oldTotal: int)
    requires i <= |s|
    ensures Books(s, i, oldTotal).areas == Copies(s[..i])
    decreases i
  {
    if i == 0 {
    } else {
      BooksCopies(s, i - 1, oldTotal);
      CopiesNext(s, i - 1);
    }
  }

  lemma {:induction false} BooksCharged(s: seq<Area>, i: nat, oldTotal: int)
    requires i <= |s|
    ensures Books(s, i, oldTotal).charged == Sum(Books(s, i, oldTotal).areas, Charge)
    decreases i
  {
    if i == 0 {
    } else {
      BooksCharged(s, i - 1, oldTotal);
      SumAppend(Books(s, i - 1, oldTotal).areas, Charge, Unlocked(s[i - 1]));
    }
  }

  lemma {:induction false} BooksTotal(s: seq<Area>, i: nat, oldTotal: int)
    requires i <= |s|
    ensures Books(s, i, oldTotal).total == oldTotal - Sum(s[..i], Skipped)
    decreases i
  {
    if i == 0 {
    } else {
      BooksTotal(s, i - 1, oldTotal);
      SumAppend(s[..i - 1], Skipped, s[i - 1]);
      assert s[..i] == s[..i - 1] + [s[i - 1]];
    }
  }

  /** The books hold the child's list, its charge and, if the parent's total was right, its pages. */
  lemma BooksMean(s: seq<Area>, i: nat, oldTotal: int)
    requires i <= |s|
    ensures
      var b := Books(s, i, oldTotal);
      && b.areas == Copies(s[..i]) && b.charged == Sum(b.areas, Charge)
      && (i == |s| && oldTotal == Sum(s, Pages) ==> b.total == Sum(b.areas, Pages))
  {
    BooksCopies(s, i, oldTotal);
    BooksCharged(s, i, oldTotal);
    BooksTotal(s, i, oldTotal);
    if i == |s| {
      assert s[..i] == s;
      CopiedPages(s);
    }
  }

  /** One turn of the loop. */
  method Visit(mm: Mm, mem: Memory, i: nat, mpnt: Vma, prev: Vma?, fault: Fault, ghost s: seq<Area>,
               ghost oldTotal: int,
               ghost list: seq<Vma>, ghost areas: seq<Area>, ghost pool: set<Vma>, ghost committed: int)
    returns (ret: int, last: Vma?, ghost list': seq<Vma>, ghost areas': seq<Area>, ghost pool': set<Vma>)
    requires ListOf(mm.mmap, list, areas, pool) && prev == Last(list)
    requires i < |s| && mpnt.area == s[i] && mm.mapCount == |areas|
    requires Ledger(areas, mm.totalVm, mem.committed - committed) == Books(s, i, oldTotal)
    modifies mm, mem, if prev == null then {} else {prev}
    ensures ListOf(mm.mmap, list', areas', pool') && last == Last(list')
    ensures pool <= pool' && fresh(pool' - pool) && (last == prev || fresh(last))
    ensures mm.mapCount == |areas'|
    ensures ret == if Strikes(fault, s[i]) then ErrorOf(fault) else 0
    ensures
      var done := if Strikes(fault, s[i]) && !fault.CopyFails? then i else i + 1;
      Ledger(areas', mm.totalVm, mem.committed - committed) == Books(s, done, oldTotal)
  {
    ret, last, list', areas', pool' := 0, prev, list, areas, pool;
    if DontCopy in mpnt.area.flags {
      mm.totalVm := mm.totalVm - Pages(mpnt.area);
    } else {
      var linked: Vma?;
      ret, linked := DupArea(mm, mem, mpnt, prev, fault, list, areas, pool);
      if linked != null {
        list', areas', pool', last := list + [linked], areas + [Unlocked(s[i])], pool + {linked}, linked;
      }
    }
  }

  /** The loop over the parent's areas, whose list `parents` holds s. */
  method CopyAreas(mm: Mm, oldmm: Mm, mem: Memory, fault: nat -> Fault, ghost parents: seq<Vma>, ghost s: seq<Area>)
    returns (ret: int, stop: nat, ghost list: seq<Vma>, ghost areas: seq<Area>, ghost pool: set<Vma>)
    requires mm != oldmm && mm.mmap == null && mm.mapCount == 0 && mm.totalVm == oldmm.totalVm
    requires ListOf(oldmm.mmap, parents, s, Nodes(parents))
    modifies mm, mem
    ensures ListOf(mm.mmap, list, areas, pool) && fresh(pool) && mm.mapCount == |areas|
    ensures StopsAt(s, fault, stop) && (ret == 0 <==> stop == |s|)
    ensures Ledger(areas, mm.totalVm, mem.committed - old(mem.committed))
      == Books(s, Done(s, fault, stop), oldmm.totalVm)
  {
    list, areas, pool, stop, ret := [], [], {}, 0, 0;
    var mpnt, prev: Vma? := oldmm.mmap, null;
    while mpnt != null
      invariant stop <= |s| && mpnt == (if stop < |s| then parents[stop] else null)
      invariant ListOf(mm.mmap, list, areas, pool) && prev == Last(list)
      invariant fresh(pool) && (prev != null ==> fresh(prev))
      invariant ret == 0 && forall i :: 0 <= i < stop ==> !Strikes(fault(i), s[i])
      invariant mm.mapCount == |areas|
      invariant Ledger(areas, mm.totalVm, mem.committed - old(mem.committed)) == Books(s, stop, oldmm.totalVm)
      decreases |s| - stop
    {
      assert old(LinkedAt(parents, stop, s[stop], Nodes(parents)));
      var next := mpnt.next;
      ret, prev, list, areas, pool :=
        Visit(mm, mem, stop, mpnt, prev, fault(stop), s, oldmm.totalVm, list, areas, pool, old(mem.committed));
      if ret != 0 { return; }
      mpnt, stop := next, stop + 1;
    }
  }

  /** All of dup_mmap(). */
  method DupMmap(mm: Mm, oldmm: Mm, mem: Memory, start: StartFault, fault: nat -> Fault, arch: int,
                 ghost parents: seq<Vma>, ghost s: seq<Area>)
    returns (ret: int, stop: nat, ghost list: seq<Vma>, ghost areas: seq<Area>, ghost pool: set<Vma>)
    requires mm != oldmm && mm.mmap == null && mm.mapCount == 0 && ListOf(oldmm.mmap, parents, s, Nodes(parents))
    modifies mm, mem
    ensures ListOf(mm.mmap, list, areas, pool) && fresh(pool) && mm.mapCount == |areas|
    ensures mem.committed - old(mem.committed) == Sum(areas, Charge)
    ensures start.NoStartFault? ==>
      StopsAt(s, fault, stop) && areas == Copies(s[..Done(s, fault, stop)])
    ensures ret == 0 <==> start.NoStartFault? && stop == |s| && arch == 0
    ensures start.NoStartFault? && stop == |s| ==>
      areas == Copies(s) && (oldmm.totalVm == Sum(s, Pages) ==> mm.totalVm == Sum(areas, Pages))
  {
    if start.LockKilled? { return -EINTR, 0, [], [], {}; }
    mm.totalVm := oldmm.totalVm;
    if start.KsmFails? || start.KhugepagedFails? { return start.err, 0, [], [], {}; }
    ret, stop, list, areas, pool := CopyAreas(mm, oldmm, mem, fault, parents, s);
    BooksMean(s, Done(s, fault, stop), oldmm.totalVm);
    if ret == 0 {
      assert s[..|s|] == s;
      ret := arch;
    }
  }
}

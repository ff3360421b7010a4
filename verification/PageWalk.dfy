/**
 ADDRESS_TRANSFORM(): the five-level page walk from a virtual to a physical
 address, and the batch loop of my_get_physical_addresses().

 Addresses are naturals. The layout of a linear address is that of the Intel SDM,
 Volume 3A, section 4.5: five 9-bit indices and a 12-bit offset. The shifts and
 masks of the source are divisions and remainders; its final OR is modelled bit
 by bit.
 */
module PageWalk {
  import opened Common

  const PAGE_SIZE := 0x1000
  const ENTRIES := 512
  const SPAN := 0x200_0000_0000_0000    // 57 bits

  // ---- the OR of frame and offset ----

  function Pow2(k: nat): (r: nat)
    ensures r > 0
  {
    if k == 0 then 1 else 2 * Pow2(k - 1)
  }

  function Or(a: nat, b: nat): nat
  {
    if a == 0 && b == 0 then 0 else (if a % 2 == 1 || b % 2 == 1 then 1 else 0) + 2 * Or(a / 2, b / 2)
  }

  lemma {:induction false} OrZero(a: nat)
    ensures Or(a, 0) == a
  {
    if a == 0 {
    } else {
      OrZero(a / 2);
    }
  }

  /** The OR of a multiple of 2^k and a number below it is their sum: nothing is lost. */
  lemma {:induction false} OrAdds(a: nat, b: nat, k: nat, q: nat)
    requires a == Pow2(k) * q && b < Pow2(k)
    ensures Or(a, b) == a + b
    decreases k
  {
    if k == 0 {
      OrZero(a);
    } else if a > 0 || b > 0 {
      assert a == 2 * (Pow2(k - 1) * q);
      OrAdds(a / 2, b / 2, k - 1, q);
    }
  }

  // ---- the split of an address ----

  datatype Parts = Parts(pgd: nat, p4d: nat, pud: nat, pmd: nat, pte: nat, offset: nat)

  function Split(va: nat): Parts
  {
    Parts(va / 0x1_0000_0000_0000 % ENTRIES, va / 0x80_0000_0000 % ENTRIES, va / 0x4000_0000 % ENTRIES,
          va / 0x20_0000 % ENTRIES, va / PAGE_SIZE % ENTRIES, va % PAGE_SIZE)
  }

  predicate PartsOk(p: Parts)
  {
    p.pgd < ENTRIES && p.p4d < ENTRIES && p.pud < ENTRIES && p.pmd < ENTRIES && p.pte < ENTRIES && p.offset < PAGE_SIZE
  }

  function Join(p: Parts): nat
  {
    ((((p.pgd * ENTRIES + p.p4d) * ENTRIES + p.pud) * ENTRIES + p.pmd) * ENTRIES + p.pte) * PAGE_SIZE + p.offset
  }

  /** Shifting further is dividing by 512 again. */
  lemma Shifts(va: nat)
    ensures va / 0x20_0000 == va / PAGE_SIZE / ENTRIES
    ensures va / 0x4000_0000 == va / 0x20_0000 / ENTRIES
    ensures va / 0x80_0000_0000 == va / 0x4000_0000 / ENTRIES
    ensures va / 0x1_0000_0000_0000 == va / 0x80_0000_0000 / ENTRIES
    ensures va / SPAN == va / 0x1_0000_0000_0000 / ENTRIES
  {
  }

  /** No bit of the low 57 is lost or moved. */
  lemma JoinSplit(va: nat)
    ensures PartsOk(Split(va)) && Join(Split(va)) == va % SPAN
  {
    Shifts(va);
  }

  lemma SplitJoin(p: Parts)
    requires PartsOk(p)
    ensures Join(p) < SPAN && Split(Join(p)) == p
  {
    var d := p.pgd * ENTRIES + p.p4d;
    var c := d * ENTRIES + p.pud;
    var b := c * ENTRIES + p.pmd;
    var a := b * ENTRIES + p.pte;
    Shifts(Join(p));
    assert Join(p) / PAGE_SIZE == a;
    assert a / ENTRIES == b && a % ENTRIES == p.pte;
    assert b / ENTRIES == c && b % ENTRIES == p.pmd;
    assert c / ENTRIES == d && c % ENTRIES == p.pud;
    assert d / ENTRIES == p.pgd && d % ENTRIES == p.p4d;
  }

  // ---- the tables ----

  /** An entry: none, the next table, or a page frame. */
  datatype Entry = Absent | Dir(table: seq<Entry>) | Page(frame: nat)

  /** Tables of 512 entries, five levels deep, with 4 KiB frames at the bottom. */
  predicate TableOk(t: seq<Entry>, level: nat)
    decreases level, 1
  {
    |t| == ENTRIES && forall i :: 0 <= i < ENTRIES ==> EntryOk(t[i], level)
  }

  predicate EntryOk(e: Entry, level: nat)
    decreases level, 0
  {
    match e
    case Absent => true
    case Dir(table) => level > 0 && TableOk(table, level - 1)
    case Page(frame) => level == 0 && frame % PAGE_SIZE == 0
  }

  /** ADDRESS_TRANSFORM(), level by level; 0 when any level has no entry. */
  function Translate(root: seq<Entry>, va: nat): nat
    requires TableOk(root, 4)
  {
    var p := Split(va);
    var pgd := root[p.pgd];
    assert EntryOk(pgd, 4);
    if pgd.Absent? then 0 else
    var p4d := pgd.table[p.p4d];
    assert EntryOk(p4d, 3);
    if p4d.Absent? then 0 else
    var pud := p4d.table[p.pud];
    assert EntryOk(pud, 2);
    if pud.Absent? then 0 else
    var pmd := pud.table[p.pmd];
    assert EntryOk(pmd, 1);
    if pmd.Absent? then 0 else
    var pte := pmd.table[p.pte];
    assert EntryOk(pte, 0);
    if pte.Absent? then 0 else
    Or(pte.frame, p.offset)
  }

  /** What the tables map page number vpn to, looked up digit by digit from the top: the reference. */
  function FrameOf(t: seq<Entry>, level: nat, vpn: nat): Option<nat>
    requires TableOk(t, level)
    decreases level
  {
    var e := t[vpn / Radix(level) % ENTRIES];
    assert EntryOk(e, level);
    match e
    case Absent => None
    case Dir(table) => FrameOf(table, level - 1, vpn)
    case Page(frame) => Some(frame)
  }

  function Radix(level: nat): (r: nat)
    ensures r > 0
  {
    if level == 0 then 1 else ENTRIES * Radix(level - 1)
  }

  lemma Radixes(va: nat)
    ensures va / PAGE_SIZE / Radix(4) % ENTRIES == Split(va).pgd
    ensures va / PAGE_SIZE / Radix(3) % ENTRIES == Split(va).p4d
    ensures va / PAGE_SIZE / Radix(2) % ENTRIES == Split(va).pud
    ensures va / PAGE_SIZE / Radix(1) % ENTRIES == Split(va).pmd
    ensures va / PAGE_SIZE / Radix(0) % ENTRIES == Split(va).pte
  {
    assert Radix(0) == 1 && Radix(1) == ENTRIES && Radix(2) == 0x4_0000;
    assert Radix(3) == 0x800_0000 && Radix(4) == 0x10_0000_0000;
  }

  lemma {:induction false} FramesAligned(t: seq<Entry>, level: nat, vpn: nat)
    requires TableOk(t, level)
    ensures FrameOf(t, level, vpn).Some? ==> FrameOf(t, level, vpn).value % PAGE_SIZE == 0
    decreases level
  {
    var e := t[vpn / Radix(level) % ENTRIES];
    assert EntryOk(e, level);
    if e.Dir? { FramesAligned(e.table, level - 1, vpn); }
  }

  /** The walk is the lookup: frame plus offset where the page is mapped, 0 where it is not. */
  lemma WalkLooksUp(root: seq<Entry>, va: nat)
    requires TableOk(root, 4)
    ensures Translate(root, va) ==
      match FrameOf(root, 4, va / PAGE_SIZE)
      case None => 0
      case Some(frame) => frame + va % PAGE_SIZE
  {
    Radixes(va);
    FramesAligned(root, 4, va / PAGE_SIZE);
    var vpn := va / PAGE_SIZE;
    var f := FrameOf(root, 4, vpn);
    if f.Some? {
      assert Pow2(12) == PAGE_SIZE;
      OrAdds(f.value, va % PAGE_SIZE, 12, f.value / PAGE_SIZE);
    }
  }

  /** 0 is also a physical address, so it means "not mapped" exactly if nothing maps the first byte of frame 0 there. */
  lemma ZeroMeans(root: seq<Entry>, va: nat)
    requires TableOk(root, 4)
    ensures Translate(root, va) == 0 <==>
      FrameOf(root, 4, va / PAGE_SIZE).None? || (FrameOf(root, 4, va / PAGE_SIZE).value == 0 && va % PAGE_SIZE == 0)
  {
    WalkLooksUp(root, va);
  }

  /** Tables that map exactly the first page, to frame 0. */
  function Chain(level: nat): (t: seq<Entry>)
    ensures |t| == ENTRIES
  {
    var first := if level == 0 then Page(0) else Dir(Chain(level - 1));
    seq(ENTRIES, i => if i == 0 then first else Absent)
  }

  lemma {:induction false} ChainMaps(level: nat)
    ensures TableOk(Chain(level), level) && FrameOf(Chain(level), level, 0) == Some(0)
  {
    if level == 0 {
    } else {
      ChainMaps(level - 1);
    }
    assert EntryOk(Chain(level)[0], level);
  }

  /** Both meanings occur: address 0 is mapped here and translates to 0, the next page is not mapped and does too. */
  lemma ZeroAmbiguous()
    ensures TableOk(Chain(4), 4)
    ensures FrameOf(Chain(4), 4, 0) == Some(0) && Translate(Chain(4), 0) == 0
    ensures FrameOf(Chain(4), 4, 1) == None && Translate(Chain(4), PAGE_SIZE) == 0
  {
    ChainMaps(4);
    WalkLooksUp(Chain(4), 0);
    ChainSkips(4);
    WalkLooksUp(Chain(4), PAGE_SIZE);
  }

  lemma {:induction false} ChainSkips(level: nat)
    requires level <= 4
    ensures TableOk(Chain(level), level) && FrameOf(Chain(level), level, 1) == None
  {
    ChainMaps(level);
    assert Radix(0) == 1;
    if level == 0 {
    } else {
      ChainSkips(level - 1);
      assert Radix(level) >= ENTRIES;
    }
  }

  predicate Mapped(root: seq<Entry>, va: nat)
    requires TableOk(root, 4)
  {
    va < SPAN && FrameOf(root, 4, va / PAGE_SIZE).Some?
  }

  ghost predicate FramesDistinct(root: seq<Entry>)
    requires TableOk(root, 4)
  {
    forall v: nat, w: nat :: v < w < SPAN / PAGE_SIZE && FrameOf(root, 4, v).Some? ==>
      FrameOf(root, 4, v) != FrameOf(root, 4, w)
  }

  /** Distinct mapped addresses with distinct frames never meet in physical memory. */
  lemma NeverCollide(root: seq<Entry>, va: nat, wa: nat)
    requires TableOk(root, 4) && FramesDistinct(root) && Mapped(root, va) && Mapped(root, wa)
    ensures Translate(root, va) == Translate(root, wa) <==> va == wa
  {
    WalkLooksUp(root, va);
    WalkLooksUp(root, wa);
    FramesAligned(root, 4, va / PAGE_SIZE);
    FramesAligned(root, 4, wa / PAGE_SIZE);
    var f, g := FrameOf(root, 4, va / PAGE_SIZE).value, FrameOf(root, 4, wa / PAGE_SIZE).value;
    assert (f + va % PAGE_SIZE) / PAGE_SIZE == f / PAGE_SIZE && (g + wa % PAGE_SIZE) / PAGE_SIZE == g / PAGE_SIZE;
  }

  /** The batch loop of the system call: every address translated on its own. */
  method TranslateAll(root: seq<Entry>, virtual: array<nat>) returns (physical: array<nat>)
    requires TableOk(root, 4)
    ensures physical.Length == virtual.Length
    ensures forall i :: 0 <= i < virtual.Length ==>
      physical[i] == match FrameOf(root, 4, virtual[i] / PAGE_SIZE)
                     case None => 0
                     case Some(frame) => frame + virtual[i] % PAGE_SIZE
  {
    physical := new nat[virtual.Length];
    var i := 0;
    while i < virtual.Length
      invariant 0 <= i <= virtual.Length
      invariant forall j :: 0 <= j < i ==> physical[j] == Translate(root, virtual[j])
    {
      physical[i] := Translate(root, virtual[i]);
      i := i + 1;
    }
    forall j | 0 <= j < virtual.Length
      ensures physical[j] == match FrameOf(root, 4, virtual[j] / PAGE_SIZE)
                             case None => 0
                             case Some(frame) => frame + virtual[j] % PAGE_SIZE
    {
      WalkLooksUp(root, virtual[j]);
    }
  }
}

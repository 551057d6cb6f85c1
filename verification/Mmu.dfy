/** Address translation (cpu/src/mmu.c, and the physical address its callers form,
    cpu/src/instruction_execution.c:88-91). A negative address is undefined there: the page number is a
    negative double cast to an unsigned integer. */
module Mmu {
  import opened PagingSpec
  import opened Paging

  function PageOf(address: nat, pageSize: int): nat
    requires pageSize > 0
  {
    address / pageSize
  }

  function Displacement(address: nat, pageSize: int): int
    requires pageSize > 0
  {
    var pageNumber := PageOf(address, pageSize);
    address - pageNumber * pageSize
  }

  /** Page and displacement recover the address, and the displacement lies inside the page. */
  lemma SplitRecovers(address: nat, pageSize: int)
    requires pageSize > 0
    ensures 0 <= Displacement(address, pageSize) < pageSize
    ensures PageOf(address, pageSize) * pageSize + Displacement(address, pageSize) == address
  {}

  /** No other page and in-range displacement give the address. */
  lemma SplitOnly(address: nat, pageSize: int, page: int, displacement: int)
    requires pageSize > 0 && 0 <= displacement < pageSize && page * pageSize + displacement == address
    ensures page == PageOf(address, pageSize) && displacement == Displacement(address, pageSize)
  {
    SplitRecovers(address, pageSize);
    SplitUnique(page, displacement, PageOf(address, pageSize), Displacement(address, pageSize), pageSize);
  }

  lemma SplitUnique(p: int, d: int, q: int, e: int, n: int)
    requires n > 0 && 0 <= d < n && 0 <= e < n && p * n + d == q * n + e
    ensures p == q && d == e
  {
    assert (p - q) * n == e - d;
    SmallMultiple(p - q, n);
  }

  lemma SmallMultiple(z: int, n: int)
    requires n > 0 && -n < z * n < n
    ensures z == 0
  {
    if z >= 1 { Scale(1, z, n); }
    if z <= -1 { Scale(z, -1, n); }
  }

  /** The page an address of a process lies in. */
  function KeyOfAddress(pid: int, address: nat, pageSize: int): Key
    requires pageSize > 0
  {
    (pid, PageOf(address, pageSize))
  }

  function Translate(m: Memory, pid: int, address: nat, pageSize: int): int
    requires pageSize > 0 && Resident(m, KeyOfAddress(pid, address, pageSize))
  {
    PageAt(m, KeyOfAddress(pid, address, pageSize)).frame * pageSize + Displacement(address, pageSize)
  }

  /** Two resident (pid, address) pairs share a physical address only if they are the same pair. */
  lemma TranslationInjective(m: Memory, pid1: int, a1: nat, pid2: int, a2: nat, pageSize: int)
    requires Consistent(m) && pageSize > 0
    requires Resident(m, KeyOfAddress(pid1, a1, pageSize)) && Resident(m, KeyOfAddress(pid2, a2, pageSize))
    requires Translate(m, pid1, a1, pageSize) == Translate(m, pid2, a2, pageSize)
    ensures pid1 == pid2 && a1 == a2
  {
    var k1, k2 := KeyOfAddress(pid1, a1, pageSize), KeyOfAddress(pid2, a2, pageSize);
    SplitRecovers(a1, pageSize);
    SplitRecovers(a2, pageSize);
    SplitUnique(PageAt(m, k1).frame, Displacement(a1, pageSize), PageAt(m, k2).frame, Displacement(a2, pageSize), pageSize);
    var i, j := FrameIndex(m.frames, k1), FrameIndex(m.frames, k2);
    assert Listed(m.frames, k1) && Listed(m.frames, k2);
    assert Backed(m, m.frames[i]) && Backed(m, m.frames[j]);
    assert m.frames[i].frame == m.frames[j].frame;
    assert i == j;
  }

  /** Inside a page, physical addresses run along with logical ones, from the start of the frame. */
  lemma TranslationRuns(m: Memory, pid: int, address: nat, pageSize: int)
    requires pageSize > 0 && Resident(m, KeyOfAddress(pid, address, pageSize))
    ensures Displacement(address, pageSize) == 0 ==>
      Translate(m, pid, address, pageSize) == PageAt(m, KeyOfAddress(pid, address, pageSize)).frame * pageSize
    ensures Displacement(address + 1, pageSize) != 0 ==>
      && KeyOfAddress(pid, address + 1, pageSize) == KeyOfAddress(pid, address, pageSize)
      && Translate(m, pid, address + 1, pageSize) == Translate(m, pid, address, pageSize) + 1
  {
    hide PageOf, Displacement;
    if Displacement(address + 1, pageSize) != 0 { NextInPage(address, pageSize); }
  }

  lemma NextInPage(address: nat, pageSize: int)
    requires pageSize > 0 && Displacement(address + 1, pageSize) != 0
    ensures PageOf(address + 1, pageSize) == PageOf(address, pageSize)
    ensures Displacement(address + 1, pageSize) == Displacement(address, pageSize) + 1
  {
    var page, d := PageOf(address, pageSize), Displacement(address, pageSize);
    SplitRecovers(address, pageSize);
    hide PageOf, Displacement;
    if d == pageSize - 1 {
      assert address + 1 == (page + 1) * pageSize + 0;
      SplitOnly(address + 1, pageSize, page + 1, 0);
    } else {
      SplitOnly(address + 1, pageSize, page, d + 1);
    }
  }

  /** check_full: as many entries as the memory has frames. */
  predicate Full(m: Memory, memorySize: nat, pageSize: int)
    requires pageSize > 0
  {
    |m.frames| == memorySize / pageSize
  }

  predicate FramesInRange(m: Memory, memorySize: nat, pageSize: int)
    requires pageSize > 0
  {
    forall i :: 0 <= i < |m.frames| ==> 0 <= m.frames[i].frame < memorySize / pageSize
  }

  /** Every translation lies inside the memory, at the start and after any run of uses and table creations. */
  lemma TranslationInBounds(m: Memory, es: seq<MemoryEvent>, t: Memory, lru: bool, pid: int, address: nat,
                            memorySize: nat, pageSize: int)
    requires Consistent(m) && m.frames != [] && pageSize > 0 && FramesInRange(m, memorySize, pageSize)
    requires Runs(m, es, t, lru, pageSize) && Resident(t, KeyOfAddress(pid, address, pageSize))
    ensures 0 <= Translate(t, pid, address, pageSize) < memorySize
    ensures Full(m, memorySize, pageSize) <==> Full(t, memorySize, pageSize)
  {
    FrameIndexAgrees(m, es, t, lru, pageSize);
    var k := KeyOfAddress(pid, address, pageSize);
    var i := FrameIndex(t.frames, k);
    assert Listed(t.frames, k);
    assert Backed(t, t.frames[i]);
    var f := t.frames[i].frame;
    assert FrameNumbers(t.frames)[i] in Frames(t);
    assert f in FrameNumbers(m.frames);
    var j :| 0 <= j < |m.frames| && FrameNumbers(m.frames)[j] == f;
    assert 0 <= f < memorySize / pageSize;
    SplitRecovers(address, pageSize);
    InBounds(f, memorySize, pageSize);
  }

  lemma InBounds(f: int, memorySize: nat, pageSize: int)
    requires pageSize > 0 && 0 <= f < memorySize / pageSize
    ensures 0 <= f * pageSize && f * pageSize + pageSize <= memorySize
  {
    var n := memorySize / pageSize;
    Scale(f + 1, n, pageSize);
    assert (f + 1) * pageSize == f * pageSize + pageSize;
    assert n * pageSize <= memorySize;
    Scale(0, f, pageSize);
  }
}

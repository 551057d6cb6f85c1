/** What holds of the frame list and the page tables over any run of page uses and table creations. */
module Paging {
  import opened Collections
  import opened PagingSpec

  // ---------- The index agrees with the tables ----------

  /** Two entries of a consistent list never name the same page. */
  lemma OneEntry(m: Memory, i: nat, j: nat)
    requires Consistent(m) && i < |m.frames| && j < |m.frames|
    ensures KeyOf(m.frames[i]) == KeyOf(m.frames[j]) <==> i == j
  {
    assert Backed(m, m.frames[i]) && Backed(m, m.frames[j]);
    assert KeyOf(m.frames[i]) == KeyOf(m.frames[j]) ==> m.frames[i].frame == m.frames[j].frame;
  }

  lemma ListedAt(frames: seq<FramePage>, i: nat)
    requires i < |frames|
    ensures Listed(frames, KeyOf(frames[i]))
  {}

  lemma FaultBacked(m: Memory, k: Key, i: nat)
    requires Consistent(m) && m.frames != [] && HasPage(m, k) && (!Resident(m, k) || KeyOf(m.frames[0]) == k)
    requires HasPage(m, KeyOf(m.frames[0])) && i < |m.frames|
    ensures Backed(Fault(m, k), Fault(m, k).frames[i])
  {
    var t := Fault(m, k);
    FaultShape(m, k, KeyOf(t.frames[i]));
    if i < |m.frames| - 1 {
      assert t.frames[i] == m.frames[i + 1];
      assert Backed(m, m.frames[i + 1]);
      OneEntry(m, 0, i + 1);
    }
  }

  lemma FaultListed(m: Memory, k: Key, x: Key)
    requires Consistent(m) && m.frames != [] && HasPage(m, k) && HasPage(m, KeyOf(m.frames[0]))
    requires Resident(Fault(m, k), x)
    ensures Listed(Fault(m, k).frames, x)
  {
    var t := Fault(m, k);
    FaultShape(m, k, x);
    if x == k {
      ListedAt(t.frames, |m.frames| - 1);
    } else {
      assert Resident(m, x) && Listed(m.frames, x);
      var i := FrameIndex(m.frames, x);
      assert i > 0 && t.frames[i - 1] == m.frames[i];
      ListedAt(t.frames, i - 1);
    }
  }

  lemma FaultConsistent(m: Memory, k: Key)
    requires Consistent(m) && m.frames != [] && HasPage(m, k) && (!Resident(m, k) || KeyOf(m.frames[0]) == k)
    ensures HasPage(m, KeyOf(m.frames[0])) && Consistent(Fault(m, k))
  {
    assert Backed(m, m.frames[0]);
    var t := Fault(m, k);
    forall i | 0 <= i < |t.frames| ensures Backed(t, t.frames[i]) { FaultBacked(m, k, i); }
    forall x | Resident(t, x) ensures Listed(t.frames, x) { FaultListed(m, k, x); }
    forall i, j | 0 <= i < j < |t.frames| ensures t.frames[i].frame != t.frames[j].frame {
      assert t.frames[i].frame == m.frames[i + 1].frame;
      assert t.frames[j].frame == if j < |m.frames| - 1 then m.frames[j + 1].frame else m.frames[0].frame;
    }
  }

  /** A fault keeps the agreement exactly when the page is not resident, or is itself the victim. */
  lemma FaultKeepsIff(m: Memory, k: Key)
    requires Consistent(m) && m.frames != [] && HasPage(m, k)
    ensures HasPage(m, KeyOf(m.frames[0]))
    ensures Consistent(Fault(m, k)) <==> !Resident(m, k) || KeyOf(m.frames[0]) == k
  {
    assert Backed(m, m.frames[0]);
    if !Resident(m, k) || KeyOf(m.frames[0]) == k {
      FaultConsistent(m, k);
    } else {
      var i := FrameIndex(m.frames, k);
      var t := Fault(m, k);
      FaultShape(m, k, k);
      assert Backed(m, m.frames[i]);
      assert t.frames[i - 1] == m.frames[i];
      assert m.frames[0].frame != m.frames[i].frame;
      assert !Backed(t, t.frames[i - 1]);
    }
  }

  lemma PromoteEntry(m: Memory, k: Key, i: nat)
    requires Listed(m.frames, k) && i < |m.frames|
    ensures |Promote(m, k).frames| == |m.frames|
    ensures Promote(m, k).frames[i] == m.frames[Before(|m.frames|, FrameIndex(m.frames, k), i)]
  {}

  lemma PromoteListed(m: Memory, k: Key, x: Key)
    requires Listed(m.frames, k) && Listed(m.frames, x)
    ensures Listed(Promote(m, k).frames, x)
  {
    var n, c, i := |m.frames|, FrameIndex(m.frames, k), FrameIndex(m.frames, x);
    var j := if i == c then n - 1 else if i < c then i else i - 1;
    PromoteEntry(m, k, j);
    ListedAt(Promote(m, k).frames, j);
  }

  lemma PromoteConsistent(m: Memory, k: Key)
    requires Consistent(m) && Listed(m.frames, k)
    ensures Consistent(Promote(m, k))
  {
    hide Promote, FrameIndex, Resident, Before;
    var t := Promote(m, k);
    var n := |m.frames|;
    PromoteTables(m, k);
    forall i | 0 <= i < n ensures Backed(t, t.frames[i]) { PromoteBacked(m, k, i); }
    forall x | Resident(t, x) ensures Listed(t.frames, x) {
      SameTables(t, m, x);
      PromoteListed(m, k, x);
    }
    forall i, j | 0 <= i < j < n ensures t.frames[i].frame != t.frames[j].frame { PromoteDistinct(m, k, i, j); }
  }

  lemma SameTables(a: Memory, b: Memory, x: Key)
    requires a.tables == b.tables
    ensures HasPage(a, x) == HasPage(b, x) && Resident(a, x) == Resident(b, x)
    ensures HasPage(a, x) ==> PageAt(a, x) == PageAt(b, x)
  {}

  lemma PromoteBacked(m: Memory, k: Key, i: nat)
    requires Consistent(m) && Listed(m.frames, k) && i < |m.frames|
    ensures |Promote(m, k).frames| == |m.frames| && Backed(Promote(m, k), Promote(m, k).frames[i])
  {
    PromoteEntry(m, k, i);
    PromoteTables(m, k);
    assert Backed(m, m.frames[Before(|m.frames|, FrameIndex(m.frames, k), i)]);
  }

  lemma PromoteDistinct(m: Memory, k: Key, i: nat, j: nat)
    requires Consistent(m) && Listed(m.frames, k) && i < j < |m.frames|
    ensures |Promote(m, k).frames| == |m.frames| && Promote(m, k).frames[i].frame != Promote(m, k).frames[j].frame
  {
    var n, c := |m.frames|, FrameIndex(m.frames, k);
    PromoteEntry(m, k, i);
    PromoteEntry(m, k, j);
    var a, b := Before(n, c, i), Before(n, c, j);
    assert a != b;
    if a < b { assert m.frames[a].frame != m.frames[b].frame; } else { assert m.frames[b].frame != m.frames[a].frame; }
  }

  lemma PromoteTables(m: Memory, k: Key)
    requires Listed(m.frames, k)
    ensures Promote(m, k).tables == m.tables && |Promote(m, k).frames| == |m.frames|
  {}

  /** Where the entry at position i was before entry c moved to the tail. */
  function Before(n: nat, c: nat, i: nat): nat
    requires c < n && i < n
  {
    if i == n - 1 then c else if i < c then i else i + 1
  }

  lemma ReserveLookup(m: Memory, pid: int, blocks: seq<int>, pageSize: int, x: Key)
    ensures HasPage(m, x) ==> HasPage(Reserve(m, pid, blocks, pageSize), x)
    ensures HasPage(m, x) ==> PageAt(Reserve(m, pid, blocks, pageSize), x) == PageAt(m, x)
    ensures Resident(Reserve(m, pid, blocks, pageSize), x) <==> Resident(m, x)
  {
    var t := Reserve(m, pid, blocks, pageSize);
    AppendLookup(m.tables, t.tables[|m.tables|], x.0);
  }

  lemma AppendLookup(tables: seq<PageTable>, e: PageTable, pid: int)
    ensures TableIndex(tables + [e], pid) ==
      if TableIndex(tables, pid) < |tables| then TableIndex(tables, pid)
      else if e.pid == pid then |tables| else |tables| + 1
  {
    var i, j := TableIndex(tables, pid), TableIndex(tables + [e], pid);
    assert i < |tables| ==> (tables + [e])[i].pid == pid;
    assert j < |tables| ==> tables[j].pid == pid;
    assert (tables + [e])[|tables|] == e;
  }

  lemma ReserveConsistent(m: Memory, pid: int, blocks: seq<int>, pageSize: int)
    requires Consistent(m)
    ensures Consistent(Reserve(m, pid, blocks, pageSize))
  {
    var t := Reserve(m, pid, blocks, pageSize);
    forall i | 0 <= i < |m.frames| ensures Backed(t, t.frames[i]) {
      assert Backed(m, m.frames[i]);
      ReserveLookup(m, pid, blocks, pageSize, KeyOf(m.frames[i]));
    }
    forall x | Resident(t, x) ensures Listed(t.frames, x) { ReserveLookup(m, pid, blocks, pageSize, x); }
  }

  // ---------- Runs ----------

  datatype MemoryEvent = NewTable(pid: int, blocks: seq<int>) | Access(k: Key)

  /** The CPU only asks for pages that exist; what happens otherwise is undefined in the source. */
  predicate CanDo(m: Memory, e: MemoryEvent) { e.Access? ==> HasPage(m, e.k) }

  ghost function Apply(m: Memory, e: MemoryEvent, lru: bool, pageSize: int): Memory
    requires Consistent(m) && m.frames != [] && CanDo(m, e)
  {
    match e
    case NewTable(pid, blocks) => Reserve(m, pid, blocks, pageSize)
    case Access(k) => Use(m, k, lru)
  }

  lemma FaultFrames(m: Memory, k: Key)
    requires m.frames != [] && HasPage(m, KeyOf(m.frames[0])) && HasPage(m, k)
    ensures Frames(Fault(m, k)) == Frames(m)
  {
    var f, g := FrameNumbers(m.frames), FrameNumbers(Fault(m, k).frames);
    assert f == [f[0]] + f[1..];
    assert g == f[1..] + [f[0]];
  }

  lemma MovedToTail<T>(f: seq<T>, i: nat)
    requires i < |f|
    ensures multiset(Remove(f, i) + [f[i]]) == multiset(f)
  {
    assert f == f[..i] + [f[i]] + f[i + 1..];
  }

  lemma PromoteFrames(m: Memory, k: Key)
    requires Listed(m.frames, k)
    ensures Frames(Promote(m, k)) == Frames(m)
  {
    hide FrameIndex;
    var i := FrameIndex(m.frames, k);
    var f := FrameNumbers(m.frames);
    MovedToTail(f, i);
    assert FrameNumbers(Promote(m, k).frames) == Remove(f, i) + [f[i]];
  }

  /** Main result, one step: agreement is kept and the frames in use stay the same. */
  lemma ApplyKeeps(m: Memory, e: MemoryEvent, lru: bool, pageSize: int)
    requires Consistent(m) && m.frames != [] && CanDo(m, e)
    ensures var t := Apply(m, e, lru, pageSize);
      Consistent(t) && Frames(t) == Frames(m) && |t.frames| == |m.frames|
  {
    match e {
      case NewTable(pid, blocks) => ReserveConsistent(m, pid, blocks, pageSize);
      case Access(k) =>
        if Resident(m, k) {
          if lru { PromoteConsistent(m, k); PromoteFrames(m, k); }
        } else {
          assert Backed(m, m.frames[0]);
          FaultConsistent(m, k);
          FaultFrames(m, k);
        }
    }
  }

  ghost predicate Runs(m: Memory, es: seq<MemoryEvent>, t: Memory, lru: bool, pageSize: int)
    requires Consistent(m) && m.frames != []
    decreases |es|
  {
    if es == [] then t == m
    else
      CanDo(m, es[0]) &&
      var n := Apply(m, es[0], lru, pageSize);
      ApplyKeeps(m, es[0], lru, pageSize);
      Runs(n, es[1..], t, lru, pageSize)
  }

  /** Page k is in the list with frame f. */
  predicate InFrame(frames: seq<FramePage>, k: Key, f: int) {
    exists i :: 0 <= i < |frames| && KeyOf(frames[i]) == k && frames[i].frame == f
  }

  lemma AgreementMeans(t: Memory, k: Key, f: int)
    requires Consistent(t)
    ensures InFrame(t.frames, k, f) <==> Resident(t, k) && PageAt(t, k).frame == f
  {
    if Resident(t, k) && PageAt(t, k).frame == f {
      assert Listed(t.frames, k);
      assert Backed(t, t.frames[FrameIndex(t.frames, k)]);
    }
    if i :| 0 <= i < |t.frames| && KeyOf(t.frames[i]) == k && t.frames[i].frame == f {
      assert Backed(t, t.frames[i]);
    }
  }

  /** Main result, whole runs: after any sequence of hits, faults and table creations over any set of processes,
      an entry is in the list exactly when its page is resident in that frame; the frames themselves never change. */
  lemma {:induction false} FrameIndexAgrees(m: Memory, es: seq<MemoryEvent>, t: Memory, lru: bool, pageSize: int)
    requires Consistent(m) && m.frames != [] && Runs(m, es, t, lru, pageSize)
    ensures Consistent(t) && Frames(t) == Frames(m) && |t.frames| == |m.frames|
    ensures forall k, f :: InFrame(t.frames, k, f) <==> Resident(t, k) && PageAt(t, k).frame == f
    decreases |es|
  {
    if es == [] {
      forall k, f ensures InFrame(t.frames, k, f) <==> Resident(t, k) && PageAt(t, k).frame == f { AgreementMeans(t, k, f); }
    } else {
      ApplyKeeps(m, es[0], lru, pageSize);
      FrameIndexAgrees(Apply(m, es[0], lru, pageSize), es[1..], t, lru, pageSize);
    }
  }

  // ---------- Modified flags ----------

  /** No entry of the list asks to be written back. */
  predicate ListClean(m: Memory) { forall i :: 0 <= i < |m.frames| ==> !m.frames[i].modified }

  ghost predicate PagesClean(m: Memory) { forall k :: HasPage(m, k) ==> !PageAt(m, k).modified }

  /** Pages that are not in memory have nothing to write back; those that are may have. */
  ghost predicate AbsentClean(m: Memory) {
    forall k :: HasPage(m, k) && !PageAt(m, k).presence ==> !PageAt(m, k).modified
  }

  /** An entry that is promoted is the entry it was. */
  lemma PromotePermutes(m: Memory, k: Key)
    requires Listed(m.frames, k)
    ensures multiset(Promote(m, k).frames) == multiset(m.frames) && Promote(m, k).tables == m.tables
  {
    hide FrameIndex;
    MovedToTail(m.frames, FrameIndex(m.frames, k));
  }

  /** The entry that joins the list on a fault is that of the page, in the victim's frame, with nothing to write back. */
  lemma FaultJoins(m: Memory, k: Key)
    requires m.frames != [] && HasPage(m, KeyOf(m.frames[0])) && HasPage(m, k)
    ensures var t := Fault(m, k); var n := |m.frames| - 1;
      && |t.frames| == n + 1 && t.frames[..n] == m.frames[1..]
      && KeyOf(t.frames[n]) == k && t.frames[n].frame == m.frames[0].frame && !t.frames[n].modified
  {}

  lemma ApplyKeepsClean(m: Memory, e: MemoryEvent, lru: bool, pageSize: int)
    requires Consistent(m) && m.frames != [] && CanDo(m, e)
    ensures var t := Apply(m, e, lru, pageSize);
      && (ListClean(m) ==> ListClean(t)) && (PagesClean(m) ==> PagesClean(t)) && (AbsentClean(m) ==> AbsentClean(t))
  {
    hide TableIndex, FrameIndex;
    var t := Apply(m, e, lru, pageSize);
    match e {
      case NewTable(pid, blocks) =>
        forall k | HasPage(t, k) ensures PageAt(t, k).modified ==> HasPage(m, k) && PageAt(t, k) == PageAt(m, k) {
          ReserveClean(m, pid, blocks, pageSize, k);
        }
      case Access(k) =>
        if Resident(m, k) {
          if lru { PromotePermutes(m, k); }
          forall x ensures HasPage(t, x) == HasPage(m, x) && (HasPage(m, x) ==> PageAt(t, x) == PageAt(m, x)) {}
        } else {
          assert Backed(m, m.frames[0]);
          FaultJoins(m, k);
          forall x | HasPage(m, x) || HasPage(t, x)
            ensures HasPage(m, x) && HasPage(t, x) && (PageAt(t, x).modified ==> PageAt(m, x).modified)
            ensures !PageAt(t, x).presence && PageAt(t, x).modified ==> !PageAt(m, x).presence
          {
            FaultShape(m, k, x);
          }
        }
    }
  }

  lemma ReserveClean(m: Memory, pid: int, blocks: seq<int>, pageSize: int, k: Key)
    requires HasPage(Reserve(m, pid, blocks, pageSize), k)
    ensures PageAt(Reserve(m, pid, blocks, pageSize), k).modified ==>
      HasPage(m, k) && PageAt(Reserve(m, pid, blocks, pageSize), k) == PageAt(m, k)
  {
    AppendLookup(m.tables, PageTable(pid, NewPages(blocks, pageSize)), k.0);
  }

  /** Main result: no hit, fault or table creation marks anything as modified. A list without modified entries stays
      so, and so do tables without modified pages; and whatever is modified in memory, a page that has left it is not. */
  lemma {:induction false} RunsKeepClean(m: Memory, es: seq<MemoryEvent>, t: Memory, lru: bool, pageSize: int)
    requires Consistent(m) && m.frames != [] && Runs(m, es, t, lru, pageSize)
    ensures ListClean(m) ==> ListClean(t)
    ensures PagesClean(m) ==> PagesClean(t)
    ensures AbsentClean(m) ==> AbsentClean(t)
    decreases |es|
  {
    hide ListClean, PagesClean, AbsentClean, Consistent, CanDo;
    if es == [] {
    } else {
      ApplyKeeps(m, es[0], lru, pageSize);
      ApplyKeepsClean(m, es[0], lru, pageSize);
      RunsKeepClean(Apply(m, es[0], lru, pageSize), es[1..], t, lru, pageSize);
    }
  }

  // ---------- Swap positions ----------

  predicate SameSwap(m: Memory, n: Memory) {
    && |n.tables| == |m.tables|
    && forall t :: 0 <= t < |m.tables| ==>
         n.tables[t].pid == m.tables[t].pid && SwapPositions(n.tables[t]) == SwapPositions(m.tables[t])
  }

  lemma WithPageSwap(m: Memory, k: Key, p: Page)
    requires HasPage(m, k) && p.swapPosition == PageAt(m, k).swapPosition
    ensures SameSwap(m, WithPage(m, k, p))
  {}

  lemma UseKeepsSwap(m: Memory, k: Key, lru: bool)
    requires Consistent(m) && m.frames != [] && HasPage(m, k)
    ensures SameSwap(m, Use(m, k, lru))
  {
    if !Resident(m, k) {
      assert Backed(m, m.frames[0]);
      var v := KeyOf(m.frames[0]);
      var e := Evict(m, v);
      EvictShape(m, v, k);
      WithPageSwap(m, v, PageAt(m, v).(presence := false, modified := false));
      WithPageSwap(e, k, PageAt(e, k).(frame := m.frames[0].frame, presence := true));
    }
  }

  lemma {:induction false} RunKeepsSwap(m: Memory, es: seq<MemoryEvent>, t: Memory, lru: bool, pageSize: int, i: nat)
    requires Consistent(m) && m.frames != [] && Runs(m, es, t, lru, pageSize) && i < |m.tables|
    ensures |m.tables| <= |t.tables| && t.tables[i].pid == m.tables[i].pid
    ensures SwapPositions(t.tables[i]) == SwapPositions(m.tables[i])
    ensures forall j :: 0 <= j < |m.tables| ==> t.tables[j].pid == m.tables[j].pid
    decreases |es|
  {
    if es == [] {
    } else {
      var n := Apply(m, es[0], lru, pageSize);
      ApplyKeeps(m, es[0], lru, pageSize);
      forall j | 0 <= j < |m.tables|
        ensures |m.tables| <= |n.tables| && n.tables[j].pid == m.tables[j].pid
          && SwapPositions(n.tables[j]) == SwapPositions(m.tables[j])
      {
        if es[0].Access? { UseKeepsSwap(m, es[0].k, lru); }
      }
      RunKeepsSwap(n, es[1..], t, lru, pageSize, i);
    }
  }

  /** Swap round trip: a table created for a new pid, however it is used and whatever else is created, gives back
      exactly its blocks, scaled, in page order, when it is looked up and deleted. The second `requires` only makes
      the run well defined; ReserveConsistent gives its first half. */
  lemma SwapRoundTrip(m: Memory, pid: int, blocks: seq<int>, es: seq<MemoryEvent>, t: Memory, lru: bool, pageSize: int)
    requires Consistent(m) && m.frames != [] && TableIndex(m.tables, pid) == |m.tables|
    requires Consistent(Reserve(m, pid, blocks, pageSize)) && Runs(Reserve(m, pid, blocks, pageSize), es, t, lru, pageSize)
    ensures TableIndex(t.tables, pid) == |m.tables| < |t.tables|
    ensures SwapPositions(t.tables[|m.tables|]) == seq(|blocks|, i requires 0 <= i < |blocks| => blocks[i] * pageSize)
  {
    var n := Reserve(m, pid, blocks, pageSize);
    RunKeepsSwap(n, es, t, lru, pageSize, |m.tables|);
    forall j | 0 <= j < |m.tables| ensures t.tables[j].pid != pid { assert n.tables[j] == m.tables[j]; }
    assert SwapPositions(n.tables[|m.tables|]) == seq(|blocks|, i requires 0 <= i < |blocks| => blocks[i] * pageSize);
  }

  /** Distinct blocks give disjoint byte ranges. */
  lemma BlocksDisjoint(a: int, b: int, pageSize: int, x: int)
    requires a != b && pageSize > 0
    requires a * pageSize <= x < a * pageSize + pageSize
    ensures !(b * pageSize <= x < b * pageSize + pageSize)
  {
    if a < b {
      assert (a + 1) * pageSize <= b * pageSize by { Scale(a + 1, b, pageSize); }
    } else {
      assert (b + 1) * pageSize <= a * pageSize by { Scale(b + 1, a, pageSize); }
    }
  }

  lemma Scale(a: int, b: int, n: int)
    requires a <= b && n > 0
    ensures a * n <= b * n
  {}
}

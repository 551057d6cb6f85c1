/** Page tables and the list of used frames (memory/src/page_table.c, memory/src/handle_connection.c).

    Two lines are modelled by intent: update_victim puts the page back at its own index
    (page_table.c:102-105), and the entries added at lines 94-95 and 130-131 stay alive. The list of
    used frames is never filled in the source; everything below starts from any consistent list. */
module PagingSpec {
  import opened Collections

  datatype Page = Page(frame: int, presence: bool, modified: bool, swapPosition: int)
  datatype PageTable = PageTable(pid: int, pages: seq<Page>)
  datatype FramePage = FramePage(frame: int, modified: bool, pageNumber: int, pid: int)

  /** `tables` is page_table_list, `frames` is frames_used_list, oldest or least recently used first. */
  datatype Memory = Memory(tables: seq<PageTable>, frames: seq<FramePage>)

  /** A page as the rest of the system names it. */
  type Key = (int, int)

  // ---------- Lookup ----------

  /** get_table_pages_by_pid: the first table of the pid; the number of tables when there is none. */
  function TableIndex(tables: seq<PageTable>, pid: int): (i: nat)
    ensures i <= |tables|
    ensures i < |tables| ==> tables[i].pid == pid
    ensures forall j :: 0 <= j < i ==> tables[j].pid != pid
  {
    FirstIndex(tables, (t: PageTable) => t.pid == pid)
  }

  predicate HasPage(m: Memory, k: Key) {
    var t := TableIndex(m.tables, k.0);
    t < |m.tables| && 0 <= k.1 < |m.tables[t].pages|
  }

  function PageAt(m: Memory, k: Key): Page
    requires HasPage(m, k)
  {
    m.tables[TableIndex(m.tables, k.0)].pages[k.1]
  }

  function WithPage(m: Memory, k: Key, p: Page): Memory
    requires HasPage(m, k)
  {
    var t := TableIndex(m.tables, k.0);
    m.(tables := m.tables[t := m.tables[t].(pages := m.tables[t].pages[k.1 := p])])
  }

  predicate Resident(m: Memory, k: Key) { HasPage(m, k) && PageAt(m, k).presence }

  function KeyOf(e: FramePage): Key { (e.pid, e.pageNumber) }

  /** Position of a page in the frame list; the length when it is not there. */
  function FrameIndex(frames: seq<FramePage>, k: Key): (i: nat)
    ensures i <= |frames|
    ensures i < |frames| ==> KeyOf(frames[i]) == k
    ensures forall j :: 0 <= j < i ==> KeyOf(frames[j]) != k
  {
    FirstIndex(frames, (e: FramePage) => KeyOf(e) == k)
  }

  // ---------- Operations ----------

  function NewPages(blocks: seq<int>, pageSize: int): (r: seq<Page>)
    ensures |r| == |blocks|
    ensures forall i :: 0 <= i < |blocks| ==> r[i] == Page(0, false, false, blocks[i] * pageSize)
  {
    seq(|blocks|, i requires 0 <= i < |blocks| => Page(0, false, false, blocks[i] * pageSize))
  }

  /** reserve_swap_memory. */
  function Reserve(m: Memory, pid: int, blocks: seq<int>, pageSize: int): Memory {
    m.(tables := m.tables + [PageTable(pid, NewPages(blocks, pageSize))])
  }

  function SwapPositions(t: PageTable): (r: seq<int>)
    ensures |r| == |t.pages|
    ensures forall i :: 0 <= i < |t.pages| ==> r[i] == t.pages[i].swapPosition
  {
    seq(|t.pages|, i requires 0 <= i < |t.pages| => t.pages[i].swapPosition)
  }

  /** update_victim. */
  function Evict(m: Memory, k: Key): Memory
    requires HasPage(m, k)
  {
    WithPage(m, k, PageAt(m, k).(presence := false, modified := false))
  }

  /** replace_page_fifo: the head of the list gives its frame to the new page, which joins at the tail. */
  function Fault(m: Memory, k: Key): Memory
    requires m.frames != [] && HasPage(m, KeyOf(m.frames[0])) && HasPage(m, k)
  {
    var victim := m.frames[0];
    var e := Evict(m, KeyOf(victim));
    EvictShape(m, KeyOf(victim), k);
    WithPage(e, k, PageAt(e, k).(frame := victim.frame, presence := true))
      .(frames := m.frames[1..] + [FramePage(victim.frame, false, k.1, k.0)])
  }

  /** replace_page_lru_with_presence: the entry moves to the tail. */
  function Promote(m: Memory, k: Key): Memory
    requires FrameIndex(m.frames, k) < |m.frames|
  {
    var i := FrameIndex(m.frames, k);
    m.(frames := Remove(m.frames, i) + [m.frames[i]])
  }

  /** One use of a page: GET_FRAME, then PAGE_FAULT when it is not resident. */
  function Use(m: Memory, k: Key, lru: bool): Memory
    requires Consistent(m) && m.frames != [] && HasPage(m, k)
  {
    if Resident(m, k) then (if lru then Promote(m, k) else m) else Fault(m, k)
  }

  // ---------- The invariant ----------

  /** The list entry names a resident page that names the same frame. */
  predicate Backed(m: Memory, e: FramePage) {
    Resident(m, KeyOf(e)) && PageAt(m, KeyOf(e)).frame == e.frame
  }

  predicate Listed(frames: seq<FramePage>, k: Key) { FrameIndex(frames, k) < |frames| }

  /** (pid, page, frame) is in the list exactly when that page is resident in that frame, and no frame is used twice. */
  ghost predicate Consistent(m: Memory) {
    && (forall i :: 0 <= i < |m.frames| ==> Backed(m, m.frames[i]))
    && (forall k :: Resident(m, k) ==> Listed(m.frames, k))
    && (forall i, j :: 0 <= i < j < |m.frames| ==> m.frames[i].frame != m.frames[j].frame)
  }

  function Frames(m: Memory): multiset<int> { multiset(FrameNumbers(m.frames)) }

  function FrameNumbers(frames: seq<FramePage>): (r: seq<int>)
    ensures |r| == |frames|
    ensures forall i :: 0 <= i < |frames| ==> r[i] == frames[i].frame
  {
    seq(|frames|, i requires 0 <= i < |frames| => frames[i].frame)
  }

  // ---------- What updating one page does to lookups ----------

  lemma SameOwners(a: seq<PageTable>, b: seq<PageTable>, pid: int)
    requires |a| == |b| && forall i :: 0 <= i < |a| ==> a[i].pid == b[i].pid
    ensures TableIndex(a, pid) == TableIndex(b, pid)
  {
    var i, j := TableIndex(a, pid), TableIndex(b, pid);
    assert !(i < j) && !(j < i);
  }

  lemma WithPageLookup(m: Memory, k: Key, p: Page, x: Key)
    requires HasPage(m, k)
    ensures HasPage(WithPage(m, k, p), x) <==> HasPage(m, x)
    ensures HasPage(m, x) ==> PageAt(WithPage(m, k, p), x) == if x == k then p else PageAt(m, x)
  {
    SameOwners(m.tables, WithPage(m, k, p).tables, x.0);
  }

  lemma EvictShape(m: Memory, k: Key, x: Key)
    requires HasPage(m, k)
    ensures HasPage(Evict(m, k), x) <==> HasPage(m, x)
    ensures HasPage(m, x) ==>
      PageAt(Evict(m, k), x) == if x == k then PageAt(m, x).(presence := false, modified := false) else PageAt(m, x)
  {
    WithPageLookup(m, k, PageAt(m, k).(presence := false, modified := false), x);
  }

  /** Where every page stands after a fault. */
  lemma FaultShape(m: Memory, k: Key, x: Key)
    requires m.frames != [] && HasPage(m, KeyOf(m.frames[0])) && HasPage(m, k)
    ensures HasPage(Fault(m, k), x) <==> HasPage(m, x)
    ensures HasPage(m, x) ==>
      var p := PageAt(Fault(m, k), x);
      && (x == k ==> p.presence && p.frame == m.frames[0].frame)
      && (x != k && x == KeyOf(m.frames[0]) ==> !p.presence && p.frame == PageAt(m, x).frame)
      && (x == KeyOf(m.frames[0]) ==> !p.modified)
      && (x != KeyOf(m.frames[0]) ==> p.modified == PageAt(m, x).modified)
      && (x != k && x != KeyOf(m.frames[0]) ==> p == PageAt(m, x))
      && p.swapPosition == PageAt(m, x).swapPosition
  {
    var victim := KeyOf(m.frames[0]);
    var e := Evict(m, victim);
    EvictShape(m, victim, k);
    EvictShape(m, victim, x);
    WithPageLookup(e, k, PageAt(e, k).(frame := m.frames[0].frame, presence := true), x);
  }
}

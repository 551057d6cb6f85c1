/** The memory module's operations, in place: loops over the table list and the frame list
    (memory/src/page_table.c, memory/src/handle_connection.c:183-229). */
module PageTables {
  import opened Collections
  import opened PagingSpec
  import opened Paging
  import opened Replacement

  datatype FrameReply = GotFrame(frame: int) | PageFault

  class PageTables {
    const pageSize: int
    const lru: bool
    var pageTableList: seq<PageTable>
    var framesUsedList: seq<FramePage>

    function Abs(): Memory
      reads this
    {
      Memory(pageTableList, framesUsedList)
    }

    /** `framesUsed` is any list to start from; init_page_table_list leaves it empty. */
    constructor (pageSize: int, lru: bool, framesUsed: seq<FramePage>)
      ensures this.pageSize == pageSize && this.lru == lru && Abs() == Memory([], framesUsed)
    {
      this.pageSize, this.lru := pageSize, lru;
      pageTableList, framesUsedList := [], framesUsed;
    }

    static method CreatePageTable(pid: int, swapBlocks: seq<int>, pageSize: int) returns (table: PageTable)
      ensures table == PageTable(pid, NewPages(swapBlocks, pageSize))
    {
      var pages: seq<Page> := [];
      for i := 0 to |swapBlocks|
        invariant |pages| == i
        invariant forall j :: 0 <= j < i ==> pages[j] == Page(0, false, false, swapBlocks[j] * pageSize)
      {
        var swapPosition := swapBlocks[i] * pageSize;
        pages := pages + [Page(0, false, false, swapPosition)];
      }
      table := PageTable(pid, pages);
    }

    static method DeletePageTable(table: PageTable) returns (swapPositions: seq<int>)
      ensures swapPositions == SwapPositions(table)
    {
      swapPositions := [];
      for i := 0 to |table.pages|
        invariant |swapPositions| == i
        invariant forall j :: 0 <= j < i ==> swapPositions[j] == table.pages[j].swapPosition
      {
        swapPositions := swapPositions + [table.pages[i].swapPosition];
      }
    }

    /** get_table_pages_by_pid; an unknown pid is undefined there. */
    method GetTablePagesByPid(pid: int) returns (i: nat)
      requires TableIndex(pageTableList, pid) < |pageTableList|
      ensures i == TableIndex(pageTableList, pid)
    {
      i := 0;
      while pageTableList[i].pid != pid
        invariant i <= TableIndex(pageTableList, pid)
        decreases |pageTableList| - i
      {
        i := i + 1;
      }
    }

    method ReserveSwapMemory(pid: int, swapBlocks: seq<int>)
      modifies this`pageTableList
      ensures Abs() == Reserve(old(Abs()), pid, swapBlocks, pageSize)
    {
      var table := CreatePageTable(pid, swapBlocks, pageSize);
      pageTableList := pageTableList + [table];
    }

    method SetPage(k: Key, page: Page)
      requires HasPage(Abs(), k)
      modifies this`pageTableList
      ensures Abs() == WithPage(old(Abs()), k, page)
    {
      var t := GetTablePagesByPid(k.0);
      var table := pageTableList[t];
      pageTableList := pageTableList[t := table.(pages := table.pages[k.1 := page])];
    }

    method UpdateVictim(victim: FramePage)
      requires HasPage(Abs(), KeyOf(victim))
      modifies this`pageTableList
      ensures Abs() == Evict(old(Abs()), KeyOf(victim))
    {
      var page := PageAt(Abs(), KeyOf(victim));
      SetPage(KeyOf(victim), page.(modified := false, presence := false));
    }

    /** replace_page_fifo. The victim exists: the list is not empty and what it names is in the tables. */
    method ReplacePageFifo(k: Key)
      requires framesUsedList != [] && HasPage(Abs(), KeyOf(framesUsedList[0])) && HasPage(Abs(), k)
      modifies this`pageTableList, this`framesUsedList
      ensures Abs() == Fault(old(Abs()), k)
    {
      var victim := framesUsedList[0];
      EvictShape(Abs(), KeyOf(victim), k);
      UpdateVictim(victim);
      var page := PageAt(Abs(), k);
      SetPage(k, page.(frame := victim.frame, presence := true));
      framesUsedList := framesUsedList[1..] + [FramePage(victim.frame, false, k.1, k.0)];
    }

    /** replace_page_lru_with_presence: the scan stops inside the list because the page is in it. */
    method ReplacePageLruWithPresence(k: Key)
      requires Listed(framesUsedList, k)
      modifies this`framesUsedList
      ensures Abs() == Promote(old(Abs()), k)
    {
      ghost var list := framesUsedList;
      ghost var c := FrameIndex(list, k);
      var frameSize := |framesUsedList|;
      var i := 0;
      var framePage := framesUsedList[0];
      while |framesUsedList| == frameSize
        invariant if |framesUsedList| == frameSize then framesUsedList == list && i <= c
                  else framesUsedList == Remove(list, c) && framePage == list[c]
        invariant |list| == frameSize
        decreases |framesUsedList|, frameSize - i
      {
        framePage := framesUsedList[i];
        if KeyOf(framePage) == k {
          framesUsedList := Remove(framesUsedList, i);
        } else {
          i := i + 1;
        }
      }
      framesUsedList := framesUsedList + [framePage];
    }

    method GetFrame(k: Key) returns (reply: FrameReply)
      requires Consistent(Abs()) && HasPage(Abs(), k)
      modifies this`framesUsedList
      ensures Consistent(Abs())
      ensures if Resident(old(Abs()), k)
              then reply == GotFrame(PageAt(old(Abs()), k).frame)
                && Abs() == (if lru then Promote(old(Abs()), k) else old(Abs()))
              else reply == PageFault && Abs() == old(Abs())
    {
      var page := PageAt(Abs(), k);
      if page.presence {
        ghost var m := Abs();
        if lru {
          PromoteConsistent(m, k);
          ReplacePageLruWithPresence(k);
        }
        reply := GotFrame(page.frame);
      } else {
        reply := PageFault;
      }
    }

    /** The agreement survives exactly when the page was not resident, or was itself the victim. */
    method HandlePageFault(k: Key)
      requires Consistent(Abs()) && framesUsedList != [] && HasPage(Abs(), k)
      modifies this`pageTableList, this`framesUsedList
      ensures HasPage(old(Abs()), KeyOf(old(framesUsedList[0]))) && Abs() == Fault(old(Abs()), k)
      ensures Consistent(Abs()) <==> !Resident(old(Abs()), k) || KeyOf(old(framesUsedList[0])) == k
    {
      FaultKeepsIff(Abs(), k);
      ReplacePageFifo(k);
    }

    /** What the CPU does to reach a page: ask for its frame, report the fault, ask again. */
    method Reach(k: Key) returns (frame: int)
      requires Consistent(Abs()) && framesUsedList != [] && HasPage(Abs(), k)
      modifies this`pageTableList, this`framesUsedList
      ensures Consistent(Abs()) && Resident(Abs(), k) && frame == PageAt(Abs(), k).frame
      ensures Keys(framesUsedList) == Touch(Keys(old(framesUsedList)), k, lru)
    {
      ghost var m := Abs();
      UseFollowsPolicy(m, k, lru);
      ApplyKeeps(m, Access(k), lru, pageSize);
      var reply := GetFrame(k);
      if reply.PageFault? {
        HandlePageFault(k);
        FaultShape(m, k, k);
        AgainAtTail(Abs(), k);
        reply := GetFrame(k);
      }
      frame := reply.frame;
    }
  }

  /** Promoting the entry at the tail changes nothing. */
  lemma AgainAtTail(m: Memory, k: Key)
    requires Consistent(m) && m.frames != [] && KeyOf(m.frames[|m.frames| - 1]) == k
    ensures Listed(m.frames, k) && Promote(m, k) == m
  {
    ListedAt(m.frames, |m.frames| - 1);
    OneEntry(m, FrameIndex(m.frames, k), |m.frames| - 1);
    assert Remove(m.frames, |m.frames| - 1) + [m.frames[|m.frames| - 1]] == m.frames;
  }
}

/** The replacement policies: LRU with promotion, FIFO without (memory/src/page_table.c:69-132,
    memory/src/handle_connection.c:193-229). The policy is studied on lists of page keys; `UseAll`
    connects it to the memory with its page tables and frames. */
module Replacement {
  import opened Collections
  import opened PagingSpec
  import opened Paging

  // ---------- The policy on lists of keys ----------

  function KeyIndex(l: seq<Key>, x: Key): (i: nat)
    ensures i <= |l|
    ensures i < |l| ==> l[i] == x
    ensures x in l <==> i < |l|
    ensures forall j :: 0 <= j < i ==> l[j] != x
  {
    FirstIndex(l, (k: Key) => k == x)
  }

  /** One use of page x: a hit promotes under LRU, a miss evicts the head. */
  function Touch(l: seq<Key>, x: Key, lru: bool): (r: seq<Key>)
    requires l != []
    ensures |r| == |l|
  {
    if x in l then (if lru then Remove(l, KeyIndex(l, x)) + [x] else l) else l[1..] + [x]
  }

  function TouchAll(l: seq<Key>, refs: seq<Key>, lru: bool): (r: seq<Key>)
    requires l != []
    ensures |r| == |l|
    decreases |refs|
  {
    if refs == [] then l else TouchAll(Touch(l, refs[0], lru), refs[1..], lru)
  }

  /** Which references hit. */
  function Hits(l: seq<Key>, refs: seq<Key>, lru: bool): (h: seq<bool>)
    requires l != []
    ensures |h| == |refs|
    decreases |refs|
  {
    if refs == [] then [] else [refs[0] in l] + Hits(Touch(l, refs[0], lru), refs[1..], lru)
  }

  function Misses(h: seq<bool>): nat {
    if h == [] then 0 else (if h[0] then 0 else 1) + Misses(h[1..])
  }

  predicate IsSuffix(small: seq<Key>, big: seq<Key>) {
    |small| <= |big| && big[|big| - |small|..] == small
  }

  lemma CutMember(l: seq<Key>, i: nat, y: Key)
    requires Distinct(l) && i < |l|
    ensures y in Remove(l, i) <==> y in l && y != l[i]
  {
    if y in l && y != l[i] {
      var j := KeyIndex(l, y);
      assert Remove(l, i)[if j < i then j else j - 1] == y;
    }
  }

  lemma TouchDistinct(l: seq<Key>, x: Key, lru: bool)
    requires l != [] && Distinct(l)
    ensures Distinct(Touch(l, x, lru))
  {
    if x in l { CutMember(l, KeyIndex(l, x), x); }
  }

  // ---------- LRU inclusion ----------

  lemma UniqueIndex(l: seq<Key>, j: nat)
    requires Distinct(l) && j < |l|
    ensures KeyIndex(l, l[j]) == j
  {
    assert KeyIndex(l, l[j]) <= j;
  }

  /** A hit in the suffix cuts the longer list at the same entry. */
  lemma HitBoth(pre: seq<Key>, small: seq<Key>, x: Key)
    requires Distinct(pre + small) && x in small
    ensures Touch(pre + small, x, true) == pre + Touch(small, x, true)
  {
    hide KeyIndex, Remove;
    var big, j := pre + small, KeyIndex(small, x);
    assert big[|pre| + j] == x;
    UniqueIndex(big, |pre| + j);
    CutSuffix(pre, small, j);
    assert x in big;
    assert (pre + Remove(small, j)) + [x] == pre + (Remove(small, j) + [x]);
  }

  lemma CutSuffix(pre: seq<Key>, small: seq<Key>, j: nat)
    requires j < |small|
    ensures Remove(pre + small, |pre| + j) == pre + Remove(small, j)
  {
    assert (pre + small)[..|pre| + j] == pre + small[..j];
    assert (pre + small)[|pre| + j + 1..] == small[j + 1..];
  }

  /** A hit in the longer list only: what it cuts lies before the suffix. */
  lemma HitLonger(pre: seq<Key>, small: seq<Key>, x: Key)
    requires small != [] && x !in small && x in pre
    ensures exists p :: Touch(pre + small, x, true) == p + Touch(small, x, true)
  {
    var big, i := pre + small, KeyIndex(pre, x);
    assert big[i] == x;
    var j := KeyIndex(big, x);
    assert j <= i;
    assert Remove(big, j) == Remove(pre, j) + small;
    assert small == [small[0]] + small[1..];
    assert Touch(big, x, true) == (Remove(pre, j) + [small[0]]) + Touch(small, x, true);
  }

  lemma MissBoth(pre: seq<Key>, small: seq<Key>, x: Key)
    requires small != [] && x !in pre + small
    ensures exists p :: Touch(pre + small, x, true) == p + Touch(small, x, true)
  {
    var big := pre + small;
    assert x !in small by { assert forall y :: y in small ==> y in big; }
    assert small == [small[0]] + small[1..];
    if pre == [] {
      assert big == small;
      assert Touch(big, x, true) == [] + Touch(small, x, true);
    } else {
      assert Touch(big, x, true) == (pre[1..] + [small[0]]) + Touch(small, x, true);
    }
  }

  lemma TouchInclusion(small: seq<Key>, big: seq<Key>, x: Key)
    requires small != [] && IsSuffix(small, big) && Distinct(big)
    ensures IsSuffix(Touch(small, x, true), Touch(big, x, true))
    ensures x in small ==> x in big
  {
    hide Touch, KeyIndex;
    var pre := big[..|big| - |small|];
    assert big == pre + small;
    if x in small {
      HitBoth(pre, small, x);
    } else if x in big {
      assert x in pre;
      HitLonger(pre, small, x);
    } else {
      MissBoth(pre, small, x);
    }
    var p :| Touch(big, x, true) == p + Touch(small, x, true);
    assert (p + Touch(small, x, true))[|p|..] == Touch(small, x, true);
  }

  /** LRU inclusion: for any reference string the smaller memory's list stays a suffix of the larger one's, every
      hit of the smaller is a hit of the larger, and the larger one never misses more often. */
  lemma {:induction false} LruInclusion(small: seq<Key>, big: seq<Key>, refs: seq<Key>)
    requires small != [] && IsSuffix(small, big) && Distinct(big)
    ensures IsSuffix(TouchAll(small, refs, true), TouchAll(big, refs, true))
    ensures forall i :: 0 <= i < |refs| && Hits(small, refs, true)[i] ==> Hits(big, refs, true)[i]
    ensures Misses(Hits(big, refs, true)) <= Misses(Hits(small, refs, true))
    decreases |refs|
  {
    if refs == [] {
    } else {
      var x := refs[0];
      var s, b := Touch(small, x, true), Touch(big, x, true);
      TouchInclusion(small, big, x);
      TouchDistinct(big, x, true);
      LruInclusion(s, b, refs[1..]);
      var hs, hb := Hits(small, refs, true), Hits(big, refs, true);
      assert hs[1..] == Hits(s, refs[1..], true) && hb[1..] == Hits(b, refs[1..], true);
      forall i | 0 <= i < |refs| && hs[i] ensures hb[i] {
        if i > 0 { assert hs[1..][i - 1] && hb[1..][i - 1]; }
      }
    }
  }

  // ---------- Who is evicted ----------

  /** When a page was last used, as a position in a history; -1 when it never was. */
  function LastUse(h: seq<Key>, y: Key): (i: int)
    ensures -1 <= i < |h|
    decreases |h|
  {
    if h == [] then -1 else if h[|h| - 1] == y then |h| - 1 else LastUse(h[..|h| - 1], y)
  }

  /** The list is strictly ordered by last use. */
  predicate Ordered(l: seq<Key>, h: seq<Key>) {
    forall i, j :: 0 <= i < j < |l| ==> LastUse(h, l[i]) < LastUse(h, l[j])
  }

  lemma LastUsePush(h: seq<Key>, x: Key, y: Key)
    ensures LastUse(h + [x], y) == if x == y then |h| else LastUse(h, y)
  {
    assert (h + [x])[..|h|] == h;
  }

  lemma {:induction false} LastUseAt(l: seq<Key>, i: nat)
    requires Distinct(l) && i < |l|
    ensures LastUse(l, l[i]) == i
    decreases |l|
  {
    if i == |l| - 1 {
    } else {
      LastUseAt(l[..|l| - 1], i);
    }
  }

  /** Dropping one entry keeps the order, and the page used now goes last. */
  lemma TouchOrdered(l: seq<Key>, h: seq<Key>, x: Key)
    requires l != [] && Distinct(l) && Ordered(l, h)
    ensures Ordered(Touch(l, x, true), h + [x])
  {
    var c := if x in l then KeyIndex(l, x) else 0;
    var r := Remove(l, c);
    assert Touch(l, x, true) == r + [x];
    assert x !in r by { CutMember(l, c, x); }
    UseOrdered(l, h, c, x);
  }

  lemma UseOrdered(l: seq<Key>, h: seq<Key>, c: nat, x: Key)
    requires c < |l| && Ordered(l, h) && x !in Remove(l, c)
    ensures Ordered(Remove(l, c) + [x], h + [x])
  {
    hide LastUse;
    var r, g := Remove(l, c), h + [x];
    forall i, j | 0 <= i < j < |r| + 1 ensures LastUse(g, (r + [x])[i]) < LastUse(g, (r + [x])[j]) {
      assert r[i] == l[if i < c then i else i + 1] && r[i] in r;
      LastUsePush(h, x, (r + [x])[i]);
      LastUsePush(h, x, (r + [x])[j]);
      if j < |r| { assert r[j] == l[if j < c then j else j + 1] && r[j] in r; }
    }
  }

  lemma {:induction false} TouchAllOrdered(l: seq<Key>, h: seq<Key>, refs: seq<Key>)
    requires l != [] && Distinct(l) && Ordered(l, h)
    ensures Ordered(TouchAll(l, refs, true), h + refs) && Distinct(TouchAll(l, refs, true))
    decreases |refs|
  {
    hide Touch, Ordered, LastUse;
    if refs == [] {
      assert h + refs == h;
    } else {
      TouchOrdered(l, h, refs[0]);
      TouchDistinct(l, refs[0], true);
      TouchAllOrdered(Touch(l, refs[0], true), h + [refs[0]], refs[1..]);
      assert h + refs == h + [refs[0]] + refs[1..];
    }
  }

  /** Everything loaded so far under FIFO, oldest first. */
  function Loads(l: seq<Key>, loaded: seq<Key>, refs: seq<Key>): seq<Key>
    requires l != []
    decreases |refs|
  {
    if refs == [] then loaded
    else Loads(Touch(l, refs[0], false), if refs[0] in l then loaded else loaded + [refs[0]], refs[1..])
  }

  /** Without promotion the list is exactly the latest loads in order, so its head is the oldest loaded page. */
  lemma {:induction false} FifoIsLatestLoads(l: seq<Key>, loaded: seq<Key>, refs: seq<Key>)
    requires l != [] && IsSuffix(l, loaded)
    ensures IsSuffix(TouchAll(l, refs, false), Loads(l, loaded, refs))
    decreases |refs|
  {
    if refs == [] {
    } else {
      var x := refs[0];
      if x !in l {
        var more := loaded + [x];
        assert more[|more| - |l|..] == loaded[|loaded| - |l|..][1..] + [x];
      }
      FifoIsLatestLoads(Touch(l, x, false), if x in l then loaded else loaded + [x], refs[1..]);
    }
  }

  // ---------- The memory follows the policy ----------

  function Keys(frames: seq<FramePage>): (r: seq<Key>)
    ensures |r| == |frames|
    ensures forall i :: 0 <= i < |frames| ==> r[i] == KeyOf(frames[i])
  {
    seq(|frames|, i requires 0 <= i < |frames| => KeyOf(frames[i]))
  }

  lemma KeysDistinct(m: Memory)
    requires Consistent(m)
    ensures Distinct(Keys(m.frames))
  {
    forall i, j | 0 <= i < j < |m.frames| ensures Keys(m.frames)[i] != Keys(m.frames)[j] { OneEntry(m, i, j); }
  }

  lemma ResidentIffListed(m: Memory, k: Key)
    requires Consistent(m)
    ensures Resident(m, k) <==> k in Keys(m.frames)
    ensures k in Keys(m.frames) ==> Listed(m.frames, k) && FrameIndex(m.frames, k) == KeyIndex(Keys(m.frames), k)
  {
    var ks := Keys(m.frames);
    if Resident(m, k) { assert ks[FrameIndex(m.frames, k)] == k; }
    if k in ks {
      var i := KeyIndex(ks, k);
      assert Backed(m, m.frames[i]);
      ListedAt(m.frames, i);
      OneEntry(m, i, FrameIndex(m.frames, k));
    }
  }

  /** A page is resident exactly when the policy lists it, and one use changes the list as the policy says. */
  lemma UseFollowsPolicy(m: Memory, k: Key, lru: bool)
    requires Consistent(m) && m.frames != [] && HasPage(m, k)
    ensures Resident(m, k) <==> k in Keys(m.frames)
    ensures Keys(Use(m, k, lru).frames) == Touch(Keys(m.frames), k, lru)
  {
    ResidentIffListed(m, k);
    if Resident(m, k) { PromoteKeys(m, k); } else { assert Backed(m, m.frames[0]); FaultKeys(m, k); }
  }

  lemma PromoteKeys(m: Memory, k: Key)
    requires Listed(m.frames, k)
    ensures Keys(Promote(m, k).frames) == Remove(Keys(m.frames), FrameIndex(m.frames, k)) + [k]
  {}

  lemma FaultKeys(m: Memory, k: Key)
    requires m.frames != [] && HasPage(m, KeyOf(m.frames[0])) && HasPage(m, k)
    ensures Keys(Fault(m, k).frames) == Keys(m.frames)[1..] + [k]
  {}

  lemma UseKeepsPages(m: Memory, k: Key, lru: bool, x: Key)
    requires Consistent(m) && m.frames != [] && HasPage(m, k) && HasPage(m, x)
    ensures HasPage(Use(m, k, lru), x)
  {
    if !Resident(m, k) {
      assert Backed(m, m.frames[0]);
      FaultShape(m, k, x);
    }
  }

  ghost predicate Usable(m: Memory, refs: seq<Key>) {
    Consistent(m) && m.frames != [] && forall k :: k in refs ==> HasPage(m, k)
  }

  lemma UsableStep(m: Memory, refs: seq<Key>, lru: bool)
    requires Usable(m, refs) && refs != []
    ensures Usable(Use(m, refs[0], lru), refs[1..])
  {
    ApplyKeeps(m, Access(refs[0]), lru, 1);
    forall k | k in refs[1..] ensures HasPage(Use(m, refs[0], lru), k) { UseKeepsPages(m, refs[0], lru, k); }
  }

  ghost function UseAll(m: Memory, refs: seq<Key>, lru: bool): Memory
    requires Usable(m, refs)
    decreases |refs|
  {
    if refs == [] then m else
      UsableStep(m, refs, lru);
      UseAll(Use(m, refs[0], lru), refs[1..], lru)
  }

  /** How many of the references fault. */
  ghost function Faults(m: Memory, refs: seq<Key>, lru: bool): nat
    requires Usable(m, refs)
    decreases |refs|
  {
    if refs == [] then 0 else
      UsableStep(m, refs, lru);
      (if Resident(m, refs[0]) then 0 else 1) + Faults(Use(m, refs[0], lru), refs[1..], lru)
  }

  lemma {:induction false} RunFollowsPolicy(m: Memory, refs: seq<Key>, lru: bool)
    requires Usable(m, refs)
    ensures Consistent(UseAll(m, refs, lru))
    ensures Keys(UseAll(m, refs, lru).frames) == TouchAll(Keys(m.frames), refs, lru)
    ensures Faults(m, refs, lru) == Misses(Hits(Keys(m.frames), refs, lru))
    decreases |refs|
  {
    if refs == [] {
    } else {
      var n := Use(m, refs[0], lru);
      UsableStep(m, refs, lru);
      UseFollowsPolicy(m, refs[0], lru);
      RunFollowsPolicy(n, refs[1..], lru);
      assert Hits(Keys(m.frames), refs, lru)[1..] == Hits(Keys(n.frames), refs[1..], lru);
    }
  }

  // ---------- Main results about memories ----------

  /** More frames never fault more: two memories under LRU whose lists start one a suffix of the other. */
  lemma MoreFramesNeverFaultMore(m: Memory, n: Memory, refs: seq<Key>)
    requires Usable(m, refs) && Usable(n, refs)
    requires IsSuffix(Keys(m.frames), Keys(n.frames))
    ensures Faults(n, refs, true) <= Faults(m, refs, true)
    ensures forall k :: Resident(UseAll(m, refs, true), k) ==> Resident(UseAll(n, refs, true), k)
  {
    KeysDistinct(n);
    RunFollowsPolicy(m, refs, true);
    RunFollowsPolicy(n, refs, true);
    LruInclusion(Keys(m.frames), Keys(n.frames), refs);
    var a, b := UseAll(m, refs, true), UseAll(n, refs, true);
    forall k | Resident(a, k) ensures Resident(b, k) {
      ResidentIffListed(a, k);
      ResidentIffListed(b, k);
      var i := KeyIndex(Keys(a.frames), k);
      assert Keys(b.frames)[|b.frames| - |a.frames|..][i] == k;
    }
  }

  /** LRU victim: after any run of hits and faults the page the next fault evicts is the least recently used resident
      page; the initial list counts as used once, in order, before the run. */
  lemma LruVictim(m: Memory, refs: seq<Key>, k: Key)
    requires Usable(m, refs) && Resident(UseAll(m, refs, true), k)
    ensures var t := UseAll(m, refs, true); var h := Keys(m.frames) + refs;
      t.frames != [] && Ordered(Keys(t.frames), h) &&
      (k != KeyOf(t.frames[0]) ==> LastUse(h, KeyOf(t.frames[0])) < LastUse(h, k))
  {
    var l := Keys(m.frames);
    KeysDistinct(m);
    RunFollowsPolicy(m, refs, true);
    forall i, j | 0 <= i < j < |l| ensures LastUse(l, l[i]) < LastUse(l, l[j]) {
      LastUseAt(l, i);
      LastUseAt(l, j);
    }
    TouchAllOrdered(l, l, refs);
    var t := UseAll(m, refs, true);
    ResidentIffListed(t, k);
    var i := KeyIndex(Keys(t.frames), k);
    assert Keys(t.frames)[i] == k;
  }

  /** FIFO victim: without promotion the list is the latest loads in order, so the victim is the oldest loaded. */
  lemma FifoVictim(m: Memory, refs: seq<Key>)
    requires Usable(m, refs)
    ensures IsSuffix(Keys(UseAll(m, refs, false).frames), Loads(Keys(m.frames), Keys(m.frames), refs))
  {
    RunFollowsPolicy(m, refs, false);
    FifoIsLatestLoads(Keys(m.frames), Keys(m.frames), refs);
  }
}

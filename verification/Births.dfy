/** What a process was created with stays with it: path, quantum and client socket
    (kernel/src/handle_connection.c:345-371), through every queue and every handler. */
module Births {
  import opened Process
  import opened Accounting
  import opened KernelSpec
  import opened KernelInvariant

  /** Everybody queued or asleep outside exec. */
  predicate Elsewhere(s: State, p: Pcb) {
    p in s.newQ || p in s.readyQ || p in s.sleeping || exists i :: 0 <= i < |s.blocked| && p in s.blocked[i]
  }

  predicate Present(s: State, p: Pcb) { p in s.execQ || Elsewhere(s, p) }

  lemma PresentBelow(w: Weight, s: State, p: Pcb)
    requires Present(s, p)
    ensures W(w, p) <= Total(w, s)
  {
    if p in s.newQ { MemberBelow(w, s.newQ, p); }
    else if p in s.readyQ { MemberBelow(w, s.readyQ, p); }
    else if p in s.execQ { MemberBelow(w, s.execQ, p); }
    else if p in s.sleeping { MemberBelow(w, s.sleeping, p); }
    else {
      var i :| 0 <= i < |s.blocked| && p in s.blocked[i];
      MemberBelow(w, s.blocked[i], p);
      SumAllBelow(w, s.blocked, i);
    }
  }

  /** What the processes of a run are created with, in order. */
  function Created(es: seq<Event>): seq<Birth> {
    if es == [] then []
    else (if es[0].Create? then [Birth(es[0].path, es[0].quantum, es[0].socket)] else []) + Created(es[1..])
  }

  lemma StepNextId(s: State, e: Event)
    requires Inv(s) && Enabled(s, e) && Safe(s, e)
    ensures Next(s, e).nextId == s.nextId + if e.Create? then 1 else 0
  {
    hide Finish, Total, TagsMatch, PidsUnique, Conserved, SemaphoresMatch;
    match e {
      case CpuFinish(p) => FinishNextId(Refresh(s, p), p.pid);
      case CpuWait(p, r) => FinishNextId(Refresh(s, p), p.pid);
      case CpuSignal(p, r) => FinishNextId(Refresh(s, p), p.pid);
      case ConsoleFinish(pid) => FinishNextId(s, pid);
      case _ =>
    }
  }

  lemma FinishNextId(s: State, pid: int)
    requires Sized(s)
    ensures Finish(s, pid).nextId == s.nextId
  {
    hide WakeFrom, Extract, Settle;
    if Locate(s, pid) != Nowhere { FinishFields(s, pid); }
  }

  /** One step brings nobody in but the process it creates, with what it is created with. */
  lemma StepBirths(s: State, e: Event, first: int, births: seq<Birth>)
    requires Inv(s) && Enabled(s, e) && Safe(s, e) && Total(Stray(first, births), s) == 0
    requires e.Create? ==>
      first <= s.nextId < first + |births| && births[s.nextId - first] == Birth(e.path, e.quantum, e.socket)
    ensures Total(Stray(first, births), Next(s, e)) == 0
  {
    hide Total, Next, Locate, Received, Inv, Loss;
    StepTotal(Stray(first, births), s, e);
    assert Gain(Stray(first, births), s, e) == 0;
  }

  lemma {:induction false} RunBirths(s: State, es: seq<Event>, t: State, first: int, before: seq<Birth>)
    requires Inv(s) && Runs(s, es, t) && s.nextId == first + |before|
    requires Total(Stray(first, before + Created(es)), s) == 0
    ensures Inv(t) && t.nextId == first + |before + Created(es)|
    ensures Total(Stray(first, before + Created(es)), t) == 0
    decreases |es|
  {
    hide Inv, Total, Next;
    if es == [] {
    } else {
      var e := es[0];
      HandlerInv(s, e);
      StepNextId(s, e);
      StepBirths(s, e, first, before + Created(es));
      var so := before + if e.Create? then [Birth(e.path, e.quantum, e.socket)] else [];
      assert so + Created(es[1..]) == before + Created(es);
      RunBirths(Next(s, e), es[1..], t, first, so);
    }
  }

  lemma StrayFree(cfg: Config, first: int, es: seq<Event>, t: State)
    requires GoodConfig(cfg) && Runs(Init(cfg, first), es, t)
    ensures Total(Stray(first, Created(es)), t) == 0 && t.nextId == first + |Created(es)|
  {
    hide Inv, Total, Runs, Created, GoodConfig, OnePlace;
    InitInv(cfg, first);
    InitTotal(Stray(first, Created(es)), cfg, first);
    assert [] + Created(es) == Created(es);
    RunBirths(Init(cfg, first), es, t, first, []);
  }

  /** Main result: after any run from start-up, the record of every process, wherever it is, still has the path, the
      quantum and the socket it was created with; the n-th process created got the n-th pid. */
  lemma CreatedForLife(cfg: Config, first: int, es: seq<Event>, t: State)
    requires GoodConfig(cfg) && Runs(Init(cfg, first), es, t)
    ensures t.nextId == first + |Created(es)|
    ensures forall p :: Present(t, p) ==>
      && first <= p.pid < t.nextId && p.size == 0 && p.tablePages == 0
      && Birth(p.path, p.quantum, p.clientSocket) == Created(es)[p.pid - first]
  {
    hide Total, Runs, Present, Created, GoodConfig;
    StrayFree(cfg, first, es, t);
    forall p | Present(t, p)
      ensures Bears(p, first, Created(es))
    {
      BearsAll(t, p, first, Created(es));
    }
  }

  lemma BearsAll(t: State, p: Pcb, first: int, births: seq<Birth>)
    requires Total(Stray(first, births), t) == 0 && Present(t, p)
    ensures Bears(p, first, births)
  {
    hide Total, Present;
    PresentBelow(Stray(first, births), t, p);
  }
}

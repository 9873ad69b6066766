/** The queue lock of benchmark/blocking/CLHQueueLock/clhqueue_lock_sc.cpp, one execution.

    Nodes are numbered: thread p starts with node p, and `common_node` is the node after the last.
    Every access to an atomic is one step.  `order` (the threads in the order of their exchanges), `served`
    (how many have unlocked), `entered` and `at` are history variables. */
module ClhLock {
  import opened SetFacts

  datatype Pc = Idle | Exchange | Spin | Critical | Handover

  datatype Thread = Thread(pc: Pc, myNode: nat, myPred: nat, at: nat)

  datatype State = State(
    locked: seq<bool>, tail: nat, threads: seq<Thread>, order: seq<nat>, served: nat, entered: seq<nat>)

  datatype Action = SetLocked | SwapTail | Poll | ClearLocked | TakePred

  ghost predicate Init(s: State) {
    && |s.locked| == |s.threads| + 1
    && s.tail == |s.threads| && !s.locked[|s.threads|]
    && s.order == [] && s.served == 0 && s.entered == []
    && forall p | 0 <= p < |s.threads| :: s.threads[p].pc.Idle? && s.threads[p].myNode == p
  }

  ghost predicate Step(s: State, s': State, p: nat, a: Action) {
    && p < |s.threads|
    && var t := s.threads[p];
       match a
       case SetLocked =>
         t.pc.Idle? && t.myNode < |s.locked|
         && s' == s.(locked := s.locked[t.myNode := true], threads := s.threads[p := t.(pc := Exchange)])
       case SwapTail =>
         t.pc.Exchange?
         && s' == s.(tail := t.myNode, order := s.order + [p],
                     threads := s.threads[p := t.(pc := Spin, myPred := s.tail, at := |s.order|)])
       case Poll =>
         t.pc.Spin? && t.myPred < |s.locked|
         && s' == if s.locked[t.myPred] then s
                  else s.(threads := s.threads[p := t.(pc := Critical)], entered := s.entered + [p])
       case ClearLocked =>
         t.pc.Critical? && t.myNode < |s.locked|
         && s' == s.(locked := s.locked[t.myNode := false], served := s.served + 1,
                     threads := s.threads[p := t.(pc := Handover)])
       case TakePred =>
         t.pc.Handover? && s' == s.(threads := s.threads[p := t.(pc := Idle, myNode := t.myPred)])
  }

  ghost predicate IsRun(r: seq<State>, who: seq<nat>, acts: seq<Action>) {
    && |r| > 0 && |who| == |acts| == |r| - 1
    && Init(r[0])
    && (forall i | 0 <= i < |who| :: Step(r[i], r[i + 1], who[i], acts[i]))
  }

  // ------------------------------------------------------------ invariant

  predicate Queued(pc: Pc) { pc.Spin? || pc.Critical? }

  /** The node a thread will use next; during the hand-over that is already its predecessor's. */
  function NodeOf(t: Thread): nat { if t.pc.Handover? then t.myPred else t.myNode }

  /** The node no thread owns: the one the head of the queue polls, or the tail. */
  function Spare(s: State): nat {
    if s.served < |s.order| && s.order[s.served] < |s.threads| then s.threads[s.order[s.served]].myPred else s.tail
  }

  ghost predicate ThreadOk(s: State, p: nat)
    requires p < |s.threads|
  {
    var t := s.threads[p];
    && NodeOf(t) < |s.locked| && NodeOf(t) != Spare(s)
    && (Queued(t.pc) ==> s.served <= t.at < |s.order| && s.order[t.at] == p && s.locked[t.myNode])
    && (t.pc.Exchange? ==> s.locked[t.myNode])
    && (t.pc.Critical? ==> t.at == s.served)
  }

  /** The entries of the queue are queued threads, each spinning on the node of the one before. */
  ghost predicate EntryOk(s: State, i: nat)
    requires i < |s.order|
  {
    && s.order[i] < |s.threads|
    && var t := s.threads[s.order[i]];
       && (s.served <= i ==> Queued(t.pc) && t.at == i)
       && (s.served < i ==> s.order[i - 1] < |s.threads| && t.myPred == s.threads[s.order[i - 1]].myNode)
       && (s.served <= i == |s.order| - 1 ==> s.tail == t.myNode)
  }

  ghost predicate EnteredOk(s: State) {
    && s.served <= |s.entered| <= s.served + 1 && s.entered <= s.order
    && (|s.entered| == s.served + 1 <==>
          s.served < |s.order| && s.order[s.served] < |s.threads| && s.threads[s.order[s.served]].pc.Critical?)
  }

  ghost predicate Inv(s: State) {
    && |s.locked| == |s.threads| + 1 && s.served <= |s.order|
    && Spare(s) < |s.locked| && !s.locked[Spare(s)]
    && EnteredOk(s)
    && (forall p | 0 <= p < |s.threads| :: ThreadOk(s, p))
    && (forall p, q | 0 <= p < q < |s.threads| :: NodeOf(s.threads[p]) != NodeOf(s.threads[q]))
    && (forall i | 0 <= i < |s.order| :: EntryOk(s, i))
  }

  // ------------------------------------------------------------ every step keeps it

  /** The head of the queue is queued, at the front. */
  lemma Head(s: State)
    requires Inv(s) && s.served < |s.order|
    ensures s.order[s.served] < |s.threads|
    ensures var t := s.threads[s.order[s.served]]; Queued(t.pc) && t.at == s.served && Spare(s) == t.myPred
  {
    assert EntryOk(s, s.served);
  }

  /** A queued thread that is not at the head polls a locked node. */
  lemma WaitsOnLocked(s: State, p: nat)
    requires Inv(s) && p < |s.threads| && Queued(s.threads[p].pc) && s.threads[p].at != s.served
    ensures s.threads[p].myPred < |s.locked| && s.locked[s.threads[p].myPred]
  {
    assert ThreadOk(s, p);
    var i := s.threads[p].at;
    assert EntryOk(s, i) && EntryOk(s, i - 1);
    assert ThreadOk(s, s.order[i - 1]);
  }

  lemma SetLockedInv(s: State, s': State, p: nat)
    requires Inv(s) && Step(s, s', p, SetLocked)
    ensures Inv(s')
  {
    assert ThreadOk(s, p);
    if s.served < |s.order| {
      Head(s);
    }
    assert Spare(s') == Spare(s);
    forall i | 0 <= i < |s'.order|
      ensures EntryOk(s', i)
    {
      assert EntryOk(s, i);
      if i > 0 {
        assert EntryOk(s, i - 1);
      }
    }
    hide EntryOk;
    forall q | 0 <= q < |s.threads|
      ensures ThreadOk(s', q)
    {
      assert ThreadOk(s, q);
    }
    hide ThreadOk;
  }

  lemma SwapTailInv(s: State, s': State, p: nat)
    requires Inv(s) && Step(s, s', p, SwapTail)
    ensures Inv(s')
  {
    assert ThreadOk(s, p);
    if s.served < |s.order| {
      Head(s);
      assert s'.order[s.served] == s.order[s.served];
      assert EntryOk(s, |s.order| - 1);
    }
    assert Spare(s') == Spare(s);
    forall i | 0 <= i < |s'.order|
      ensures EntryOk(s', i)
    {
      if i < |s.order| {
        assert EntryOk(s, i) && s'.order[i] == s.order[i];
      }
      if i > 0 {
        assert EntryOk(s, i - 1) && s'.order[i - 1] == s.order[i - 1];
      }
    }
    hide EntryOk;
    forall q | 0 <= q < |s.threads|
      ensures ThreadOk(s', q)
    {
      assert ThreadOk(s, q);
    }
    hide ThreadOk;
  }

  lemma PollInv(s: State, s': State, p: nat)
    requires Inv(s) && Step(s, s', p, Poll)
    ensures Inv(s')
  {
    if s' != s {
      assert ThreadOk(s, p);
      if s.threads[p].at != s.served {
        WaitsOnLocked(s, p);
        assert false;
      }
      Head(s);
      forall i | 0 <= i < |s'.order|
        ensures EntryOk(s', i)
      {
        assert EntryOk(s, i);
      }
      hide EntryOk;
      forall q | 0 <= q < |s.threads|
        ensures ThreadOk(s', q)
      {
        assert ThreadOk(s, q);
      }
      hide ThreadOk;
    }
  }

  lemma ClearLockedInv(s: State, s': State, p: nat)
    requires Inv(s) && Step(s, s', p, ClearLocked)
    ensures Inv(s')
  {
    assert ThreadOk(s, p);
    Head(s);
    assert EntryOk(s, s.served);
    if s.served + 1 < |s.order| {
      assert EntryOk(s, s.served + 1);
      assert ThreadOk(s, s.order[s.served + 1]);
    }
    assert EnteredOk(s');
    assert Spare(s') == s.threads[p].myNode;
    forall i | 0 <= i < |s'.order|
      ensures EntryOk(s', i)
    {
      assert EntryOk(s, i);
      if i > 0 {
        assert EntryOk(s, i - 1);
      }
    }
    hide EntryOk;
    forall q | 0 <= q < |s.threads|
      ensures ThreadOk(s', q)
    {
      assert ThreadOk(s, q);
    }
    forall q | 0 <= q < |s.threads| && q != p
      ensures NodeOf(s'.threads[q]) != NodeOf(s'.threads[p])
    {
      assert ThreadOk(s, q);
    }
    hide ThreadOk;
  }

  lemma TakePredInv(s: State, s': State, p: nat)
    requires Inv(s) && Step(s, s', p, TakePred)
    ensures Inv(s')
  {
    if s.served < |s.order| {
      Head(s);
    }
    forall i | 0 <= i < |s'.order|
      ensures EntryOk(s', i)
    {
      assert EntryOk(s, i);
      if i > 0 {
        assert EntryOk(s, i - 1);
      }
    }
    hide EntryOk;
    forall q | 0 <= q < |s.threads|
      ensures ThreadOk(s', q)
    {
      assert ThreadOk(s, q);
    }
    hide ThreadOk;
  }

  lemma StepInv(s: State, s': State, p: nat, a: Action)
    requires Inv(s) && Step(s, s', p, a)
    ensures Inv(s')
  {
    hide Inv;
    match a
    case SetLocked => SetLockedInv(s, s', p);
    case SwapTail => SwapTailInv(s, s', p);
    case Poll => PollInv(s, s', p);
    case ClearLocked => ClearLockedInv(s, s', p);
    case TakePred => TakePredInv(s, s', p);
  }

  lemma InitInv(s: State)
    requires Init(s)
    ensures Inv(s)
  {
  }

  lemma {:induction false} RunInv(r: seq<State>, who: seq<nat>, acts: seq<Action>, i: nat)
    requires IsRun(r, who, acts) && i < |r|
    ensures Inv(r[i])
  {
    hide Step, Inv;
    if i == 0 {
      InitInv(r[0]);
    } else {
      RunInv(r, who, acts, i - 1);
      assert Step(r[i - 1], r[i], who[i - 1], acts[i - 1]);
      StepInv(r[i - 1], r[i], who[i - 1], acts[i - 1]);
    }
  }

  /** Any number of threads may start. */
  lemma CanStart(n: nat) returns (s: State)
    ensures |s.threads| == n && IsRun([s], [], [])
  {
    s := State(seq(n + 1, i => false), n, seq(n, p requires 0 <= p < n => Thread(Idle, p, 0, 0)), [], 0, []);
  }

  // ------------------------------------------------------------ what it promises

  lemma MutualExclusion(r: seq<State>, who: seq<nat>, acts: seq<Action>, i: nat, p: nat, q: nat)
    requires IsRun(r, who, acts) && i < |r| && p < |r[i].threads| && q < |r[i].threads|
    requires r[i].threads[p].pc.Critical? && r[i].threads[q].pc.Critical?
    ensures p == q
  {
    RunInv(r, who, acts, i);
    assert ThreadOk(r[i], p) && ThreadOk(r[i], q);
    hide Step, Init;
  }

  /** The exchanges on `tail` made by the first `i` steps, and the entries into the critical section. */
  ghost function Events(r: seq<State>, who: seq<nat>, acts: seq<Action>, i: nat, kind: Action): seq<nat>
    requires i <= |who| == |acts| && |r| == |who| + 1
  {
    if i == 0 then [] else
      Events(r, who, acts, i - 1, kind)
      + if acts[i - 1] == kind && (kind.Poll? ==> r[i] != r[i - 1]) then [who[i - 1]] else []
  }

  lemma {:induction false} EventsRecorded(r: seq<State>, who: seq<nat>, acts: seq<Action>, i: nat)
    requires IsRun(r, who, acts) && i < |r|
    ensures Events(r, who, acts, i, SwapTail) == r[i].order && Events(r, who, acts, i, Poll) == r[i].entered
  {
    if i > 0 {
      EventsRecorded(r, who, acts, i - 1);
      assert Step(r[i - 1], r[i], who[i - 1], acts[i - 1]);
      EventStep(r[i - 1], r[i], who[i - 1], acts[i - 1]);
      hide Step, IsRun;
    }
  }

  lemma EventStep(s: State, s': State, p: nat, a: Action)
    requires Step(s, s', p, a)
    ensures s'.order == s.order + if a == SwapTail then [p] else []
    ensures s'.entered == s.entered + if a == Poll && s' != s then [p] else []
  {
    assert s.threads[p].pc.Spin? ==> Critical != s.threads[p].pc;
  }

  /** Critical sections are entered in the order of the exchanges on `tail`. */
  lemma FirstComeFirstServed(r: seq<State>, who: seq<nat>, acts: seq<Action>, i: nat)
    requires IsRun(r, who, acts) && i < |r|
    ensures Events(r, who, acts, i, Poll) <= Events(r, who, acts, i, SwapTail)
  {
    RunInv(r, who, acts, i);
    EventsRecorded(r, who, acts, i);
    hide IsRun, ThreadOk, EntryOk;
  }

  /** A node about to be locked is not the tail, no other thread owns it, and none is polling it. */
  lemma LocksOwnNode(s: State, p: nat, q: nat)
    requires Inv(s) && p < |s.threads| && q < |s.threads| && p != q && s.threads[p].pc.Idle?
    ensures s.threads[p].myNode != s.tail && s.threads[p].myNode != NodeOf(s.threads[q])
    ensures s.threads[q].pc.Spin? ==> s.threads[p].myNode != s.threads[q].myPred
  {
    assert ThreadOk(s, p) && ThreadOk(s, q);
    if s.served < |s.order| {
      assert EntryOk(s, |s.order| - 1);
      Head(s);
    }
    if s.threads[q].pc.Spin? {
      var i := s.threads[q].at;
      assert EntryOk(s, i);
      if i > s.served {
        assert EntryOk(s, i - 1);
      }
    }
    hide ThreadOk, EntryOk;
  }

  /** The nodes in use: those of the first `n` threads, and the spare one. */
  ghost function Nodes(s: State, n: nat): set<nat>
    requires n <= |s.threads|
  {
    if n == 0 then {Spare(s)} else Nodes(s, n - 1) + {NodeOf(s.threads[n - 1])}
  }

  lemma {:induction false} NodesCount(s: State, n: nat)
    requires Inv(s) && n <= |s.threads|
    ensures |Nodes(s, n)| == n + 1
    ensures forall x | x in Nodes(s, n) ::
              x < |s.locked| && (x == Spare(s) || exists p | 0 <= p < n :: NodeOf(s.threads[p]) == x)
  {
    if n > 0 {
      NodesCount(s, n - 1);
      assert ThreadOk(s, n - 1);
      hide ThreadOk, EntryOk, EnteredOk;
      var x := NodeOf(s.threads[n - 1]);
      assert x !in Nodes(s, n - 1);
      assert |Nodes(s, n)| == |Nodes(s, n - 1)| + 1;
    }
  }

  /** The n + 1 nodes stay a permutation: each belongs to one thread, or is the spare one. */
  lemma NodesArePermutation(r: seq<State>, who: seq<nat>, acts: seq<Action>, i: nat)
    requires IsRun(r, who, acts) && i < |r|
    ensures Nodes(r[i], |r[i].threads|) == Numbers(|r[i].threads| + 1)
  {
    var s := r[i];
    RunInv(r, who, acts, i);
    NodesCount(s, |s.threads|);
    hide IsRun, EntryOk, EnteredOk, ThreadOk, Nodes;
    SameSize(Nodes(s, |s.threads|), Numbers(|s.threads| + 1));
  }

  // ------------------------------------------------------------ getting on

  /** The steps left of a lock and unlock, if there is nothing to wait for. */
  function Left(pc: Pc): nat {
    match pc
    case Idle => 0
    case Handover => 1
    case Critical => 2
    case Spin => 3
    case Exchange => 4
  }

  predicate Blocked(s: State, p: nat)
    requires p < |s.threads|
  {
    var t := s.threads[p];
    t.pc.Spin? && t.myPred < |s.locked| && s.locked[t.myPred]
  }

  /** A step of a thread that polls a locked node changes nothing, and every other step in a lock and unlock is one
      less to do. */
  lemma StepGetsOn(s: State, s': State, p: nat, a: Action)
    requires Step(s, s', p, a) && !s.threads[p].pc.Idle?
    ensures if Blocked(s, p) then s' == s
            else |s'.threads| == |s.threads| && Left(s'.threads[p].pc) == Left(s.threads[p].pc) - 1
  {
  }

  /** Every thread has a step; one that is in no call may lock. */
  lemma HasStep(s: State, p: nat) returns (s': State, a: Action)
    requires Inv(s) && p < |s.threads|
    ensures Step(s, s', p, a) && (s.threads[p].pc.Idle? ==> a == SetLocked && s'.threads[p].pc.Exchange?)
  {
    var t := s.threads[p];
    assert ThreadOk(s, p);
    if t.pc.Spin? {
      assert EntryOk(s, t.at);
      if t.at != s.served {
        WaitsOnLocked(s, p);
      } else {
        Head(s);
      }
    }
    hide Inv;
    match t.pc
    case Idle =>
      a := SetLocked;
      s' := s.(locked := s.locked[t.myNode := true], threads := s.threads[p := t.(pc := Exchange)]);
    case Exchange =>
      a := SwapTail;
      s' := s.(tail := t.myNode, order := s.order + [p],
               threads := s.threads[p := t.(pc := Spin, myPred := s.tail, at := |s.order|)]);
    case Spin =>
      a := Poll;
      s' := if s.locked[t.myPred] then s
            else s.(threads := s.threads[p := t.(pc := Critical)], entered := s.entered + [p]);
    case Critical =>
      a := ClearLocked;
      s' := s.(locked := s.locked[t.myNode := false], served := s.served + 1,
               threads := s.threads[p := t.(pc := Handover)]);
    case Handover => a := TakePred; s' := s.(threads := s.threads[p := t.(pc := Idle, myNode := t.myPred)]);
  }

  /** In every run, if somebody is queued, the head of the queue does not poll a locked node, and has a step that
      brings it on: no deadlock. */
  lemma HeadGoes(r: seq<State>, who: seq<nat>, acts: seq<Action>, i: nat) returns (p: nat, s': State, a: Action)
    requires IsRun(r, who, acts) && i < |r| && r[i].served < |r[i].order|
    ensures p < |r[i].threads| == |s'.threads| && Queued(r[i].threads[p].pc) && r[i].threads[p].at == r[i].served
    ensures Step(r[i], s', p, a) && Left(s'.threads[p].pc) == Left(r[i].threads[p].pc) - 1
  {
    var s := r[i];
    RunInv(r, who, acts, i);
    Head(s);
    p := s.order[s.served];
    assert !Blocked(s, p);
    hide IsRun, Inv, Step;
    s', a := HasStep(s, p);
    StepGetsOn(s, s', p, a);
  }
}

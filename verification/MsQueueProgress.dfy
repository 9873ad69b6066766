/** Lock freedom: a thread goes round its loop again only because another thread has got on meanwhile, and no call
    is ever stuck.

    What a thread has `Loaded` is followed back through the run to the step that loaded it (`LoadStep`), with the
    index in link order that it stands for. If a retry finds it out of date, that index has been passed since
    (`ChangeStep`), and not by the thread itself, which would have left its loop (`OutdatedByOther`).

    Every step that does not go round the loop is one less in the call (`Left`), and from what the invariant says
    of each place in the code there always is a step (`EnqHasStep`, `LoadHasStep`, `CheckHasStep`,
    `DeqHasStep`). */
module MsQueueProgress {
  import opened MsQueue
  import opened MsQueueProof
  import opened MsQueueFifo
  import opened MsQueueCalls

  // ------------------------------------------------------------ what a retry says about its state

  lemma EnqueueRetryState(s: State, s': State, p: nat, a: Action)
    requires Inv(s) && !s.weak && Step(s, s', p, a)
    ensures a.LinkFail? ==> s.threads[p].pc.li + 1 < |s.order|
    ensures a.HelpFail? ==> s.threads[p].pc.li < s.l
    ensures a.ReloadLast? && s'.threads[p].pc.EnqLast? ==> s.threads[p].pc.li < s.l
  {
    if a.LinkFail? || a.HelpFail? || a.ReloadLast? {
      assert PcOk(s, p);
      hide PcOk;
    } else {
      hide Inv;
    }
  }

  lemma DequeueRetryState(s: State, s': State, p: nat, a: Action)
    requires Inv(s) && !s.weak && Step(s, s', p, a)
    ensures a.TakeFail? ==> s.threads[p].pc.fi < s.f
    ensures a.DeqHelpFail? ==> s.threads[p].pc.li < s.l
    ensures a.DeqReload? && s'.threads[p].pc.DeqFirst? ==> s.threads[p].pc.fi < s.f
  {
    if a.TakeFail? || a.DeqHelpFail? || a.DeqReload? {
      assert PcOk(s, p);
      hide PcOk;
    } else {
      hide Inv;
    }
  }

  // ------------------------------------------------------------ what the thread loaded, and when

  /** The thread has loaded what `loaded` is about and not yet begun its loop again. */
  datatype Loaded = LastForEnqueue | NextForEnqueue | FirstForDequeue | LastForDequeue

  predicate Has(pc: Pc, loaded: Loaded) {
    match loaded
    case LastForEnqueue => pc.EnqNext? || pc.EnqCheck? || pc.EnqLink? || pc.EnqHelp?
    case NextForEnqueue => (pc.EnqCheck? && pc.next == NULL) || pc.EnqLink?
    case FirstForDequeue => pc.DeqLast? || pc.DeqNext? || pc.DeqCheck? || pc.DeqRead? || pc.DeqCas?
    case LastForDequeue => pc.DeqNext? || pc.DeqCheck? || pc.DeqHelp?
  }

  predicate Loads(a: Action, loaded: Loaded) {
    match loaded
    case LastForEnqueue => a.LoadLast?
    case NextForEnqueue => a.LoadNext?
    case FirstForDequeue => a.DeqLoadFirst?
    case LastForDequeue => a.DeqLoadLast?
  }

  /** The steps that make what was loaded out of date. */
  predicate Outdates(a: Action, loaded: Loaded) {
    match loaded
    case LastForEnqueue => Swings(a)
    case NextForEnqueue => a.LinkOk?
    case FirstForDequeue => a.TakeOk?
    case LastForDequeue => Swings(a)
  }

  /** The index in link order that was loaded. */
  function IndexOf(pc: Pc, loaded: Loaded): nat
    requires Has(pc, loaded)
  {
    match loaded
    case LastForEnqueue => pc.li
    case NextForEnqueue => pc.li
    case FirstForDequeue => pc.fi
    case LastForDequeue => pc.li
  }

  /** And the index that a load would see now. */
  function Current(s: State, loaded: Loaded): int {
    match loaded
    case LastForEnqueue => s.l
    case NextForEnqueue => |s.order| - 1
    case FirstForDequeue => s.f
    case LastForDequeue => s.l
  }

  /** The last step of `p` in the attempt was the load, or the attempt was under way before. */
  ghost predicate LoadedBefore(s: State, s': State, q: nat, a: Action, p: nat, loaded: Loaded) {
    p < |s'.threads| && Has(s'.threads[p].pc, loaded) ==>
      && p < |s.threads|
      && var i := IndexOf(s'.threads[p].pc, loaded);
         || (q == p && Loads(a, loaded) && Current(s, loaded) <= i)
         || (Has(s.threads[p].pc, loaded) && IndexOf(s.threads[p].pc, loaded) == i && !(q == p && Outdates(a, loaded)))
  }

  lemma LoadNextBefore(s: State, s': State, p: nat)
    requires ListOk(s) && p < |s.threads| && PcOk(s, p) && Step(s, s', p, LoadNext)
    ensures LoadedBefore(s, s', p, LoadNext, p, NextForEnqueue)
  {
    var pc := s.threads[p].pc;
    if pc.li + 1 < |s.order| {
      NextOf(s, pc.li);
    }
  }

  lemma ReloadLastBefore(s: State, s': State, p: nat)
    requires ListOk(s) && p < |s.threads| && PcOk(s, p) && Step(s, s', p, ReloadLast)
    ensures LoadedBefore(s, s', p, ReloadLast, p, NextForEnqueue)
  {
  }

  lemma EnqLoadedBefore(s: State, s': State, p: nat, a: Action, loaded: Loaded)
    requires Step(s, s', p, a) && EnqStep(a) && (loaded.NextForEnqueue? ==> !a.LoadNext? && !a.ReloadLast?)
    ensures LoadedBefore(s, s', p, a, p, loaded)
  {
  }

  lemma DeqLoadedBefore(s: State, s': State, p: nat, a: Action, loaded: Loaded)
    requires Step(s, s', p, a) && !EnqStep(a)
    ensures LoadedBefore(s, s', p, a, p, loaded)
  {
  }

  lemma StepLoadedBefore(s: State, s': State, q: nat, a: Action, p: nat, loaded: Loaded)
    requires Inv(s) && Step(s, s', q, a)
    ensures LoadedBefore(s, s', q, a, p, loaded)
  {
    hide Inv, Step, PcOk, ListOk, EnqStep;
    StepThreads(s, s', q, a);
    if p != q {
      StaysStill(s, s', q, a, p);
    } else if loaded.NextForEnqueue? && a.LoadNext? {
      InvParts(s, p);
      LoadNextBefore(s, s', p);
    } else if loaded.NextForEnqueue? && a.ReloadLast? {
      InvParts(s, p);
      ReloadLastBefore(s, s', p);
    } else if EnqStep(a) {
      EnqLoadedBefore(s, s', p, a, loaded);
    } else {
      DeqLoadedBefore(s, s', p, a, loaded);
    }
  }

  /** `p` loaded at step `j` and has been in the same attempt since, up to state `i`. */
  ghost predicate LoadedAt(r: seq<State>, who: seq<nat>, acts: seq<Action>, j: nat, i: nat, p: nat, loaded: Loaded)
    requires |who| == |acts|
  {
    && j < i < |r| && i <= |who| && who[j] == p && Loads(acts[j], loaded)
    && (forall k | j < k <= i :: p < |r[k].threads| && Has(r[k].threads[p].pc, loaded))
    && (forall k | j <= k < i :: !(who[k] == p && Outdates(acts[k], loaded)))
  }

  lemma {:induction false} LoadStep(r: seq<State>, who: seq<nat>, acts: seq<Action>, i: nat, p: nat, loaded: Loaded)
    returns (j: nat)
    requires IsRun(r, who, acts) && i < |r| && p < |r[i].threads| && Has(r[i].threads[p].pc, loaded)
    ensures LoadedAt(r, who, acts, j, i, p, loaded) && Current(r[j], loaded) <= IndexOf(r[i].threads[p].pc, loaded)
    decreases i
  {
    hide Step, Inv, Has, Loads, Outdates, Current, IndexOf, LoadedAt;
    StartsIdle(r, who, acts, p, loaded);
    RunInv(r, who, acts, i - 1);
    assert Step(r[i - 1], r[i], who[i - 1], acts[i - 1]);
    StepLoadedBefore(r[i - 1], r[i], who[i - 1], acts[i - 1], p, loaded);
    var index := IndexOf(r[i].threads[p].pc, loaded);
    if who[i - 1] == p && Loads(acts[i - 1], loaded) && Current(r[i - 1], loaded) <= index {
      j := i - 1;
      LoadedHere(r, who, acts, i, p, loaded);
    } else {
      j := LoadStep(r, who, acts, i - 1, p, loaded);
      hide IsRun;
      LoadedMore(r, who, acts, j, i, p, loaded);
    }
  }

  lemma LoadedHere(r: seq<State>, who: seq<nat>, acts: seq<Action>, i: nat, p: nat, loaded: Loaded)
    requires |who| == |acts| && 0 < i < |r| && i <= |who| && who[i - 1] == p && Loads(acts[i - 1], loaded)
    requires p < |r[i].threads| && Has(r[i].threads[p].pc, loaded)
    ensures LoadedAt(r, who, acts, i - 1, i, p, loaded)
  {
  }

  lemma LoadedMore(r: seq<State>, who: seq<nat>, acts: seq<Action>, j: nat, i: nat, p: nat, loaded: Loaded)
    requires |who| == |acts| && 0 < i < |r| && i <= |who| && LoadedAt(r, who, acts, j, i - 1, p, loaded)
    requires p < |r[i].threads| && Has(r[i].threads[p].pc, loaded)
    requires !(who[i - 1] == p && Outdates(acts[i - 1], loaded))
    ensures LoadedAt(r, who, acts, j, i, p, loaded)
  {
    hide Has, Loads, Outdates;
  }

  lemma StartsIdle(r: seq<State>, who: seq<nat>, acts: seq<Action>, p: nat, loaded: Loaded)
    requires IsRun(r, who, acts)
    ensures p < |r[0].threads| ==> !Has(r[0].threads[p].pc, loaded)
  {
  }

  lemma OnlyThatOutdates(s: State, s': State, q: nat, a: Action, loaded: Loaded)
    requires Step(s, s', q, a) && !Outdates(a, loaded)
    ensures Current(s', loaded) == Current(s, loaded)
  {
  }

  lemma {:induction false} ChangeStep(r: seq<State>, who: seq<nat>, acts: seq<Action>, j: nat, i: nat, loaded: Loaded)
    returns (k: nat)
    requires IsRun(r, who, acts) && j <= i < |r| && Current(r[j], loaded) < Current(r[i], loaded)
    ensures j <= k < i && Outdates(acts[k], loaded)
    decreases i
  {
    hide Step, Outdates, Current;
    assert Step(r[i - 1], r[i], who[i - 1], acts[i - 1]);
    if Outdates(acts[i - 1], loaded) {
      k := i - 1;
    } else {
      OnlyThatOutdates(r[i - 1], r[i], who[i - 1], acts[i - 1], loaded);
      k := ChangeStep(r, who, acts, j, i - 1, loaded);
    }
  }

  /** Between the load of `p` and state `i`, in which it is out of date, another thread has made it so. */
  lemma OutdatedByOther(r: seq<State>, who: seq<nat>, acts: seq<Action>, i: nat, p: nat, loaded: Loaded)
    returns (j: nat, k: nat)
    requires IsRun(r, who, acts) && i < |r| && p < |r[i].threads| && Has(r[i].threads[p].pc, loaded)
    requires IndexOf(r[i].threads[p].pc, loaded) < Current(r[i], loaded)
    ensures LoadedAt(r, who, acts, j, i, p, loaded)
    ensures j < k < i && who[k] != p && Outdates(acts[k], loaded)
  {
    hide Has, Loads, Outdates, Current, IndexOf, IsRun;
    j := LoadStep(r, who, acts, i, p, loaded);
    k := ChangeStep(r, who, acts, j, i, loaded);
  }

  // ------------------------------------------------------------ retries

  predicate EnqueueRetry(s: State, s': State, p: nat, a: Action)
    requires p < |s'.threads|
  {
    a.LinkFail? || a.HelpFail? || (a.ReloadLast? && s'.threads[p].pc.EnqLast?)
  }

  predicate DequeueRetry(s: State, s': State, p: nat, a: Action)
    requires p < |s'.threads|
  {
    a.TakeFail? || a.DeqHelpFail? || (a.DeqReload? && s'.threads[p].pc.DeqFirst?)
  }

  lemma RetryOutdated(s: State, s': State, p: nat, a: Action)
    requires Inv(s) && !s.weak && Step(s, s', p, a) && p < |s'.threads|
    ensures p < |s.threads|
    ensures EnqueueRetry(s, s', p, a) ==>
              var loaded := if a.LinkFail? then NextForEnqueue else LastForEnqueue;
              Has(s.threads[p].pc, loaded) && IndexOf(s.threads[p].pc, loaded) < Current(s, loaded)
    ensures DequeueRetry(s, s', p, a) ==>
              var loaded := if a.DeqHelpFail? then LastForDequeue else FirstForDequeue;
              Has(s.threads[p].pc, loaded) && IndexOf(s.threads[p].pc, loaded) < Current(s, loaded)
  {
    StepThreads(s, s', p, a);
    EnqueueRetryState(s, s', p, a);
    DequeueRetryState(s, s', p, a);
    hide Inv;
  }

  /** With a strong compare-and-exchange an enqueuer that tries again has been overtaken: since it loaded the
      word that turned out to have changed, in this very attempt, another thread has linked a node, or
      swung `last`. */
  lemma EnqueueRetries(r: seq<State>, who: seq<nat>, acts: seq<Action>, i: nat) returns (j: nat, k: nat)
    requires IsRun(r, who, acts) && !r[0].weak && i < |who|
    requires who[i] < |r[i + 1].threads| && EnqueueRetry(r[i], r[i + 1], who[i], acts[i])
    ensures LoadedAt(r, who, acts, j, i, who[i], if acts[i].LinkFail? then NextForEnqueue else LastForEnqueue)
    ensures j < k < i && who[k] != who[i] && (if acts[i].LinkFail? then acts[k].LinkOk? else Swings(acts[k]))
  {
    hide Inv, Step, Has, IndexOf, EnqueueRetry, DequeueRetry, Current;
    RunInv(r, who, acts, i);
    WeakKept(r, who, acts, i);
    assert Step(r[i], r[i + 1], who[i], acts[i]);
    RetryOutdated(r[i], r[i + 1], who[i], acts[i]);
    j, k := OutdatedByOther(r, who, acts, i, who[i], if acts[i].LinkFail? then NextForEnqueue else LastForEnqueue);
  }

  /** Likewise a dequeuer: another thread has taken an element, or swung `last`. */
  lemma DequeueRetries(r: seq<State>, who: seq<nat>, acts: seq<Action>, i: nat) returns (j: nat, k: nat)
    requires IsRun(r, who, acts) && !r[0].weak && i < |who|
    requires who[i] < |r[i + 1].threads| && DequeueRetry(r[i], r[i + 1], who[i], acts[i])
    ensures LoadedAt(r, who, acts, j, i, who[i], if acts[i].DeqHelpFail? then LastForDequeue else FirstForDequeue)
    ensures j < k < i && who[k] != who[i] && (if acts[i].DeqHelpFail? then Swings(acts[k]) else acts[k].TakeOk?)
  {
    hide Inv, Step, Has, IndexOf, EnqueueRetry, DequeueRetry, Current;
    RunInv(r, who, acts, i);
    WeakKept(r, who, acts, i);
    assert Step(r[i], r[i + 1], who[i], acts[i]);
    RetryOutdated(r[i], r[i + 1], who[i], acts[i]);
    j, k := OutdatedByOther(r, who, acts, i, who[i], if acts[i].DeqHelpFail? then LastForDequeue else FirstForDequeue);
  }

  // ------------------------------------------------------------ getting on

  /** The steps a thread still has to take in its call, if it never goes round its loop. */
  function Left(pc: Pc): nat {
    match pc
    case Idle => 0
    case EnqReturn(_, _) => 1
    case EnqSwing(_, _, _) => 2
    case EnqLink(_, _, _, _) => 3
    case EnqHelp(_, _, _, _) => 3
    case EnqCheck(_, _, _, _) => 4
    case EnqNext(_, _, _) => 5
    case EnqLast(_) => 6
    case DeqReturn(_, _, _) => 1
    case DeqCas(_, _, _, _) => 2
    case DeqRead(_, _, _) => 3
    case DeqHelp(_, _, _) => 3
    case DeqCheck(_, _, _, _, _) => 4
    case DeqNext(_, _, _, _) => 5
    case DeqLast(_, _) => 6
    case DeqFirst => 7
    case EmptyLast(_, _) => 8
    case EmptyFirst => 9
  }

  /** The step sends the thread back to the head of its loop. */
  predicate GoesRound(s: State, s': State, p: nat, a: Action)
    requires p < |s'.threads|
  {
    EnqueueRetry(s, s', p, a) || DequeueRetry(s, s', p, a) || a.HelpOk? || a.DeqHelpOk?
  }

  lemma EnqGetsOn(s: State, s': State, p: nat, a: Action)
    requires Step(s, s', p, a) && EnqStep(a) && !s.threads[p].pc.Idle?
    ensures p < |s'.threads| && (GoesRound(s, s', p, a) || Left(s'.threads[p].pc) < Left(s.threads[p].pc))
  {
  }

  lemma DeqGetsOn(s: State, s': State, p: nat, a: Action)
    requires Step(s, s', p, a) && !EnqStep(a) && !s.threads[p].pc.Idle? && PcOk(s, p)
    ensures p < |s'.threads| && (GoesRound(s, s', p, a) || Left(s'.threads[p].pc) < Left(s.threads[p].pc))
  {
  }

  /** Every step of a thread in a call brings it nearer to the end of the call, unless it goes round its loop. */
  lemma StepGetsOn(s: State, s': State, p: nat, a: Action)
    requires Inv(s) && Step(s, s', p, a) && p < |s.threads| && !s.threads[p].pc.Idle?
    ensures p < |s'.threads| && (GoesRound(s, s', p, a) || Left(s'.threads[p].pc) < Left(s.threads[p].pc))
  {
    assert PcOk(s, p);
    hide Step, Inv, PcOk, GoesRound;
    if EnqStep(a) {
      EnqGetsOn(s, s', p, a);
    } else {
      DeqGetsOn(s, s', p, a);
    }
  }

  /** A thread in no call may call any operation, with any value, and gets whatever new node. */
  lemma CallsAccepted(s: State, p: nat, v: int, n: Ptr) returns (enq: State, deq: State, wrap: State)
    requires p < |s.threads| && s.threads[p].pc.Idle? && n != 0 && n !in s.nodes
    ensures Step(s, enq, p, EnqStart(v, n)) && enq.threads[p].pc == EnqLast(n)
    ensures Step(s, deq, p, DeqStart) && deq.threads[p].pc == DeqFirst
    ensures Step(s, wrap, p, WrapStart) && wrap.threads[p].pc == EmptyFirst
  {
    enq := s.(nodes := s.nodes[n := Node(v, NULL)], threads := Goto(s, p, EnqLast(n)));
    deq := s.(threads := s.threads[p := Thread(DeqFirst, false, false)]);
    wrap := s.(threads := s.threads[p := Thread(EmptyFirst, false, false)]);
  }

  lemma EnqHasStep(s: State, p: nat) returns (s': State, a: Action)
    requires ListOk(s) && p < |s.threads| && PcOk(s, p) && Enqueuing(s.threads[p].pc)
    ensures Step(s, s', p, a)
  {
    var pc := s.threads[p].pc;
    match pc
    case EnqLast(n) => a := LoadLast; s' := s.(threads := Goto(s, p, EnqNext(n, s.last, s.l)));
    case EnqNext(n, last, li) =>
      a := LoadNext;
      s' := s.(threads := Goto(s, p, EnqCheck(n, last, li, s.nodes[last.ptr].next)));
    case EnqCheck(n, last, li, next) =>
      a := ReloadLast;
      s' := s.(threads := Goto(s, p, if s.last != last then EnqLast(n)
                                     else if next.ptr == 0 then EnqLink(n, last, li, next)
                                     else EnqHelp(n, last, li, next)));
    case EnqLink(n, last, li, next) =>
      if s.nodes[last.ptr].next == next {
        a := LinkOk;
        s' := s.(nodes := s.nodes[last.ptr := Node(s.nodes[last.ptr].elem, Tagged(n, Bump(s, next)))],
                 order := s.order + [n], linker := p, threads := Goto(s, p, EnqSwing(n, last, li)));
      } else {
        a := LinkFail;
        s' := s.(threads := Goto(s, p, EnqLast(n)));
      }
    case EnqHelp(n, last, li, next) =>
      if s.last == last {
        a := HelpOk;
        s' := s.(last := Tagged(next.ptr, Bump(s, last)), l := s.l + 1, threads := Goto(s, p, EnqLast(n)));
      } else {
        a := HelpFail;
        s' := s.(threads := Goto(s, p, EnqLast(n)));
      }
    case EnqSwing(n, last, li) =>
      if s.last == last {
        a := SwingOk;
        s' := s.(last := Tagged(n, Bump(s, last)), l := s.l + 1, threads := Goto(s, p, EnqReturn(n, li + 1)));
      } else {
        a := SwingFail;
        s' := s.(threads := Goto(s, p, EnqReturn(n, li + 1)));
      }
    case EnqReturn(_, _) => a := EnqDone; s' := s.(threads := Goto(s, p, Idle));
  }

  lemma LoadHasStep(s: State, p: nat) returns (s': State, a: Action)
    requires ListOk(s) && p < |s.threads| && PcOk(s, p) && Dequeuing(s.threads[p].pc) && Left(s.threads[p].pc) > 4
    ensures Step(s, s', p, a)
  {
    var t, pc := s.threads[p], s.threads[p].pc;
    match pc
    case EmptyFirst => a := ReadFirst; s' := s.(threads := Goto(s, p, EmptyLast(s.first, s.f)));
    case EmptyLast(first, fi) =>
      a := ReadLast;
      s' := s.(threads := s.threads[p := t.(pc := if first == s.last then DeqReturn(false, 0, true) else DeqFirst,
                                            sawNoneSwung := t.sawNoneSwung || s.f == s.l)]);
    case DeqFirst => a := DeqLoadFirst; s' := s.(threads := Goto(s, p, DeqLast(s.first, s.f)));
    case DeqLast(first, fi) => a := DeqLoadLast; s' := s.(threads := Goto(s, p, DeqNext(first, fi, s.last, s.l)));
    case DeqNext(first, fi, last, li) =>
      a := DeqLoadNext;
      s' := s.(threads := s.threads[p := t.(pc := DeqCheck(first, fi, last, li, s.nodes[first.ptr].next),
                                            sawNone := t.sawNone || s.f + 1 == |s.order|,
                                            sawNoneSwung := t.sawNoneSwung || s.f == s.l)]);
  }

  lemma CheckHasStep(s: State, p: nat) returns (s': State)
    requires p < |s.threads| && s.threads[p].pc.DeqCheck?
    ensures Step(s, s', p, DeqReload)
  {
    var pc := s.threads[p].pc;
    var to := if s.first != pc.first then DeqFirst
              else if pc.first.ptr != pc.last.ptr then
                (if pc.next.ptr != 0 then DeqRead(pc.first, pc.fi, pc.next) else DeqFirst)
              else if pc.next.ptr == 0 then DeqReturn(false, 0, false)
              else DeqHelp(pc.last, pc.li, pc.next);
    s' := s.(threads := Goto(s, p, to));
  }

  lemma DeqHasStep(s: State, p: nat) returns (s': State, a: Action)
    requires ListOk(s) && p < |s.threads| && PcOk(s, p) && Dequeuing(s.threads[p].pc) && Left(s.threads[p].pc) < 4
    ensures Step(s, s', p, a)
  {
    match s.threads[p].pc
    case DeqHelp(last, li, next) =>
      if s.last == last {
        a := DeqHelpOk;
        s' := s.(last := Tagged(next.ptr, Bump(s, last)), l := s.l + 1, threads := Goto(s, p, DeqFirst));
      } else {
        a := DeqHelpFail;
        s' := s.(threads := Goto(s, p, DeqFirst));
      }
    case DeqRead(first, fi, next) =>
      a := ReadElem;
      s' := s.(threads := Goto(s, p, DeqCas(first, fi, next, s.nodes[next.ptr].elem)));
    case DeqCas(first, fi, next, elem) =>
      if s.first == first {
        a := TakeOk;
        s' := s.(first := Tagged(next.ptr, Bump(s, first)), f := s.f + 1,
                 threads := Goto(s, p, DeqReturn(true, elem, false)));
      } else {
        a := TakeFail;
        s' := s.(threads := Goto(s, p, DeqFirst));
      }
    case DeqReturn(_, _, _) => a := DeqDone; s' := s.(threads := Goto(s, p, Idle));
  }

  lemma InSomeCall(pc: Pc)
    requires !pc.Idle?
    ensures Enqueuing(pc) || Dequeuing(pc)
  {
  }

  lemma CheckIsFourth(pc: Pc)
    ensures Dequeuing(pc) && Left(pc) == 4 ==> pc.DeqCheck?
  {
  }

  /** No call is ever stuck: in every run a thread in a call has a step, and it brings the call nearer to its end,
      or goes round the loop. */
  lemma CallsGetOn(r: seq<State>, who: seq<nat>, acts: seq<Action>, i: nat, p: nat) returns (s': State, a: Action)
    requires IsRun(r, who, acts) && i < |r| && p < |r[i].threads| && !r[i].threads[p].pc.Idle?
    ensures Step(r[i], s', p, a) && p < |s'.threads|
    ensures GoesRound(r[i], s', p, a) || Left(s'.threads[p].pc) < Left(r[i].threads[p].pc)
  {
    hide Step, Inv, PcOk, ListOk, GoesRound, Left, Enqueuing, Dequeuing;
    RunInv(r, who, acts, i);
    hide IsRun;
    InvParts(r[i], p);
    InSomeCall(r[i].threads[p].pc);
    CheckIsFourth(r[i].threads[p].pc);
    if Enqueuing(r[i].threads[p].pc) {
      s', a := EnqHasStep(r[i], p);
    } else if Left(r[i].threads[p].pc) > 4 {
      s', a := LoadHasStep(r[i], p);
    } else if r[i].threads[p].pc.DeqCheck? {
      s' := CheckHasStep(r[i], p);
      a := DeqReload;
    } else {
      s', a := DeqHasStep(r[i], p);
    }
    StepGetsOn(r[i], s', p, a);
  }
}

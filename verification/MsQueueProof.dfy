/** Every step of the queue keeps `Inv`.

    A step either leaves the shared list alone (`SameList`) or moves it on (`Grows`): nodes are only
    added at the end, elements never change, `First` and `Last` only go forward.

    What the other threads know of the list survives both (`OtherOk`), so `LocalInv` and `SharedInv` leave
    only the facts of the thread that moves to be shown.

    The list itself changes in three ways: a link appends to it (`LinkOkList`), a swing or a helper moves
    `Last` on (`AdvanceLast`), and a dequeue moves `First` on (`TakeOkList`). */
module MsQueueProof {
  import opened ModArith
  import opened MsQueue

  // ------------------------------------------------------------ frames

  /** The list only grows, elements never change, and unlinked nodes are left alone. */
  ghost predicate Grows(s: State, s': State) {
    && s'.modulus == s.modulus && s'.weak == s.weak
    && s.f <= s'.f && s.l <= s'.l
    && s.order <= s'.order
    && (forall x | x in s.nodes :: x in s'.nodes && s'.nodes[x].elem == s.nodes[x].elem)
    && (forall x | x in s.nodes && x !in s'.order :: x in s'.nodes && s'.nodes[x].next == s.nodes[x].next)
  }

  lemma PointsKept(s: State, s': State, t: Tagged, i: nat)
    requires Grows(s, s')
    ensures PointsAt(s, t, i) ==> PointsAt(s', t, i)
    ensures LeadsOn(s, t, i) ==> LeadsOn(s', t, i)
  {
  }

  lemma OtherOk(s: State, s': State, q: nat)
    requires Grows(s, s') && q < |s.threads| == |s'.threads| && s'.threads[q] == s.threads[q]
    requires PcOk(s, q) && (Owns(s.threads[q].pc) ==> s.threads[q].pc.n !in s'.order)
    ensures PcOk(s', q)
  {
    forall t: Tagged, i: nat
      ensures PointsAt(s, t, i) ==> PointsAt(s', t, i)
      ensures LeadsOn(s, t, i) ==> LeadsOn(s', t, i)
    {
      PointsKept(s, s', t, i);
    }
    hide PointsAt, LeadsOn;
  }

  /** The shared list is untouched by the step. */
  ghost predicate SameList(s: State, s': State) {
    s' == s.(threads := s'.threads)
  }

  ghost predicate Moves(s: State, s': State, p: nat) {
    && p < |s.threads| == |s'.threads|
    && forall q | 0 <= q < |s.threads| && q != p :: s'.threads[q] == s.threads[q]
  }

  /** A step that leaves the shared list alone and takes on no node. */
  lemma LocalInv(s: State, s': State, p: nat)
    requires Inv(s) && Touches(s, s', p) && PcOk(s', p)
    requires s.threads[p].pc.EnqSwing? ==> s.weak || s.last != s.threads[p].pc.last
    ensures Inv(s')
  {
    assert ListOk(s') && Grows(s, s') && PcOk(s, p);
    forall q | 0 <= q < |s'.threads|
      ensures PcOk(s', q)
    {
      if q != p {
        assert PcOk(s, q);
        OtherOk(s, s', q);
      }
    }
    hide PcOk, ListOk, Grows;
  }

  /** The step touches its own thread only and takes on no node. */
  ghost predicate Touches(s: State, s': State, p: nat) {
    && p < |s.threads| == |s'.threads| && SameList(s, s') && Moves(s, s', p)
    && (Owns(s'.threads[p].pc) ==> Owns(s.threads[p].pc) && s'.threads[p].pc.n == s.threads[p].pc.n)
  }

  lemma EnqFrame(s: State, s': State, p: nat, a: Action)
    requires Step(s, s', p, a) && (LocalEnq(a) || a.LoadNext?)
    ensures Touches(s, s', p)
    ensures s.threads[p].pc.EnqSwing? ==> s.weak || s.last != s.threads[p].pc.last
  {
  }

  lemma DeqFrame(s: State, s': State, p: nat, a: Action)
    requires Step(s, s', p, a) && (LocalEmpty(a) || LocalLoad(a) || LocalDeq(a))
    ensures Touches(s, s', p) && !s.threads[p].pc.EnqSwing?
  {
  }

  // ------------------------------------------------------------ Enqueue

  lemma EnqStartInv(s: State, s': State, p: nat, v: int, n: Ptr)
    requires Inv(s) && DoEnqStart(s, s', p, v, n)
    ensures Inv(s')
  {
    assert ListOk(s') && Grows(s, s');
    forall q | 0 <= q < |s'.threads|
      ensures PcOk(s', q)
    {
      assert PcOk(s, q);
      if q != p {
        OtherOk(s, s', q);
      }
    }
    hide ListOk, Grows;
    forall q | 0 <= q < |s.threads| && Owns(s.threads[q].pc)
      ensures s.threads[q].pc.n != n
    {
      assert PcOk(s, q);
    }
    hide PcOk;
  }

  lemma LoadNextOk(s: State, s': State, p: nat)
    requires ListOk(s) && DoLoadNext(s, s', p) && PcOk(s, p)
    ensures PcOk(s', p)
  {
    var li := s.threads[p].pc.li;
    assert li + 1 < |s.order| ==> s.nodes[s.order[li]].next == Tagged(s.order[li + 1], 1 % s.modulus);
  }

  lemma LoadLastOk(s: State, s': State, p: nat)
    requires ListOk(s) && (DoLoadLast(s, s', p) || DoReloadLast(s, s', p)) && PcOk(s, p)
    ensures PcOk(s', p)
  {
  }

  lemma EnqRetryOk(s: State, s': State, p: nat)
    requires ListOk(s) && (DoLinkFail(s, s', p) || DoHelpFail(s, s', p)) && PcOk(s, p)
    ensures PcOk(s', p)
  {
  }

  lemma SwingFailOk(s: State, s': State, p: nat)
    requires ListOk(s) && (DoSwingFail(s, s', p) || DoEnqDone(s, s', p)) && PcOk(s, p)
    ensures PcOk(s', p)
  {
  }

  lemma EnqLocalOk(s: State, s': State, p: nat, a: Action)
    requires ListOk(s) && Step(s, s', p, a) && PcOk(s, p)
    requires LocalEnq(a)
    ensures PcOk(s', p)
  {
    hide ListOk, PcOk, DoLoadLast, DoReloadLast, DoLinkFail, DoHelpFail, DoSwingFail, DoEnqDone;
    if a.LoadLast? || a.ReloadLast? {
      LoadLastOk(s, s', p);
    } else if a.LinkFail? || a.HelpFail? {
      EnqRetryOk(s, s', p);
    } else {
      SwingFailOk(s, s', p);
    }
  }

  lemma DeqLoadNextOk(s: State, s': State, p: nat)
    requires ListOk(s) && DoDeqLoadNext(s, s', p) && PcOk(s, p)
    ensures PcOk(s', p)
  {
    var fi := s.threads[p].pc.fi;
    assert fi + 1 < |s.order| ==> s.nodes[s.order[fi]].next == Tagged(s.order[fi + 1], 1 % s.modulus);
  }

  lemma EmptyLocalOk(s: State, s': State, p: nat, a: Action)
    requires ListOk(s) && Step(s, s', p, a) && PcOk(s, p)
    requires LocalEmpty(a)
    ensures PcOk(s', p)
  {
  }

  lemma DeqLoadOk(s: State, s': State, p: nat)
    requires ListOk(s) && (DoDeqLoadFirst(s, s', p) || DoDeqLoadLast(s, s', p)) && PcOk(s, p)
    ensures PcOk(s', p)
  {
  }

  lemma DeqReloadOk(s: State, s': State, p: nat)
    requires ListOk(s) && DoDeqReload(s, s', p) && PcOk(s, p)
    ensures PcOk(s', p)
  {
  }

  lemma DeqLocalOk(s: State, s': State, p: nat)
    requires p < |s.threads| && ListOk(s) && PcOk(s, p)
    requires DoDeqHelpFail(s, s', p) || DoReadElem(s, s', p) || DoTakeFail(s, s', p) || DoDeqDone(s, s', p)
    ensures PcOk(s', p)
  {
  }

  // ------------------------------------------------------------ steps that change the list

  /** Equal words point at the same index. */
  lemma SameIndex(s: State, t: Tagged, i: nat, j: nat)
    requires ListOk(s) && PointsAt(s, t, i) && PointsAt(s, t, j)
    ensures i == j
  {
  }

  /** `last` advances by one along the list. */
  lemma AdvanceLast(s: State, s': State, p: nat, last: Tagged, li: nat, n: Ptr)
    requires ListOk(s) && PointsAt(s, last, li) && s.last == last
    requires li + 1 < |s.order| && s.order[li + 1] == n
    requires s' == s.(last := Tagged(n, Bump(s, last)), l := s.l + 1, threads := s'.threads)
    ensures li == s.l && ListOk(s') && Grows(s, s')
  {
    SameIndex(s, last, li, s.l);
    BumpMod(li, s.modulus);
  }

  /** Once the list is in order again, only the mover's own facts are left to show. */
  lemma SharedInv(s: State, s': State, p: nat)
    requires Inv(s) && Moves(s, s', p) && Grows(s, s') && ListOk(s') && SwingDue(s') && PcOk(s', p)
    requires Owns(s'.threads[p].pc) ==> Owns(s.threads[p].pc) && s'.threads[p].pc.n == s.threads[p].pc.n
    requires forall x | x in s'.order :: x in s.order || (Owns(s.threads[p].pc) && x == s.threads[p].pc.n)
    ensures Inv(s')
  {
    forall q | 0 <= q < |s'.threads|
      ensures PcOk(s', q)
    {
      if q != p {
        assert PcOk(s, q);
        OtherOk(s, s', q);
      }
    }
    hide PcOk, ListOk, Grows, SwingDue;
  }

  lemma NextOf(s: State, i: nat)
    requires ListOk(s) && i + 1 < |s.order|
    ensures s.nodes[s.order[i]].next == Tagged(s.order[i + 1], 1 % s.modulus) && s.order[i + 1] != 0
  {
    assert s.order[i + 1] in s.nodes;
  }

  lemma LinkOkList(s: State, s': State, p: nat)
    requires ListOk(s) && DoLinkOk(s, s', p) && PcOk(s, p)
    ensures ListOk(s') && Grows(s, s') && s.threads[p].pc.li == s.l && |s'.order| == s.l + 2
  {
    var pc := s.threads[p].pc;
    if pc.li + 1 < |s.order| {
      NextOf(s, pc.li);
      assert false;
    }
    var k := |s.order|;
    assert s'.order[k] == pc.n && s'.order[..k] == s.order;
    forall i, j | 0 <= i && j == i + 1 && j < |s'.order|
      ensures s'.nodes[s'.order[i]].next == Tagged(s'.order[j], 1 % s.modulus)
    {
      if j < k {
        assert s.nodes[s.order[i]].next == Tagged(s.order[j], 1 % s.modulus);
        assert s.order[i] != s.order[k - 1];
      }
    }
  }

  lemma LinkOkInv(s: State, s': State, p: nat)
    requires Inv(s) && DoLinkOk(s, s', p)
    ensures Inv(s')
  {
    assert PcOk(s, p);
    LinkOkList(s, s', p);
    assert PcOk(s', p);
    hide ListOk, Grows, PcOk;
    SharedInv(s, s', p);
  }

  lemma HelpOkInv(s: State, s': State, p: nat)
    requires Inv(s) && DoHelpOk(s, s', p)
    ensures Inv(s')
  {
    assert PcOk(s, p);
    var pc := s.threads[p].pc;
    AdvanceLast(s, s', p, pc.last, pc.li, pc.next.ptr);
    assert PcOk(s', p);
    hide Grows, PcOk;
    SharedInv(s, s', p);
  }

  lemma SwingOkInv(s: State, s': State, p: nat)
    requires Inv(s) && DoSwingOk(s, s', p)
    ensures Inv(s')
  {
    assert PcOk(s, p);
    var pc := s.threads[p].pc;
    AdvanceLast(s, s', p, pc.last, pc.li, pc.n);
    assert PcOk(s', p);
    hide Grows, PcOk;
    SharedInv(s, s', p);
  }

  lemma DeqHelpOkInv(s: State, s': State, p: nat)
    requires Inv(s) && DoDeqHelpOk(s, s', p)
    ensures Inv(s')
  {
    assert PcOk(s, p);
    var pc := s.threads[p].pc;
    AdvanceLast(s, s', p, pc.last, pc.li, pc.next.ptr);
    assert PcOk(s', p);
    hide Grows, PcOk;
    SharedInv(s, s', p);
  }

  /** `first` advances by one along the list and never passes `last`. */
  lemma TakeOkList(s: State, s': State, p: nat)
    requires ListOk(s) && DoTakeOk(s, s', p) && PcOk(s, p)
    ensures ListOk(s') && Grows(s, s') && s.threads[p].pc.fi == s.f
  {
    var pc := s.threads[p].pc;
    SameIndex(s, pc.first, pc.fi, s.f);
    BumpMod(pc.fi, s.modulus);
  }

  lemma TakeOkInv(s: State, s': State, p: nat)
    requires Inv(s) && DoTakeOk(s, s', p)
    ensures Inv(s')
  {
    assert PcOk(s, p);
    TakeOkList(s, s', p);
    assert PcOk(s', p);
    hide Grows, PcOk, ListOk;
    SharedInv(s, s', p);
  }

  // ------------------------------------------------------------ all runs

  predicate LocalEnq(a: Action) {
    a.LoadLast? || a.ReloadLast? || a.LinkFail? || a.HelpFail? || a.SwingFail? || a.EnqDone?
  }

  lemma LocalEnqInv(s: State, s': State, p: nat, a: Action)
    requires Inv(s) && Step(s, s', p, a) && (LocalEnq(a) || a.LoadNext?)
    ensures Inv(s')
  {
    assert PcOk(s, p);
    EnqFrame(s, s', p, a);
    if a.LoadNext? {
      LoadNextOk(s, s', p);
    } else {
      EnqLocalOk(s, s', p, a);
    }
    hide PcOk, ListOk, Touches, Step;
    LocalInv(s, s', p);
  }

  predicate LocalEmpty(a: Action) { a.DeqStart? || a.WrapStart? || a.ReadFirst? || a.ReadLast? }

  predicate LocalLoad(a: Action) { a.DeqLoadFirst? || a.DeqLoadLast? || a.DeqLoadNext? || a.DeqReload? }

  predicate LocalDeq(a: Action) { a.DeqHelpFail? || a.ReadElem? || a.TakeFail? || a.DeqDone? }

  lemma LocalEmptyInv(s: State, s': State, p: nat, a: Action)
    requires Inv(s) && Step(s, s', p, a) && LocalEmpty(a)
    ensures Inv(s')
  {
    assert PcOk(s, p);
    DeqFrame(s, s', p, a);
    hide PcOk, ListOk, Touches;
    EmptyLocalOk(s, s', p, a);
    hide Step;
    LocalInv(s, s', p);
  }

  lemma LocalLoadInv(s: State, s': State, p: nat, a: Action)
    requires Inv(s) && Step(s, s', p, a) && LocalLoad(a)
    ensures Inv(s')
  {
    assert PcOk(s, p);
    DeqFrame(s, s', p, a);
    hide PcOk, ListOk, Touches;
    if a.DeqLoadNext? {
      DeqLoadNextOk(s, s', p);
    } else if a.DeqReload? {
      DeqReloadOk(s, s', p);
    } else {
      DeqLoadOk(s, s', p);
    }
    hide Step;
    LocalInv(s, s', p);
  }

  lemma LocalDeqInv(s: State, s': State, p: nat, a: Action)
    requires Inv(s) && Step(s, s', p, a) && LocalDeq(a)
    ensures Inv(s')
  {
    assert PcOk(s, p);
    DeqFrame(s, s', p, a);
    hide PcOk, ListOk, Touches;
    DeqLocalOk(s, s', p);
    hide Step;
    LocalInv(s, s', p);
  }

  lemma StepInv(s: State, s': State, p: nat, a: Action)
    requires Inv(s) && Step(s, s', p, a)
    ensures Inv(s')
  {
    hide Inv;
    match a
    case EnqStart(v, n) => EnqStartInv(s, s', p, v, n);
    case LinkOk => LinkOkInv(s, s', p);
    case HelpOk => HelpOkInv(s, s', p);
    case SwingOk => SwingOkInv(s, s', p);
    case DeqHelpOk => DeqHelpOkInv(s, s', p);
    case TakeOk => TakeOkInv(s, s', p);
    case _ =>
      if LocalEnq(a) || a.LoadNext? {
        LocalEnqInv(s, s', p, a);
      } else if LocalEmpty(a) {
        LocalEmptyInv(s, s', p, a);
      } else if LocalLoad(a) {
        LocalLoadInv(s, s', p, a);
      } else {
        LocalDeqInv(s, s', p, a);
      }
  }

  lemma {:induction false} RunInv(r: seq<State>, who: seq<nat>, acts: seq<Action>, i: nat)
    requires IsRun(r, who, acts) && i < |r|
    ensures Inv(r[i])
  {
    hide Step, Inv;
    if i == 0 {
      InitInv(r[0]);
    } else {
      RunInv(r, who, acts, i - 1);
      assert Step(r[i - 1], r[i], who[i - 1], acts[i - 1]);
      StepInv(r[i - 1], r[i], who[i - 1], acts[i - 1]);
    }
  }

  lemma {:induction false} WeakKept(r: seq<State>, who: seq<nat>, acts: seq<Action>, i: nat)
    requires IsRun(r, who, acts) && i < |r|
    ensures r[i].weak == r[0].weak
  {
    if i > 0 {
      WeakKept(r, who, acts, i - 1);
      assert Step(r[i - 1], r[i], who[i - 1], acts[i - 1]);
    }
  }

  lemma InitInv(s: State)
    requires Init(s)
    ensures Inv(s)
  {
  }

  /** Any number of threads may start, with tags of any width, either kind of exchange and any dummy. */
  lemma CanStart(m: nat, weak: bool, n: nat, dummy: Ptr, elem: int) returns (s: State)
    requires m > 0 && dummy != 0
    ensures s.modulus == m && s.weak == weak && |s.threads| == n && IsRun([s], [], [])
    ensures dummy in s.nodes && s.nodes[dummy].elem == elem
  {
    s := State(m, weak, Tagged(dummy, 0), Tagged(dummy, 0), map[dummy := Node(elem, NULL)],
               seq(n, i => Thread(Idle, false, false)), [dummy], 0, 0, 0);
  }
}

/** The Michael-Scott queue of benchmark/nonblocking/AdaLockfree.

    Every atomic load and compare-and-exchange is one step.  Nodes get identities that are never
    reused.  Tags count modulo `modulus`: 2^64 in the double-word queue, 2^16 in the packed one.

    `order`, `f`, `l`, `linker`, the indices `fi`, `li`, `k` and the flags of a thread are history
    variables: no step is guarded by them and no other component is computed from them. */
module MsQueue {
  /** 0 is null. */
  type Ptr = nat

  datatype Tagged = Tagged(ptr: Ptr, cnt: nat)

  datatype Node = Node(elem: int, next: Tagged)

  datatype Pc =
    | Idle
    // Enqueue
    | EnqLast(n: Ptr)
    | EnqNext(n: Ptr, last: Tagged, li: nat)
    | EnqCheck(n: Ptr, last: Tagged, li: nat, next: Tagged)
    | EnqLink(n: Ptr, last: Tagged, li: nat, next: Tagged)
    | EnqHelp(n: Ptr, last: Tagged, li: nat, next: Tagged)
    | EnqSwing(n: Ptr, last: Tagged, li: nat)
    | EnqReturn(n: Ptr, k: nat)
    // the wrapper's Empty
    | EmptyFirst
    | EmptyLast(first: Tagged, fi: nat)
    // Dequeue
    | DeqFirst
    | DeqLast(first: Tagged, fi: nat)
    | DeqNext(first: Tagged, fi: nat, last: Tagged, li: nat)
    | DeqCheck(first: Tagged, fi: nat, last: Tagged, li: nat, next: Tagged)
    | DeqHelp(last: Tagged, li: nat, next: Tagged)
    | DeqRead(first: Tagged, fi: nat, next: Tagged)
    | DeqCas(first: Tagged, fi: nat, next: Tagged, elem: int)
    | DeqReturn(ok: bool, elem: int, early: bool)

  /** `sawNone`: no linked element was left at a step of this call; `sawNoneSwung`: none that `last`
      has reached. */
  datatype Thread = Thread(pc: Pc, sawNone: bool, sawNoneSwung: bool)

  datatype State = State(
    modulus: nat,
    weak: bool,            // compare-and-exchange may fail spuriously
    first: Tagged,
    last: Tagged,
    nodes: map<Ptr, Node>,
    threads: seq<Thread>,
    order: seq<Ptr>,       // the nodes in the order they were linked, the first dummy included
    f: nat,                // where `first` points in `order`
    l: nat,                // where `last` points in `order`
    linker: nat)           // the thread that linked the last node

  datatype Action =
    | EnqStart(v: int, n: Ptr)
    | LoadLast
    | LoadNext
    | ReloadLast
    | LinkOk
    | LinkFail
    | HelpOk
    | HelpFail
    | SwingOk
    | SwingFail
    | EnqDone
    | DeqStart
    | WrapStart
    | ReadFirst
    | ReadLast
    | DeqLoadFirst
    | DeqLoadLast
    | DeqLoadNext
    | DeqReload
    | DeqHelpOk
    | DeqHelpFail
    | ReadElem
    | TakeOk
    | TakeFail
    | DeqDone

  const NULL := Tagged(0, 0)

  function Goto(s: State, p: nat, pc: Pc): (ts: seq<Thread>)
    requires p < |s.threads|
  {
    s.threads[p := s.threads[p].(pc := pc)]
  }

  function Bump(s: State, t: Tagged): nat { if s.modulus == 0 then 0 else (t.cnt + 1) % s.modulus }

  // ---------------------------------------------------------------- Enqueue

  ghost predicate DoEnqStart(s: State, s': State, p: nat, v: int, n: Ptr) {
    && p < |s.threads| && s.threads[p].pc.Idle? && n != 0 && n !in s.nodes
    && s' == s.(nodes := s.nodes[n := Node(v, NULL)], threads := Goto(s, p, EnqLast(n)))
  }

  ghost predicate DoLoadLast(s: State, s': State, p: nat) {
    && p < |s.threads|
    && var pc := s.threads[p].pc;
       && pc.EnqLast?
       && s' == s.(threads := Goto(s, p, EnqNext(pc.n, s.last, s.l)))
  }

  ghost predicate DoLoadNext(s: State, s': State, p: nat) {
    && p < |s.threads|
    && var pc := s.threads[p].pc;
       && pc.EnqNext? && pc.last.ptr in s.nodes
       && s' == s.(threads := Goto(s, p, EnqCheck(pc.n, pc.last, pc.li, s.nodes[pc.last.ptr].next)))
  }

  ghost predicate DoReloadLast(s: State, s': State, p: nat) {
    && p < |s.threads|
    && var pc := s.threads[p].pc;
       && pc.EnqCheck?
       && s' == s.(threads := Goto(s, p,
            if s.last != pc.last then EnqLast(pc.n)
            else if pc.next.ptr == 0 then EnqLink(pc.n, pc.last, pc.li, pc.next)
            else EnqHelp(pc.n, pc.last, pc.li, pc.next)))
  }

  ghost predicate DoLinkOk(s: State, s': State, p: nat) {
    && p < |s.threads|
    && var pc := s.threads[p].pc;
       && pc.EnqLink? && pc.last.ptr in s.nodes && s.nodes[pc.last.ptr].next == pc.next
       && s' == s.(nodes := s.nodes[pc.last.ptr := Node(s.nodes[pc.last.ptr].elem, Tagged(pc.n, Bump(s, pc.next)))],
                   order := s.order + [pc.n], linker := p,
                   threads := Goto(s, p, EnqSwing(pc.n, pc.last, pc.li)))
  }

  ghost predicate DoLinkFail(s: State, s': State, p: nat) {
    && p < |s.threads|
    && var pc := s.threads[p].pc;
       && pc.EnqLink? && pc.last.ptr in s.nodes && (s.weak || s.nodes[pc.last.ptr].next != pc.next)
       && s' == s.(threads := Goto(s, p, EnqLast(pc.n)))
  }

  ghost predicate DoHelpOk(s: State, s': State, p: nat) {
    && p < |s.threads|
    && var pc := s.threads[p].pc;
       && pc.EnqHelp? && s.last == pc.last
       && s' == s.(last := Tagged(pc.next.ptr, Bump(s, pc.last)), l := s.l + 1,
                   threads := Goto(s, p, EnqLast(pc.n)))
  }

  ghost predicate DoHelpFail(s: State, s': State, p: nat) {
    && p < |s.threads|
    && var pc := s.threads[p].pc;
       && pc.EnqHelp? && (s.weak || s.last != pc.last)
       && s' == s.(threads := Goto(s, p, EnqLast(pc.n)))
  }

  ghost predicate DoSwingOk(s: State, s': State, p: nat) {
    && p < |s.threads|
    && var pc := s.threads[p].pc;
       && pc.EnqSwing? && s.last == pc.last
       && s' == s.(last := Tagged(pc.n, Bump(s, pc.last)), l := s.l + 1,
                   threads := Goto(s, p, EnqReturn(pc.n, pc.li + 1)))
  }

  ghost predicate DoSwingFail(s: State, s': State, p: nat) {
    && p < |s.threads|
    && var pc := s.threads[p].pc;
       && pc.EnqSwing? && (s.weak || s.last != pc.last)
       && s' == s.(threads := Goto(s, p, EnqReturn(pc.n, pc.li + 1)))
  }

  ghost predicate DoEnqDone(s: State, s': State, p: nat) {
    && p < |s.threads| && s.threads[p].pc.EnqReturn?
    && s' == s.(threads := Goto(s, p, Idle))
  }

  // ---------------------------------------------------------------- Dequeue

  ghost predicate DoDeqStart(s: State, s': State, p: nat) {
    && p < |s.threads| && s.threads[p].pc.Idle?
    && s' == s.(threads := s.threads[p := Thread(DeqFirst, false, false)])
  }

  ghost predicate DoWrapStart(s: State, s': State, p: nat) {
    && p < |s.threads| && s.threads[p].pc.Idle?
    && s' == s.(threads := s.threads[p := Thread(EmptyFirst, false, false)])
  }

  ghost predicate DoReadFirst(s: State, s': State, p: nat) {
    && p < |s.threads| && s.threads[p].pc.EmptyFirst?
    && s' == s.(threads := Goto(s, p, EmptyLast(s.first, s.f)))
  }

  ghost predicate DoReadLast(s: State, s': State, p: nat) {
    && p < |s.threads|
    && var t, pc := s.threads[p], s.threads[p].pc;
       && pc.EmptyLast?
       && s' == s.(threads := s.threads[p := t.(
            pc := if pc.first == s.last then DeqReturn(false, 0, true) else DeqFirst,
            sawNoneSwung := t.sawNoneSwung || s.f == s.l)])
  }

  ghost predicate DoDeqLoadFirst(s: State, s': State, p: nat) {
    && p < |s.threads| && s.threads[p].pc.DeqFirst?
    && s' == s.(threads := Goto(s, p, DeqLast(s.first, s.f)))
  }

  ghost predicate DoDeqLoadLast(s: State, s': State, p: nat) {
    && p < |s.threads|
    && var pc := s.threads[p].pc;
       && pc.DeqLast?
       && s' == s.(threads := Goto(s, p, DeqNext(pc.first, pc.fi, s.last, s.l)))
  }

  ghost predicate DoDeqLoadNext(s: State, s': State, p: nat) {
    && p < |s.threads|
    && var t, pc := s.threads[p], s.threads[p].pc;
       && pc.DeqNext? && pc.first.ptr in s.nodes
       && s' == s.(threads := s.threads[p := t.(
            pc := DeqCheck(pc.first, pc.fi, pc.last, pc.li, s.nodes[pc.first.ptr].next),
            sawNone := t.sawNone || s.f + 1 == |s.order|,
            sawNoneSwung := t.sawNoneSwung || s.f == s.l)])
  }

  ghost predicate DoDeqReload(s: State, s': State, p: nat) {
    && p < |s.threads|
    && var pc := s.threads[p].pc;
       && pc.DeqCheck?
       && s' == s.(threads := Goto(s, p,
            if s.first != pc.first then DeqFirst
            else if pc.first.ptr == pc.last.ptr then
              (if pc.next.ptr == 0 then DeqReturn(false, 0, false) else DeqHelp(pc.last, pc.li, pc.next))
            else if pc.next.ptr != 0 then DeqRead(pc.first, pc.fi, pc.next)
            else DeqFirst))
  }

  ghost predicate DoDeqHelpOk(s: State, s': State, p: nat) {
    && p < |s.threads|
    && var pc := s.threads[p].pc;
       && pc.DeqHelp? && s.last == pc.last
       && s' == s.(last := Tagged(pc.next.ptr, Bump(s, pc.last)), l := s.l + 1,
                   threads := Goto(s, p, DeqFirst))
  }

  ghost predicate DoDeqHelpFail(s: State, s': State, p: nat) {
    && p < |s.threads|
    && var pc := s.threads[p].pc;
       && pc.DeqHelp? && (s.weak || s.last != pc.last)
       && s' == s.(threads := Goto(s, p, DeqFirst))
  }

  ghost predicate DoReadElem(s: State, s': State, p: nat) {
    && p < |s.threads|
    && var pc := s.threads[p].pc;
       && pc.DeqRead? && pc.next.ptr in s.nodes
       && s' == s.(threads := Goto(s, p, DeqCas(pc.first, pc.fi, pc.next, s.nodes[pc.next.ptr].elem)))
  }

  ghost predicate DoTakeOk(s: State, s': State, p: nat) {
    && p < |s.threads|
    && var pc := s.threads[p].pc;
       && pc.DeqCas? && s.first == pc.first
       && s' == s.(first := Tagged(pc.next.ptr, Bump(s, pc.first)), f := s.f + 1,
                   threads := Goto(s, p, DeqReturn(true, pc.elem, false)))
  }

  ghost predicate DoTakeFail(s: State, s': State, p: nat) {
    && p < |s.threads|
    && var pc := s.threads[p].pc;
       && pc.DeqCas? && (s.weak || s.first != pc.first)
       && s' == s.(threads := Goto(s, p, DeqFirst))
  }

  ghost predicate DoDeqDone(s: State, s': State, p: nat) {
    && p < |s.threads| && s.threads[p].pc.DeqReturn?
    && s' == s.(threads := Goto(s, p, Idle))
  }

  ghost predicate Step(s: State, s': State, p: nat, a: Action) {
    match a
    case EnqStart(v, n) => DoEnqStart(s, s', p, v, n)
    case LoadLast => DoLoadLast(s, s', p)
    case LoadNext => DoLoadNext(s, s', p)
    case ReloadLast => DoReloadLast(s, s', p)
    case LinkOk => DoLinkOk(s, s', p)
    case LinkFail => DoLinkFail(s, s', p)
    case HelpOk => DoHelpOk(s, s', p)
    case HelpFail => DoHelpFail(s, s', p)
    case SwingOk => DoSwingOk(s, s', p)
    case SwingFail => DoSwingFail(s, s', p)
    case EnqDone => DoEnqDone(s, s', p)
    case DeqStart => DoDeqStart(s, s', p)
    case WrapStart => DoWrapStart(s, s', p)
    case ReadFirst => DoReadFirst(s, s', p)
    case ReadLast => DoReadLast(s, s', p)
    case DeqLoadFirst => DoDeqLoadFirst(s, s', p)
    case DeqLoadLast => DoDeqLoadLast(s, s', p)
    case DeqLoadNext => DoDeqLoadNext(s, s', p)
    case DeqReload => DoDeqReload(s, s', p)
    case DeqHelpOk => DoDeqHelpOk(s, s', p)
    case DeqHelpFail => DoDeqHelpFail(s, s', p)
    case ReadElem => DoReadElem(s, s', p)
    case TakeOk => DoTakeOk(s, s', p)
    case TakeFail => DoTakeFail(s, s', p)
    case DeqDone => DoDeqDone(s, s', p)
  }

  /** `Initialize`: one dummy node, tags 0. */
  ghost predicate Init(s: State) {
    && s.modulus > 0
    && |s.order| == 1 && s.order[0] != 0 && s.f == 0 && s.l == 0
    && s.first == Tagged(s.order[0], 0) && s.last == Tagged(s.order[0], 0)
    && s.nodes.Keys == {s.order[0]} && s.nodes[s.order[0]].next == NULL
    && (forall p | 0 <= p < |s.threads| :: s.threads[p] == Thread(Idle, false, false))
  }

  ghost predicate IsRun(r: seq<State>, who: seq<nat>, acts: seq<Action>) {
    && |r| > 0 && |who| == |acts| == |r| - 1
    && Init(r[0])
    && (forall i | 0 <= i < |who| :: Step(r[i], r[i + 1], who[i], acts[i]))
  }

  // ---------------------------------------------------------------- invariant

  /** `t` is the tagged pointer to the node linked at index `i`. */
  ghost predicate PointsAt(s: State, t: Tagged, i: nat) {
    s.modulus > 0 && i < |s.order| && t == Tagged(s.order[i], i % s.modulus)
  }

  /** `t` is the `Next` word that leads from index `i` to index `i + 1`. */
  ghost predicate LeadsOn(s: State, t: Tagged, i: nat) {
    s.modulus > 0 && i + 1 < |s.order| && t == Tagged(s.order[i + 1], 1 % s.modulus)
  }

  /** `first` never passes `last`, `last` is the final node or the one before it, and the tags are the
      link-order indices. */
  ghost predicate ListOk(s: State) {
    && s.modulus > 0 && 0 !in s.nodes
    && s.f <= s.l < |s.order| <= s.l + 2
    && PointsAt(s, s.first, s.f) && PointsAt(s, s.last, s.l)
    && (forall i | 0 <= i < |s.order| :: s.order[i] in s.nodes)
    && (forall i, j | 0 <= i < j < |s.order| :: s.order[i] != s.order[j])
    && (forall i, j | 0 <= i && j == i + 1 && j < |s.order| ::
          s.nodes[s.order[i]].next == Tagged(s.order[j], 1 % s.modulus))
    && s.nodes[s.order[|s.order| - 1]].next == NULL
  }

  /** An enqueuer owns a node that is not linked yet. */
  predicate Owns(pc: Pc) { pc.EnqLast? || pc.EnqNext? || pc.EnqCheck? || pc.EnqLink? || pc.EnqHelp? }

  ghost predicate NextSeen(s: State, next: Tagged, i: nat) { next == NULL || LeadsOn(s, next, i) }

  ghost predicate PcOk(s: State, p: nat)
    requires p < |s.threads|
  {
    var t := s.threads[p];
    && (Owns(t.pc) ==> t.pc.n in s.nodes && t.pc.n !in s.order && s.nodes[t.pc.n].next == NULL)
    && match t.pc
       case EnqNext(n, last, li) => li <= s.l && PointsAt(s, last, li)
       case EnqCheck(n, last, li, next) => li <= s.l && PointsAt(s, last, li) && NextSeen(s, next, li)
       case EnqLink(n, last, li, next) => li <= s.l && PointsAt(s, last, li) && next == NULL
       case EnqHelp(n, last, li, next) => li <= s.l && PointsAt(s, last, li) && LeadsOn(s, next, li)
       case EnqSwing(n, last, li) => li <= s.l && PointsAt(s, last, li) && li + 1 < |s.order| && s.order[li + 1] == n
       case EnqReturn(n, k) => k < |s.order| && s.order[k] == n && (!s.weak ==> k <= s.l)
       case EmptyLast(first, fi) => fi <= s.f && PointsAt(s, first, fi)
       case DeqLast(first, fi) => fi <= s.f && PointsAt(s, first, fi)
       case DeqNext(first, fi, last, li) =>
         fi <= s.f && PointsAt(s, first, fi) && fi <= li <= s.l && PointsAt(s, last, li)
       case DeqCheck(first, fi, last, li, next) =>
         && fi <= s.f && PointsAt(s, first, fi) && fi <= li <= s.l && PointsAt(s, last, li)
         && NextSeen(s, next, fi) && (next == NULL ==> fi == li && t.sawNone && t.sawNoneSwung)
       case DeqHelp(last, li, next) => li <= s.l && PointsAt(s, last, li) && LeadsOn(s, next, li)
       case DeqRead(first, fi, next) => fi <= s.f && PointsAt(s, first, fi) && fi < s.l && LeadsOn(s, next, fi)
       case DeqCas(first, fi, next, elem) =>
         && fi <= s.f && PointsAt(s, first, fi) && fi < s.l && LeadsOn(s, next, fi)
         && next.ptr in s.nodes && s.nodes[next.ptr].elem == elem
       case DeqReturn(ok, elem, early) => !ok ==> t.sawNoneSwung && (early || t.sawNone)
       case _ => true
  }

  /** Unlinked nodes have one owner. */
  ghost predicate OwnersOk(s: State) {
    forall p, q | 0 <= p < q < |s.threads| && Owns(s.threads[p].pc) && Owns(s.threads[q].pc) ::
      s.threads[p].pc.n != s.threads[q].pc.n
  }

  /** With a strong compare-and-exchange the node behind `last` still has its linker about to swing. */
  ghost predicate SwingDue(s: State) {
    !s.weak && |s.order| == s.l + 2 ==>
      && s.linker < |s.threads|
      && var pc := s.threads[s.linker].pc; pc.EnqSwing? && pc.li == s.l && s.order[s.l + 1] == pc.n
  }

  ghost predicate Inv(s: State) {
    && ListOk(s) && OwnersOk(s) && SwingDue(s)
    && (forall p | 0 <= p < |s.threads| :: PcOk(s, p))
  }
}

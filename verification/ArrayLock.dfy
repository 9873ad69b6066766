/** The array lock of benchmark/blocking/ArrayLock with the barrier of common/barrier, composed as in the
    loop of `thread_f`: barrier, thread 0 initialises, barrier, any number of locks and unlocks, and over
    again.

    Every access to an atomic is one step.  `order` (the threads in ticket order since the last
    initialisation) and `served` (how many of them have opened the next slot) are history variables. */
module ArrayLock {
  datatype Pc =
    | CountA                // the first barrier of a round
    | WaitA(k: nat)
    | InitTail              // thread 0 only
    | InitFlag(i: nat)
    | LoadTail
    | OpenFirst(i: nat)
    | CountB                // the second
    | WaitB(k: nat)
    | Idle
    | Spin
    | Critical
    | Close
    | Open

  datatype Thread = Thread(pc: Pc, ctr: nat, ticket: nat, slot: nat)

  datatype State = State(threads: seq<Thread>, flags: seq<bool>, tail: nat, order: seq<nat>, served: nat)

  datatype Action =
    | Count | Poll | ClearTail | ClearFlag | ReadTail | SetFirst
    | TakeTicket | PollFlag | Leave | CloseSlot | OpenNext | NextExec

  ghost predicate Init(s: State) {
    && |s.flags| == |s.threads|
    && forall p | 0 <= p < |s.threads| :: s.threads[p].pc.CountA? && s.threads[p].ctr == 0
  }

  function Goto(s: State, p: nat, pc: Pc): seq<Thread>
    requires p < |s.threads|
  {
    s.threads[p := s.threads[p].(pc := pc)]
  }

  function CtrOf(s: State, k: nat): nat { if k < |s.threads| then s.threads[k].ctr else 0 }

  ghost predicate DoCount(s: State, s': State, p: nat) {
    && p < |s.threads|
    && var t := s.threads[p];
       && (t.pc.CountA? || t.pc.CountB?)
       && s' == s.(threads := s.threads[p := t.(pc := if t.pc.CountA? then WaitA(0) else WaitB(0), ctr := t.ctr + 1)])
  }

  ghost predicate DoPoll(s: State, s': State, p: nat) {
    && p < |s.threads|
    && var t, pc := s.threads[p], s.threads[p].pc;
       && (pc.WaitA? || pc.WaitB?)
       && s' == s.(threads := Goto(s, p,
            if pc.k >= |s.threads| then (if pc.WaitB? then Idle else if p == 0 then InitTail else CountB)
            else if CtrOf(s, pc.k) < t.ctr then pc
            else if pc.WaitA? then WaitA(pc.k + 1) else WaitB(pc.k + 1)))
  }

  ghost predicate DoInit(s: State, s': State, p: nat, a: Action) {
    && p < |s.threads|
    && var pc := s.threads[p].pc;
       match a
       case ClearTail => pc.InitTail? && s' == s.(tail := 0, threads := Goto(s, p, InitFlag(0)))
       case ClearFlag =>
         pc.InitFlag? && s' ==
           if pc.i < |s.flags| then s.(flags := s.flags[pc.i := false], threads := Goto(s, p, InitFlag(pc.i + 1)))
           else s.(threads := Goto(s, p, LoadTail))
       case ReadTail => pc.LoadTail? && s' == s.(threads := Goto(s, p, OpenFirst(s.tail)))
       case SetFirst =>
         pc.OpenFirst? && pc.i < |s.flags|
         && s' == s.(flags := s.flags[pc.i := true], order := [], served := 0, threads := Goto(s, p, CountB))
       case _ => false
  }

  ghost predicate DoLock(s: State, s': State, p: nat, a: Action) {
    && p < |s.threads|
    && var t, n := s.threads[p], |s.threads|;
       match a
       case TakeTicket =>
         t.pc.Idle?
         && s' == s.(tail := s.tail + 1, order := s.order + [p],
                     threads := s.threads[p := t.(pc := Spin, ticket := s.tail, slot := s.tail % n)])
       case PollFlag =>
         t.pc.Spin? && t.slot < |s.flags| && s' == s.(threads := Goto(s, p, if s.flags[t.slot] then Critical else Spin))
       case Leave => t.pc.Critical? && s' == s.(threads := Goto(s, p, Close))
       case CloseSlot =>
         t.pc.Close? && t.slot < |s.flags| && s' == s.(flags := s.flags[t.slot := false], threads := Goto(s, p, Open))
       case OpenNext =>
         t.pc.Open? && (t.slot + 1) % n < |s.flags|
         && s' == s.(flags := s.flags[(t.slot + 1) % n := true], served := s.served + 1, threads := Goto(s, p, Idle))
       case NextExec => t.pc.Idle? && s' == s.(threads := Goto(s, p, CountA))
       case _ => false
  }

  ghost predicate Step(s: State, s': State, p: nat, a: Action) {
    match a
    case Count => DoCount(s, s', p)
    case Poll => DoPoll(s, s', p)
    case _ => DoInit(s, s', p, a) || DoLock(s, s', p, a)
  }

  ghost predicate IsRun(r: seq<State>, who: seq<nat>, acts: seq<Action>) {
    && |r| > 0 && |who| == |acts| == |r| - 1
    && Init(r[0])
    && (forall i | 0 <= i < |who| :: Step(r[i], r[i + 1], who[i], acts[i]))
  }

  // ------------------------------------------------------------ invariant

  predicate Initialising(pc: Pc) { pc.InitTail? || pc.InitFlag? || pc.LoadTail? || pc.OpenFirst? }

  /** Between the second barrier and the next first one: may lock and unlock. */
  predicate Running(pc: Pc) { pc.Idle? || Holding(pc) }

  predicate Holding(pc: Pc) { pc.Spin? || Inside(pc) }

  predicate Inside(pc: Pc) { pc.Critical? || pc.Close? || pc.Open? }

  predicate Odd(pc: Pc) { pc.WaitA? || Initialising(pc) || pc.CountB? }

  function Seen(pc: Pc, n: nat): nat { if pc.WaitA? then pc.k else if pc.WaitB? then pc.k else n }

  /** The counter tells the phase, and what `p` has seen at the barrier. */
  ghost predicate BarrierOk(s: State, p: nat, k: nat)
    requires p < |s.threads| && k < |s.threads|
  {
    var t := s.threads[p];
    && (t.ctr % 2 == 1 <==> Odd(t.pc))
    && (t.pc.WaitB? || Running(t.pc) ==> t.ctr >= 2)
    && (Initialising(t.pc) ==> p == 0)
    && s.threads[k].ctr + 1 >= t.ctr
    && (k < Seen(t.pc, |s.threads|) ==> s.threads[k].ctr >= t.ctr)
  }

  /** The lock has been initialised and is not being so again. */
  predicate Live(s: State) {
    |s.threads| > 0 && !Initialising(s.threads[0].pc) && (s.threads[0].pc.CountB? || s.threads[0].ctr >= 2)
  }

  ghost predicate HolderOk(s: State, p: nat)
    requires p < |s.threads|
  {
    var t, n := s.threads[p], |s.threads|;
    Holding(t.pc) ==>
      && s.served <= t.ticket < |s.order| && s.order[t.ticket] == p && t.slot == t.ticket % n
      && (Inside(t.pc) ==> t.ticket == s.served)
  }

  ghost predicate TicketOk(s: State, i: nat)
    requires i < |s.order|
  {
    s.served <= i ==>
      s.order[i] < |s.threads| && Holding(s.threads[s.order[i]].pc) && s.threads[s.order[i]].ticket == i
  }

  /** Somebody is between closing its slot and opening the next. */
  predicate Handing(s: State) {
    s.served < |s.order| && s.order[s.served] < |s.threads| && s.threads[s.order[s.served]].pc.Open?
  }

  /** One flag is up, that of the ticket being served, or none during the hand-over. */
  ghost predicate FlagsOk(s: State)
    requires |s.flags| == |s.threads| > 0
  {
    forall j | 0 <= j < |s.flags| :: s.flags[j] <==> j == s.served % |s.flags| && !Handing(s)
  }

  ghost predicate LockOk(s: State) {
    && |s.flags| == |s.threads| > 0
    && s.served <= |s.order| == s.tail
    && (forall p | 0 <= p < |s.threads| :: HolderOk(s, p))
    && (forall i | 0 <= i < |s.order| :: TicketOk(s, i))
    && FlagsOk(s)
  }

  /** How far thread 0 has got with `init_arraylock`. */
  ghost predicate InitOk(s: State)
    requires |s.threads| > 0
  {
    match s.threads[0].pc
    case InitFlag(i) => s.tail == 0 && forall j | 0 <= j < i && j < |s.flags| :: !s.flags[j]
    case LoadTail => s.tail == 0 && forall j | 0 <= j < |s.flags| :: !s.flags[j]
    case OpenFirst(i) => i == 0 && s.tail == 0 && forall j | 0 <= j < |s.flags| :: !s.flags[j]
    case _ => true
  }

  ghost predicate Inv(s: State) {
    && |s.flags| == |s.threads| > 0
    && (forall p, k | 0 <= p < |s.threads| && 0 <= k < |s.threads| :: BarrierOk(s, p, k))
    && InitOk(s)
    && (Live(s) ==> LockOk(s))
  }
}

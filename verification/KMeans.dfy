/** The division of work in benchmark/tsx/kmeans: tasks that take chunks of points from a shared index,
    and the main loop that starts them, waits for them, and collects the centres, round after round.

    Operations of protected objects and rendezvous are single steps.  Points and tasks count from 0, the
    sums of the features are left out, and the nearest cluster of a point is whatever `Find_Nearest` says.
    `written` (how often each point was passed to `Write_Points` in this round) and `owner` (the task that
    still works on a chunk, -1 when it is done) are history variables. */
module KMeans {
  const CHUNK: nat := 3

  datatype Task =
    | AtStart
    | Head(start: nat)                       // while Start_Pos < nPoints
    | Work(start: nat, stop: nat, i: nat)
    | AtFinish
    | AtRepeat
    | Ended

  datatype Main = SetIndex | Start(k: nat) | Finish(k: nat) | Collect | Repeat(k: nat, again: bool) | Done

  datatype State = State(
    points: nat,
    index: nat,                // Q_Index
    counts: seq<nat>,          // Data (c, 0) of each cluster
    membership: seq<int>,
    main: Main,
    tasks: seq<Task>,
    written: seq<nat>,
    owner: seq<int>)

  datatype Action =
    | ResetIndex | StartTask | FinishTask | CollectCentres(again: bool) | RepeatTask
    | EnterChunk(t: nat) | WritePoint(t: nat, c: nat) | AddIndex(t: nat) | LastChunk(t: nat)

  ghost predicate Init(s: State) {
    && |s.tasks| > 0 && (forall t | 0 <= t < |s.tasks| :: s.tasks[t].AtStart?)
    && s.main.SetIndex?
    && |s.membership| == s.points
    && (forall c | 0 <= c < |s.counts| :: s.counts[c] == 0)
  }

  function Zeros(n: nat): seq<nat> { seq(n, i => 0) }

  function Own(n: nat): seq<int> { seq(n, t => t) }

  /** A chunk is done. */
  function Release(owner: seq<int>, c: nat): seq<int> { if c < |owner| then owner[c := -1] else owner }

  function Count(xs: seq<nat>, i: nat): seq<nat> { if i < |xs| then xs[i := xs[i] + 1] else xs }

  function Min(a: nat, b: nat): nat { if a < b then a else b }

  // ------------------------------------------------------------ the main loop, `Normal_exec`

  ghost predicate DoResetIndex(s: State, s': State) {
    && s.main.SetIndex?
    && s' == s.(index := |s.tasks| * CHUNK, main := Start(0), written := Zeros(s.points), owner := Own(|s.tasks|))
  }

  ghost predicate DoStartTask(s: State, s': State) {
    s.main.Start? &&
    if s.main.k < |s.tasks| then
      && s.tasks[s.main.k].AtStart?
      && s' == s.(tasks := s.tasks[s.main.k := Head(s.main.k * CHUNK)], main := Start(s.main.k + 1))
    else s' == s.(main := Finish(0))
  }

  ghost predicate DoFinishTask(s: State, s': State) {
    s.main.Finish? &&
    if s.main.k < |s.tasks| then
      s.tasks[s.main.k].AtFinish? && s' == s.(tasks := s.tasks[s.main.k := AtRepeat], main := Finish(s.main.k + 1))
    else s' == s.(main := Collect)
  }

  ghost predicate DoCollectCentres(s: State, s': State, again: bool) {
    s.main.Collect? && s' == s.(counts := Zeros(|s.counts|), main := Repeat(0, again))
  }

  ghost predicate DoRepeatTask(s: State, s': State) {
    s.main.Repeat? &&
    if s.main.k < |s.tasks| then
      && s.tasks[s.main.k].AtRepeat?
      && s' == s.(tasks := s.tasks[s.main.k := if s.main.again then AtStart else Ended],
                  main := Repeat(s.main.k + 1, s.main.again))
    else s' == s.(main := if s.main.again then SetIndex else Done)
  }

  // ------------------------------------------------------------ the tasks, `Concurrent_Work`

  ghost predicate DoEnterChunk(s: State, s': State, t: nat) {
    && t < |s.tasks| && s.tasks[t].Head?
    && var start := s.tasks[t].start;
       if start < s.points then s' == s.(tasks := s.tasks[t := Work(start, Min(start + CHUNK, s.points), start)])
       else s' == s.(tasks := s.tasks[t := AtFinish], owner := Release(s.owner, start / CHUNK))
  }

  ghost predicate DoWritePoint(s: State, s': State, t: nat, c: nat) {
    && t < |s.tasks| && s.tasks[t].Work? && c < |s.counts|
    && var w := s.tasks[t];
       && w.i < w.stop && w.i < |s.membership|
       && s' == s.(membership := s.membership[w.i := c], counts := s.counts[c := s.counts[c] + 1],
                   written := Count(s.written, w.i), tasks := s.tasks[t := Work(w.start, w.stop, w.i + 1)])
  }

  ghost predicate DoAddIndex(s: State, s': State, t: nat) {
    && t < |s.tasks| && s.tasks[t].Work?
    && var w := s.tasks[t];
       && w.i == w.stop && w.start + CHUNK < s.points
       && s' == s.(index := s.index + CHUNK, tasks := s.tasks[t := Head(s.index)],
                   owner := Release(s.owner, w.start / CHUNK) + [t])
  }

  ghost predicate DoLastChunk(s: State, s': State, t: nat) {
    && t < |s.tasks| && s.tasks[t].Work?
    && var w := s.tasks[t];
       && w.i == w.stop && w.start + CHUNK >= s.points
       && s' == s.(tasks := s.tasks[t := AtFinish], owner := Release(s.owner, w.start / CHUNK))
  }

  ghost predicate Step(s: State, s': State, a: Action) {
    match a
    case ResetIndex => DoResetIndex(s, s')
    case StartTask => DoStartTask(s, s')
    case FinishTask => DoFinishTask(s, s')
    case CollectCentres(again) => DoCollectCentres(s, s', again)
    case RepeatTask => DoRepeatTask(s, s')
    case EnterChunk(t) => DoEnterChunk(s, s', t)
    case WritePoint(t, c) => DoWritePoint(s, s', t, c)
    case AddIndex(t) => DoAddIndex(s, s', t)
    case LastChunk(t) => DoLastChunk(s, s', t)
  }

  ghost predicate IsRun(r: seq<State>, acts: seq<Action>) {
    && |r| > 0 && |acts| == |r| - 1
    && Init(r[0])
    && (forall i | 0 <= i < |acts| :: Step(r[i], r[i + 1], acts[i]))
  }

  // ------------------------------------------------------------ invariant

  predicate Underway(t: Task) { t.Head? || t.Work? || t.AtFinish? }

  /** Where a task is, as far as the main loop has got. */
  ghost predicate PhaseOk(s: State, t: nat)
    requires t < |s.tasks|
  {
    match s.main
    case SetIndex => s.tasks[t].AtStart?
    case Start(k) => if t < k then Underway(s.tasks[t]) else s.tasks[t].AtStart?
    case Finish(k) => if t < k then s.tasks[t].AtRepeat? else Underway(s.tasks[t])
    case Collect => s.tasks[t].AtRepeat?
    case Repeat(k, again) =>
      if t >= k then s.tasks[t].AtRepeat? else if again then s.tasks[t].AtStart? else s.tasks[t].Ended?
    case Done => s.tasks[t].Ended?
  }

  predicate Active(m: Main) { m.Start? || m.Finish? || m.Collect? }

  /** The chunk a task has to do or is doing. */
  function Held(s: State, t: nat): int
    requires t < |s.tasks|
  {
    match s.tasks[t]
    case AtStart => t
    case Head(start) => start / CHUNK
    case Work(start, _, _) => start / CHUNK
    case _ => -1
  }

  /** How far a task has got with its chunk. */
  function Reached(s: State, t: nat): nat
    requires t < |s.tasks|
  {
    match s.tasks[t]
    case AtStart => t * CHUNK
    case Head(start) => start
    case Work(_, _, i) => i
    case _ => 0
  }

  ghost predicate TaskOk(s: State, t: nat)
    requires t < |s.tasks|
  {
    && (Held(s, t) >= 0 ==> Held(s, t) < |s.owner| && s.owner[Held(s, t)] == t)
    && match s.tasks[t]
       case Head(start) => start % CHUNK == 0
       case Work(start, stop, i) =>
         start % CHUNK == 0 && start < s.points && stop == Min(start + CHUNK, s.points) && start <= i <= stop
       case AtFinish => s.index >= s.points
       case AtRepeat => s.index >= s.points
       case _ => true
  }

  ghost predicate ChunkOk(s: State, c: nat)
    requires c < |s.owner|
  {
    s.owner[c] == -1 || (0 <= s.owner[c] < |s.tasks| && Held(s, s.owner[c]) == c)
  }

  /** A point has been written once if its chunk is done or its task has got past it, and not at all
      otherwise. */
  ghost predicate PointOk(s: State, x: nat)
    requires x < |s.written|
  {
    if x / CHUNK >= |s.owner| then s.written[x] == 0
    else
      var t := s.owner[x / CHUNK];
      s.written[x] == if t == -1 || (0 <= t < |s.tasks| && x < Reached(s, t)) then 1 else 0
  }

  /** The points of cluster `c` written in this round, of the first `n`. */
  function Tally(written: seq<nat>, membership: seq<int>, c: int, n: nat): nat
    requires n <= |written| && n <= |membership|
  {
    if n == 0 then 0
    else Tally(written, membership, c, n - 1) + if written[n - 1] > 0 && membership[n - 1] == c then 1 else 0
  }

  function Sum(xs: seq<nat>): nat { if xs == [] then 0 else Sum(xs[..|xs| - 1]) + xs[|xs| - 1] }

  ghost predicate RoundOk(s: State) {
    && |s.written| == |s.membership| == s.points
    && s.index == |s.owner| * CHUNK
    && (forall t | 0 <= t < |s.tasks| :: TaskOk(s, t))
    && (forall c | 0 <= c < |s.owner| :: ChunkOk(s, c))
    && (forall x | 0 <= x < s.points :: PointOk(s, x))
    && (forall c | 0 <= c < |s.counts| :: s.counts[c] == Tally(s.written, s.membership, c, s.points))
    && Sum(s.counts) == Sum(s.written)
  }

  ghost predicate Inv(s: State) {
    && |s.tasks| > 0 && |s.membership| == s.points
    && (s.main.Start? || s.main.Finish? || s.main.Repeat? ==> s.main.k <= |s.tasks|)
    && (forall t | 0 <= t < |s.tasks| :: PhaseOk(s, t))
    && (!Active(s.main) ==> forall c | 0 <= c < |s.counts| :: s.counts[c] == 0)
    && (Active(s.main) ==> RoundOk(s))
  }
}

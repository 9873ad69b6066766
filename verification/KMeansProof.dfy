/** Every round of k-means passes each point on exactly once. */
module KMeansProof {
  import opened KMeans

  // ------------------------------------------------------------ every step keeps it

  lemma {:induction false} TallyZeros(written: seq<nat>, membership: seq<int>, c: int, n: nat)
    requires n <= |written| && n <= |membership| && forall x | 0 <= x < n :: written[x] == 0
    ensures Tally(written, membership, c, n) == 0
  {
    if n > 0 {
      TallyZeros(written, membership, c, n - 1);
    }
  }

  /** Writing a point for the first time counts it for its cluster. */
  lemma {:induction false} TallyWrite(written: seq<nat>, membership: seq<int>, i: nat, d: int, c: int, n: nat)
    requires n <= |written| && n <= |membership| && i < |written| && i < |membership| && written[i] == 0
    ensures Tally(written[i := 1], membership[i := d], c, n)
         == Tally(written, membership, c, n) + if i < n && c == d then 1 else 0
  {
    if n > 0 {
      TallyWrite(written, membership, i, d, c, n - 1);
    }
  }

  lemma {:induction false} SumChanges(xs: seq<nat>, c: nat)
    requires c < |xs|
    ensures Sum(xs[c := xs[c] + 1]) == Sum(xs) + 1
  {
    var n := |xs| - 1;
    if c < n {
      SumChanges(xs[..n], c);
      assert xs[c := xs[c] + 1][..n] == xs[..n][c := xs[c] + 1];
    } else {
      assert xs[c := xs[c] + 1][..n] == xs[..n];
    }
  }

  lemma {:induction false} SumSame(xs: seq<nat>, d: nat)
    requires d <= 1 && forall i | 0 <= i < |xs| :: xs[i] == d
    ensures Sum(xs) == d * |xs|
  {
    if xs != [] {
      SumSame(xs[..|xs| - 1], d);
    }
  }

  lemma ResetInv(s: State, s': State)
    requires Inv(s) && DoResetIndex(s, s')
    ensures Inv(s')
  {
    forall c | 0 <= c < |s'.counts|
      ensures s'.counts[c] == Tally(s'.written, s'.membership, c, s'.points)
    {
      TallyZeros(s'.written, s'.membership, c, s'.points);
    }
    SumSame(s'.counts, 0);
    SumSame(s'.written, 0);
    forall t | 0 <= t < |s'.tasks|
      ensures TaskOk(s', t) && PhaseOk(s', t)
    {
      assert PhaseOk(s, t);
    }
    forall c | 0 <= c < |s'.owner|
      ensures ChunkOk(s', c)
    {
      assert s'.owner[c] == c && PhaseOk(s, c);
    }
    forall x | 0 <= x < s'.points
      ensures PointOk(s', x)
    {
      if x / CHUNK < |s'.owner| {
        assert s'.owner[x / CHUNK] == x / CHUNK && PhaseOk(s, x / CHUNK);
      }
    }
    hide Tally, PhaseOk, TaskOk, ChunkOk, PointOk;
  }

  lemma StartInv(s: State, s': State)
    requires Inv(s) && DoStartTask(s, s')
    ensures Inv(s')
  {
    hide Tally;
    var n := |s.tasks|;
    forall t | 0 <= t < n
      ensures PhaseOk(s', t) && TaskOk(s', t)
    {
      assert PhaseOk(s, t) && TaskOk(s, t);
    }
    forall c | 0 <= c < |s.owner|
      ensures ChunkOk(s', c)
    {
      assert ChunkOk(s, c);
    }
    forall x | 0 <= x < s.points
      ensures PointOk(s', x)
    {
      assert PointOk(s, x);
    }
    hide PhaseOk, TaskOk, ChunkOk, PointOk;
  }

  lemma FinishInv(s: State, s': State)
    requires Inv(s) && DoFinishTask(s, s')
    ensures Inv(s')
  {
    hide Tally;
    var n := |s.tasks|;
    forall t | 0 <= t < n
      ensures PhaseOk(s', t) && TaskOk(s', t)
    {
      assert PhaseOk(s, t) && TaskOk(s, t);
    }
    forall c | 0 <= c < |s.owner|
      ensures ChunkOk(s', c)
    {
      assert ChunkOk(s, c);
    }
    forall x | 0 <= x < s.points
      ensures PointOk(s', x)
    {
      assert PointOk(s, x);
      assert x / CHUNK < |s.owner| ==> ChunkOk(s, x / CHUNK);
    }
    hide PhaseOk, TaskOk, ChunkOk, PointOk;
  }

  lemma CollectRepeatInv(s: State, s': State, a: Action)
    requires Inv(s) && Step(s, s', a) && (a.CollectCentres? || a.RepeatTask?)
    ensures Inv(s')
  {
    hide RoundOk;
    forall t | 0 <= t < |s.tasks|
      ensures PhaseOk(s', t)
    {
      assert PhaseOk(s, t);
    }
    hide PhaseOk;
  }

  // ------------------------------------------------------------ the tasks

  /** A task that takes steps is one the main loop has started and not yet seen finished. */
  lemma TaskPhase(s: State, t: nat)
    requires Inv(s) && t < |s.tasks| && (s.tasks[t].Head? || s.tasks[t].Work?)
    ensures Active(s.main) && RoundOk(s) && TaskOk(s, t) && PhaseOk(s, t)
  {
    assert PhaseOk(s, t);
  }

  /** Phases are left alone by tasks that stay under way. */
  lemma PhasesKept(s: State, s': State, t: nat)
    requires |s'.tasks| == |s.tasks| && s'.main == s.main && t < |s.tasks|
    requires Underway(s.tasks[t]) && Underway(s'.tasks[t])
    requires forall q | 0 <= q < |s.tasks| && q != t :: s'.tasks[q] == s.tasks[q]
    requires forall q | 0 <= q < |s.tasks| :: PhaseOk(s, q)
    ensures forall q | 0 <= q < |s.tasks| :: PhaseOk(s', q)
  {
    forall q | 0 <= q < |s.tasks|
      ensures PhaseOk(s', q)
    {
      assert PhaseOk(s, q);
    }
  }

  lemma ChunkRange(x: nat, start: nat)
    requires start % CHUNK == 0 && x / CHUNK == start / CHUNK
    ensures start <= x < start + CHUNK
  {
  }

  lemma EnterInv(s: State, s': State, t: nat)
    requires Inv(s) && DoEnterChunk(s, s', t)
    ensures Inv(s')
  {
    hide Tally;
    TaskPhase(s, t);
    PhasesKept(s, s', t);
    hide PhaseOk;
    forall q | 0 <= q < |s.tasks|
      ensures TaskOk(s', q)
    {
      assert TaskOk(s, q);
    }
    forall c | 0 <= c < |s.owner|
      ensures ChunkOk(s', c)
    {
      assert ChunkOk(s, c);
    }
    forall x | 0 <= x < s.points
      ensures PointOk(s', x)
    {
      assert PointOk(s, x);
      assert x / CHUNK < |s.owner| ==> ChunkOk(s, x / CHUNK);
      if x / CHUNK == s.tasks[t].start / CHUNK {
        ChunkRange(x, s.tasks[t].start);
      }
    }
    hide TaskOk, ChunkOk, PointOk;
  }

  /** The point a task is at has not been written yet. */
  lemma NotYetWritten(s: State, t: nat)
    requires RoundOk(s) && t < |s.tasks| && s.tasks[t].Work? && s.tasks[t].i < s.tasks[t].stop
    ensures s.tasks[t].i < s.points && s.written[s.tasks[t].i] == 0
  {
    assert TaskOk(s, t);
    assert s.tasks[t].i / CHUNK == s.tasks[t].start / CHUNK && PointOk(s, s.tasks[t].i);
    hide Tally, Sum;
  }

  lemma WriteCounts(s: State, s': State, t: nat, d: nat)
    requires RoundOk(s) && DoWritePoint(s, s', t, d)
    ensures forall c | 0 <= c < |s'.counts| :: s'.counts[c] == Tally(s'.written, s'.membership, c, s'.points)
    ensures Sum(s'.counts) == Sum(s'.written)
  {
    var i := s.tasks[t].i;
    NotYetWritten(s, t);
    hide PointOk, TaskOk, ChunkOk;
    forall c | 0 <= c < |s.counts|
      ensures s'.counts[c] == Tally(s'.written, s'.membership, c, s.points)
    {
      TallyWrite(s.written, s.membership, i, d, c, s.points);
    }
    SumChanges(s.counts, d);
    SumChanges(s.written, i);
  }

  lemma WritePoints(s: State, s': State, t: nat, d: nat, x: nat)
    requires RoundOk(s) && DoWritePoint(s, s', t, d) && x < s.points
    ensures PointOk(s', x)
  {
    NotYetWritten(s, t);
    assert PointOk(s, x) && TaskOk(s, t);
    assert x / CHUNK < |s.owner| ==> ChunkOk(s, x / CHUNK);
    hide Tally, Sum;
  }

  lemma WriteInv(s: State, s': State, t: nat, d: nat)
    requires Inv(s) && DoWritePoint(s, s', t, d)
    ensures Inv(s')
  {
    hide Tally, Sum;
    TaskPhase(s, t);
    PhasesKept(s, s', t);
    hide PhaseOk;
    WriteCounts(s, s', t, d);
    forall x | 0 <= x < s.points
      ensures PointOk(s', x)
    {
      WritePoints(s, s', t, d, x);
    }
    hide PointOk;
    forall q | 0 <= q < |s.tasks|
      ensures TaskOk(s', q)
    {
      assert TaskOk(s, q);
    }
    forall c | 0 <= c < |s.owner|
      ensures ChunkOk(s', c)
    {
      assert ChunkOk(s, c);
    }
    hide TaskOk, ChunkOk;
  }

  /** When a task has done its chunk, all its points have been written. */
  lemma AddInv(s: State, s': State, t: nat)
    requires Inv(s) && DoAddIndex(s, s', t)
    ensures Inv(s')
  {
    hide Tally;
    TaskPhase(s, t);
    PhasesKept(s, s', t);
    hide PhaseOk;
    forall q | 0 <= q < |s.tasks|
      ensures TaskOk(s', q)
    {
      assert TaskOk(s, q);
    }
    forall c | 0 <= c < |s'.owner|
      ensures ChunkOk(s', c)
    {
      if c < |s.owner| {
        assert ChunkOk(s, c);
      }
    }
    forall x | 0 <= x < s.points
      ensures PointOk(s', x)
    {
      assert PointOk(s, x);
      assert x / CHUNK < |s.owner| ==> ChunkOk(s, x / CHUNK);
      if x / CHUNK == s.tasks[t].start / CHUNK {
        ChunkRange(x, s.tasks[t].start);
      }
    }
    hide TaskOk, ChunkOk, PointOk;
  }

  lemma LastInv(s: State, s': State, t: nat)
    requires Inv(s) && DoLastChunk(s, s', t)
    ensures Inv(s')
  {
    hide Tally;
    TaskPhase(s, t);
    PhasesKept(s, s', t);
    hide PhaseOk;
    forall q | 0 <= q < |s.tasks|
      ensures TaskOk(s', q)
    {
      assert TaskOk(s, q);
    }
    forall c | 0 <= c < |s.owner|
      ensures ChunkOk(s', c)
    {
      assert ChunkOk(s, c);
    }
    forall x | 0 <= x < s.points
      ensures PointOk(s', x)
    {
      assert PointOk(s, x);
      assert x / CHUNK < |s.owner| ==> ChunkOk(s, x / CHUNK);
      if x / CHUNK == s.tasks[t].start / CHUNK {
        ChunkRange(x, s.tasks[t].start);
      }
    }
    hide TaskOk, ChunkOk, PointOk;
  }

  lemma StepInv(s: State, s': State, a: Action)
    requires Inv(s) && Step(s, s', a)
    ensures Inv(s')
  {
    hide Inv;
    match a
    case ResetIndex => ResetInv(s, s');
    case StartTask => StartInv(s, s');
    case FinishTask => FinishInv(s, s');
    case CollectCentres(_) => CollectRepeatInv(s, s', a);
    case RepeatTask => CollectRepeatInv(s, s', a);
    case EnterChunk(t) => EnterInv(s, s', t);
    case WritePoint(t, c) => WriteInv(s, s', t, c);
    case AddIndex(t) => AddInv(s, s', t);
    case LastChunk(t) => LastInv(s, s', t);
  }

  lemma {:induction false} RunInv(r: seq<State>, acts: seq<Action>, i: nat)
    requires IsRun(r, acts) && i < |r|
    ensures Inv(r[i])
  {
    hide Inv, Step;
    if i == 0 {
      InitInv(r[0]);
    } else {
      RunInv(r, acts, i - 1);
      assert Step(r[i - 1], r[i], acts[i - 1]);
      StepInv(r[i - 1], r[i], acts[i - 1]);
    }
  }

  lemma InitInv(s: State)
    requires Init(s)
    ensures Inv(s)
  {
  }

  /** Any number of tasks may start, on any number of points and clusters. */
  lemma CanStart(points: nat, clusters: nat, tasks: nat) returns (s: State)
    requires tasks > 0
    ensures s.points == points && |s.counts| == clusters && |s.tasks| == tasks && IsRun([s], [])
  {
    s := State(points, 0, Zeros(clusters), seq(points, i => -1), SetIndex, seq(tasks, t => AtStart), [], []);
  }

  // ------------------------------------------------------------ what every round has done

  /** When the centres are collected, every point has been written exactly once in this round. */
  lemma EachPointOnce(r: seq<State>, acts: seq<Action>, i: nat, x: nat)
    requires IsRun(r, acts) && i < |r| && r[i].main.Collect? && x < r[i].points
    ensures |r[i].written| == r[i].points && r[i].written[x] == 1
  {
    var s := r[i];
    RunInv(r, acts, i);
    hide IsRun;
    AllWritten(s, x);
  }

  lemma AllWritten(s: State, x: nat)
    requires Inv(s) && s.main.Collect? && x < s.points
    ensures |s.written| == s.points && s.written[x] == 1
  {
    assert PhaseOk(s, 0) && TaskOk(s, 0);
    assert PointOk(s, x) && ChunkOk(s, x / CHUNK);
    var t := s.owner[x / CHUNK];
    assert t != -1 ==> PhaseOk(s, t);
    hide Tally;
  }

  /** ... and at no time more than once. */
  lemma NoPointTwice(r: seq<State>, acts: seq<Action>, i: nat, x: nat)
    requires IsRun(r, acts) && i < |r| && Active(r[i].main) && x < r[i].points
    ensures |r[i].written| == r[i].points && r[i].written[x] <= 1
  {
    RunInv(r, acts, i);
    hide IsRun;
    assert PointOk(r[i], x);
  }

  /** Point `x` was given to cluster `c` at step `j`, in this round. */
  ghost predicate GivenAt(r: seq<State>, acts: seq<Action>, j: nat, i: nat, x: nat, c: nat) {
    && j < i < |r| && i <= |acts| && acts[j].WritePoint? && acts[j].c == c
    && acts[j].t < |r[j].tasks| && r[j].tasks[acts[j].t].Work? && r[j].tasks[acts[j].t].i == x
    && (forall k | j <= k < i :: Active(r[k].main) && !acts[k].ResetIndex?)
  }

  lemma WriteGives(s: State, s': State, t: nat, c: nat, x: nat)
    requires Inv(s) && DoWritePoint(s, s', t, c) && Active(s.main) && x < s.points
    requires |s'.written| == |s'.membership| == s'.points == s.points && s'.written[x] == 1
    ensures |s.written| == |s.membership| == s.points
    ensures if s.tasks[t].i == x then s'.membership[x] == c
            else s.written[x] == 1 && s'.membership[x] == s.membership[x]
  {
    hide Tally, Sum, TaskOk, ChunkOk, PointOk, PhaseOk;
  }

  lemma OtherGivesNone(s: State, s': State, a: Action, x: nat)
    requires Inv(s) && Inv(s') && Step(s, s', a) && !a.WritePoint? && Active(s'.main) && x < s'.points
    requires |s'.written| == |s'.membership| == s'.points && s'.written[x] == 1
    ensures Active(s.main) && !a.ResetIndex? && |s.written| == |s.membership| == s.points == s'.points
    ensures s.written[x] == 1 && s'.membership[x] == s.membership[x]
  {
    hide Tally, Sum, TaskOk, ChunkOk, PointOk, PhaseOk;
  }

  lemma RoundLengths(s: State)
    requires Inv(s) && Active(s.main)
    ensures |s.written| == |s.membership| == s.points
  {
    hide Tally, Sum, TaskOk, ChunkOk, PointOk, PhaseOk;
  }

  lemma WriterIsActive(s: State, s': State, t: nat, c: nat)
    requires Inv(s) && DoWritePoint(s, s', t, c)
    ensures Active(s.main) && s'.main == s.main && s'.points == s.points
  {
    TaskPhase(s, t);
  }

  lemma {:induction false} GivenIn(r: seq<State>, acts: seq<Action>, i: nat, x: nat) returns (j: nat, c: nat)
    requires IsRun(r, acts) && i < |r| && Active(r[i].main) && x < r[i].points
    requires |r[i].written| == |r[i].membership| == r[i].points && r[i].written[x] == 1
    ensures GivenAt(r, acts, j, i, x, c) && r[i].membership[x] == c
    decreases i
  {
    hide Inv, Step, DoWritePoint, Active;
    if i == 0 {
      StartsInactive(r[0]);
      assert false;
    }
    var s, s', a := r[i - 1], r[i], acts[i - 1];
    RunInv(r, acts, i - 1);
    RunInv(r, acts, i);
    assert Step(s, s', a);
    hide Init;
    if a.WritePoint? {
      WriteStep(s, s', a);
      WriterIsActive(s, s', a.t, a.c);
      WriteGives(s, s', a.t, a.c, x);
      if s.tasks[a.t].i == x {
        j, c := i - 1, a.c;
      } else {
        j, c := GivenIn(r, acts, i - 1, x);
      }
    } else {
      OtherGivesNone(s, s', a, x);
      j, c := GivenIn(r, acts, i - 1, x);
    }
  }

  lemma WriteStep(s: State, s': State, a: Action)
    requires Step(s, s', a) && a.WritePoint?
    ensures DoWritePoint(s, s', a.t, a.c) && a.t < |s.tasks| && s.tasks[a.t].Work?
  {
  }

  lemma StartsInactive(s: State)
    requires Init(s)
    ensures !Active(s.main)
  {
  }

  /** When the centres are collected, `Membership` has for each point the cluster it was given to at the one step of
      this round that wrote it. */
  lemma MembershipIsGiven(r: seq<State>, acts: seq<Action>, i: nat, x: nat) returns (j: nat, c: nat)
    requires IsRun(r, acts) && i < |r| && r[i].main.Collect? && x < r[i].points
    ensures |r[i].membership| == r[i].points && r[i].membership[x] == c && GivenAt(r, acts, j, i, x, c)
  {
    hide Init, Step, Inv;
    EachPointOnce(r, acts, i, x);
    RunInv(r, acts, i);
    RoundLengths(r[i]);
    j, c := GivenIn(r, acts, i, x);
  }

  /** The number of points that belong to cluster `c`, of the first `n`. */
  function Members(membership: seq<int>, c: int, n: nat): nat
    requires n <= |membership|
  {
    if n == 0 then 0 else Members(membership, c, n - 1) + if membership[n - 1] == c then 1 else 0
  }

  lemma {:induction false} TallyIsMembers(s: State, c: int, n: nat)
    requires Inv(s) && s.main.Collect? && n <= s.points
    ensures |s.written| == |s.membership| == s.points
    ensures Tally(s.written, s.membership, c, n) == Members(s.membership, c, n)
  {
    if n > 0 {
      TallyIsMembers(s, c, n - 1);
      AllWritten(s, n - 1);
      hide Inv;
    }
  }

  /** The count of each cluster is the number of points that `Membership` gives it. */
  lemma CountsAreMemberships(r: seq<State>, acts: seq<Action>, i: nat, c: nat)
    requires IsRun(r, acts) && i < |r| && r[i].main.Collect? && c < |r[i].counts|
    ensures |r[i].membership| == r[i].points && r[i].counts[c] == Members(r[i].membership, c, r[i].points)
  {
    RunInv(r, acts, i);
    hide IsRun;
    TallyIsMembers(r[i], c, r[i].points);
    hide Tally, Members;
  }

  /** The counts of the clusters add up to the number of points. */
  lemma CountsSumToPoints(r: seq<State>, acts: seq<Action>, i: nat)
    requires IsRun(r, acts) && i < |r| && r[i].main.Collect?
    ensures Sum(r[i].counts) == r[i].points
  {
    var s := r[i];
    RunInv(r, acts, i);
    hide IsRun;
    forall x | 0 <= x < s.points
      ensures |s.written| == s.points && s.written[x] == 1
    {
      AllWritten(s, x);
    }
    SumSame(s.written, 1);
    hide Tally, PhaseOk, TaskOk, ChunkOk, PointOk;
  }

  /** No round gets stuck: until the main loop is done, it or the task it waits for has a step. */
  lemma NeverStuck(r: seq<State>, acts: seq<Action>, i: nat) returns (s': State, a: Action)
    requires IsRun(r, acts) && i < |r| && !r[i].main.Done? && |r[i].counts| > 0
    ensures Step(r[i], s', a)
  {
    var s := r[i];
    RunInv(r, acts, i);
    hide IsRun, Tally, Sum;
    var n := |s.tasks|;
    match s.main
    case SetIndex =>
      a := ResetIndex;
      s' := s.(index := n * CHUNK, main := Start(0), written := Zeros(s.points), owner := Own(n));
    case Start(k) =>
      assert k < n ==> PhaseOk(s, k);
      a := StartTask;
      s' := if k < n then s.(tasks := s.tasks[k := Head(k * CHUNK)], main := Start(k + 1)) else s.(main := Finish(0));
    case Finish(k) =>
      if k < n && !s.tasks[k].AtFinish? {
        s', a := TaskGoes(s, k);
      } else {
        a := FinishTask;
        s' := if k < n then s.(tasks := s.tasks[k := AtRepeat], main := Finish(k + 1)) else s.(main := Collect);
      }
    case Collect =>
      a := CollectCentres(true);
      s' := s.(counts := Zeros(|s.counts|), main := Repeat(0, true));
    case Repeat(k, again) =>
      assert k < n ==> PhaseOk(s, k);
      a := RepeatTask;
      s' := if k < n then s.(tasks := s.tasks[k := if again then AtStart else Ended], main := Repeat(k + 1, again))
            else s.(main := if again then SetIndex else Done);
  }

  lemma TaskGoes(s: State, t: nat) returns (s': State, a: Action)
    requires Inv(s) && s.main.Finish? && s.main.k == t < |s.tasks| && !s.tasks[t].AtFinish? && |s.counts| > 0
    ensures Step(s, s', a)
  {
    assert PhaseOk(s, t) && TaskOk(s, t);
    hide Inv;
    match s.tasks[t]
    case Head(start) =>
      a := EnterChunk(t);
      s' := if start < s.points then s.(tasks := s.tasks[t := Work(start, Min(start + CHUNK, s.points), start)])
            else s.(tasks := s.tasks[t := AtFinish], owner := Release(s.owner, start / CHUNK));
    case Work(start, stop, i) =>
      if i < stop {
        assert |s.membership| == s.points by { MembershipFits(s); }
        a := WritePoint(t, 0);
        s' := s.(membership := s.membership[i := 0], counts := s.counts[0 := s.counts[0] + 1],
                 written := Count(s.written, i), tasks := s.tasks[t := Work(start, stop, i + 1)]);
      } else if start + CHUNK < s.points {
        a := AddIndex(t);
        s' := s.(index := s.index + CHUNK, tasks := s.tasks[t := Head(s.index)],
                 owner := Release(s.owner, start / CHUNK) + [t]);
      } else {
        a := LastChunk(t);
        s' := s.(tasks := s.tasks[t := AtFinish], owner := Release(s.owner, start / CHUNK));
      }
  }

  lemma MembershipFits(s: State)
    requires Inv(s)
    ensures |s.membership| == s.points
  {
  }
}

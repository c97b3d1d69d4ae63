/**
 * What any run of the logging processes does to the lines they wrote: with compression off the
 * backups and the current file are one unbroken end of the history, and with it on no line leaves
 * the files except with the oldest backup. The size of every file is bounded.
 */
module LogHistory {

  import opened LogRotation

  type Run = seq<(Pid, Act)>

  /** t is reached from s by some interleaving of the processes' steps. */
  ghost predicate Runs(c: Config, s: State, run: Run, t: State)
    decreases |run|
  {
    if run == [] then s == t
    else Enabled(s, run[0].0, run[0].1) && Runs(c, Next(c, s, run[0].0, run[0].1), run[1..], t)
  }

  lemma {:induction false} RunSound(c: Config, s: State, run: Run, t: State)
    requires Sound(c, s) && Runs(c, s, run, t)
    ensures Sound(c, t)
    decreases |run|
  {
    if run != [] {
      assert run[0].0 in s.procs;
      hide Sound, Next, Enabled;
      StepSound(c, s, run[0].0, run[0].1);
      RunSound(c, Next(c, s, run[0].0, run[0].1), run[1..], t);
    }
  }

  // ─── Compression off ───────────────────────────────────────────────────────

  /** Backup n, backup n - 1, ... backup 1, the current file. */
  function Chain(s: State, n: nat): seq<Line> {
    if n == 0 then Content(s, PATH) else Content(s, Slot(n)) + Chain(s, n - 1)
  }

  lemma {:induction false} ChainSame(s: State, t: State, n: nat)
    requires forall k :: 0 <= k <= n ==> Content(t, Slot(k)) == Content(s, Slot(k))
    ensures Chain(t, n) == Chain(s, n)
  {
    hide Content;
    if n > 0 { ChainSame(s, t, n - 1); }
  }

  lemma {:induction false} ChainGrows(s: State, t: State, n: nat, line: Line)
    requires forall k :: 1 <= k <= n ==> Content(t, Slot(k)) == Content(s, Slot(k))
    requires Content(t, PATH) == Content(s, PATH) + [line]
    ensures Chain(t, n) == Chain(s, n) + [line]
  {
    hide Content;
    if n > 0 { ChainGrows(s, t, n - 1, line); }
  }

  /** Backup i moves up into an empty place: the chain reads the same. */
  lemma {:induction false} ChainShifts(s: State, t: State, i: nat, n: nat)
    requires forall k :: 0 <= k <= n && k != i && k != i + 1 ==> Content(t, Slot(k)) == Content(s, Slot(k))
    requires i < n && Content(t, Slot(i)) == [] == Content(s, Slot(i + 1))
    requires Content(t, Slot(i + 1)) == Content(s, Slot(i))
    ensures Chain(t, n) == Chain(s, n)
  {
    hide Content;
    if n > i + 1 { ChainShifts(s, t, i, n - 1); }
    else if i > 0 { ChainSame(s, t, i - 1); }
  }

  ghost predicate PlainHistory(c: Config, s: State) {
    s.log == s.dropped + Chain(s, c.maxBackups)
  }

  /** The oldest backup goes. */
  lemma PlainUnlink(c: Config, s: State, p: Pid, spare: Ino)
    requires Sound(c, s) && Enabled(s, p, Go(spare)) && PlainHistory(c, s) && s.procs[p].pc.Unlink?
    ensures PlainHistory(c, Next(c, s, p, Go(spare)))
    ensures Next(c, s, p, Go(spare)).dropped == s.dropped + Content(s, Slot(c.maxBackups))
  {
    ChainSame(s, Next(c, s, p, Go(spare)), c.maxBackups - 1);
  }

  lemma PlainShift(c: Config, s: State, p: Pid, spare: Ino)
    requires Sound(c, s) && Enabled(s, p, Go(spare)) && PlainHistory(c, s) && s.procs[p].pc.Shift?
    ensures PlainHistory(c, Next(c, s, p, Go(spare)))
    ensures Next(c, s, p, Go(spare)).dropped == s.dropped
  {
    var t := Next(c, s, p, Go(spare));
    var i := s.procs[p].pc.i;
    if Slot(i) in s.names { ChainShifts(s, t, i, c.maxBackups); } else { ChainSame(s, t, c.maxBackups); }
  }

  lemma PlainWrite(c: Config, s: State, p: Pid, spare: Ino)
    requires Sound(c, s) && Enabled(s, p, Go(spare)) && PlainHistory(c, s) && s.procs[p].pc.Write?
    ensures PlainHistory(c, Next(c, s, p, Go(spare)))
    ensures Next(c, s, p, Go(spare)).dropped == s.dropped
  {
    ChainGrows(s, Next(c, s, p, Go(spare)), c.maxBackups, Line(|s.log|, s.procs[p].text));
  }

  /** A step that neither rotates nor writes: no backup and no line of the log changes. */
  lemma PlainQuiet(c: Config, s: State, p: Pid, a: Act)
    requires Sound(c, s) && Enabled(s, p, a) && PlainHistory(c, s) && !c.compress
    requires a.Go? ==> !s.procs[p].pc.Unlink? && !s.procs[p].pc.Shift? && !s.procs[p].pc.Write?
    ensures PlainHistory(c, Next(c, s, p, a)) && Next(c, s, p, a).dropped == s.dropped
  {
    hide Size, Held, LocksOk;
    ChainSame(s, Next(c, s, p, a), c.maxBackups);
  }

  lemma StepPlain(c: Config, s: State, p: Pid, a: Act)
    requires Sound(c, s) && Enabled(s, p, a) && !c.compress && PlainHistory(c, s)
    ensures PlainHistory(c, Next(c, s, p, a))
    ensures var t := Next(c, s, p, a);
      if a.Go? && s.procs[p].pc.Unlink? then t.dropped == s.dropped + Content(s, Slot(c.maxBackups))
        else t.dropped == s.dropped
  {
    hide Sound, Next, PlainHistory;
    if a.Go? && s.procs[p].pc.Unlink? { PlainUnlink(c, s, p, a.spare); }
    else if a.Go? && s.procs[p].pc.Shift? { PlainShift(c, s, p, a.spare); }
    else if a.Go? && s.procs[p].pc.Write? { PlainWrite(c, s, p, a.spare); }
    else { PlainQuiet(c, s, p, a); }
  }

  /** In every reachable state, even inside a rotation, the files are the history less what was unlinked as oldest. */
  lemma {:induction false} PlainRun(c: Config, s: State, run: Run, t: State)
    requires Sound(c, s) && !c.compress && PlainHistory(c, s) && Runs(c, s, run, t)
    ensures t.log == t.dropped + Chain(t, c.maxBackups)
    ensures s.log <= t.log && s.dropped <= t.dropped
    decreases |run|
  {
    if run != [] {
      StepPlain(c, s, run[0].0, run[0].1);
      StepSound(c, s, run[0].0, run[0].1);
      var u := Next(c, s, run[0].0, run[0].1);
      assert s.log <= u.log;
      hide Sound, Next, Enabled;
      PlainRun(c, u, run[1..], t);
    }
  }

  // ─── Compression on ────────────────────────────────────────────────────────

  /** n is the current file, a backup or a staged file, and the line is in it; a .gz being written does not count. */
  predicate Holds(s: State, n: Name, line: Line) {
    n in s.names && !n.StagedGz? && line in Content(s, n)
  }

  ghost predicate Kept(s: State, line: Line) {
    line in s.dropped || exists n :: Holds(s, n, line)
  }

  /** Where the file called n is found after the step. */
  function Moved(s: State, p: Pid, a: Act, n: Name): Name
    requires p in s.procs
  {
    if !a.Go? then n else
    match s.procs[p].pc
    case Shift(i) => if n == Slot(i) then Slot(i + 1) else n
    case Stage => if n == PATH then Staged(s.procs[p].fd) else n
    case GzShift(_, i) => if n == Gz(i) then Gz(i + 1) else n
    case Unstage(ino) => if n == Staged(ino) then Gz(1) else n
    case _ => n
  }

  lemma KeptOfRotate(c: Config, s: State, p: Pid, spare: Ino, n: Name, line: Line)
    requires Sound(c, s) && Enabled(s, p, Go(spare)) && Holds(s, n, line)
    requires s.procs[p].pc.Unlink? || s.procs[p].pc.Shift? || s.procs[p].pc.Stage?
    ensures Kept(Next(c, s, p, Go(spare)), line)
  {
    hide LocksOk, Held, Size;
    assert ProcOk(c, s, s.procs[p]);
    hide ProcsOk;
    var t := Next(c, s, p, Go(spare));
    if s.procs[p].pc.Unlink? && n == Slot(c.maxBackups) {
      assert line in t.dropped;
    } else {
      assert Holds(t, Moved(s, p, Go(spare), n), line);
    }
  }

  lemma KeptOfWrite(c: Config, s: State, p: Pid, a: Act, n: Name, line: Line)
    requires Sound(c, s) && Enabled(s, p, a) && Holds(s, n, line) && !Compressing(s.procs[p].pc)
    requires a.Go? ==> !s.procs[p].pc.Unlink? && !s.procs[p].pc.Shift? && !s.procs[p].pc.Stage?
    ensures Kept(Next(c, s, p, a), line)
  {
    assert ProcOk(c, s, s.procs[p]);
    hide LocksOk, ProcsOk, Held, Size;
    assert Holds(Next(c, s, p, a), n, line);
  }

  /** Compressing leaves every file but the .gz as it is. */
  lemma KeptOfFill(c: Config, s: State, p: Pid, a: Act, n: Name, line: Line)
    requires Sound(c, s) && Enabled(s, p, a) && Holds(s, n, line)
    requires !a.Go? || s.procs[p].pc.GzOpen? || s.procs[p].pc.GzFill? || s.procs[p].pc.WantFinish?
    ensures Kept(Next(c, s, p, a), line)
  {
    assert ProcOk(c, s, s.procs[p]);
    hide LocksOk, ProcsOk, Held, Size;
    assert Holds(Next(c, s, p, a), n, line);
  }

  lemma KeptOfGzUnlink(c: Config, s: State, p: Pid, spare: Ino, n: Name, line: Line)
    requires Sound(c, s) && Enabled(s, p, Go(spare)) && Holds(s, n, line) && s.procs[p].pc.GzUnlink?
    ensures Kept(Next(c, s, p, Go(spare)), line)
  {
    assert ProcOk(c, s, s.procs[p]);
    hide LocksOk, ProcsOk, Held, Size, Grantable, Task;
    var t := Next(c, s, p, Go(spare));
    if n == Gz(c.maxBackups) {
      assert line in t.dropped;
    } else {
      assert Holds(t, n, line);
    }
  }

  lemma KeptOfGzShift(c: Config, s: State, p: Pid, spare: Ino, n: Name, line: Line)
    requires Sound(c, s) && Enabled(s, p, Go(spare)) && Holds(s, n, line) && s.procs[p].pc.GzShift?
    ensures Kept(Next(c, s, p, Go(spare)), line)
  {
    assert ProcOk(c, s, s.procs[p]);
    hide LocksOk, ProcsOk, Held, Size, Grantable, Task;
    assert Holds(Next(c, s, p, Go(spare)), Moved(s, p, Go(spare), n), line);
  }

  lemma KeptOfGzPlace(c: Config, s: State, p: Pid, spare: Ino, n: Name, line: Line)
    requires Sound(c, s) && Enabled(s, p, Go(spare)) && Holds(s, n, line) && s.procs[p].pc.GzPlace?
    ensures Kept(Next(c, s, p, Go(spare)), line)
  {
    assert ProcOk(c, s, s.procs[p]);
    hide LocksOk, ProcsOk, Held, Size, Grantable, Task;
    assert Holds(Next(c, s, p, Go(spare)), n, line);
  }

  /** The staged file goes, and backup 1 has its lines. */
  lemma KeptOfUnstage(c: Config, s: State, p: Pid, spare: Ino, n: Name, line: Line)
    requires Sound(c, s) && Enabled(s, p, Go(spare)) && Holds(s, n, line) && s.procs[p].pc.Unstage?
    ensures Kept(Next(c, s, p, Go(spare)), line)
  {
    assert ProcOk(c, s, s.procs[p]);
    hide LocksOk, ProcsOk, Held, Size, Grantable, Task;
    assert Holds(Next(c, s, p, Go(spare)), Moved(s, p, Go(spare), n), line);
  }

  /** A line stored before a step is stored after it, unless the step unlinked the oldest backup it was in. */
  lemma StepKept(c: Config, s: State, p: Pid, a: Act, n: Name, line: Line)
    requires Sound(c, s) && Enabled(s, p, a) && Holds(s, n, line)
    ensures Kept(Next(c, s, p, a), line)
  {
    hide Sound, Next, Kept;
    var pc := s.procs[p].pc;
    if a.Go? && (pc.Unlink? || pc.Shift? || pc.Stage?) { KeptOfRotate(c, s, p, a.spare, n, line); }
    else if !Compressing(pc) { KeptOfWrite(c, s, p, a, n, line); }
    else if !a.Go? || pc.GzOpen? || pc.GzFill? || pc.WantFinish? { KeptOfFill(c, s, p, a, n, line); }
    else if pc.GzUnlink? { KeptOfGzUnlink(c, s, p, a.spare, n, line); }
    else if pc.GzShift? { KeptOfGzShift(c, s, p, a.spare, n, line); }
    else if pc.GzPlace? { KeptOfGzPlace(c, s, p, a.spare, n, line); }
    else { KeptOfUnstage(c, s, p, a.spare, n, line); }
  }

  /** Lines are given up only with the oldest backup, plain or compressed, and exactly its lines. */
  lemma StepDrops(c: Config, s: State, p: Pid, a: Act)
    requires Sound(c, s) && Enabled(s, p, a)
    ensures var t := Next(c, s, p, a);
      || t.dropped == s.dropped
      || (a.Go? && s.procs[p].pc.Unlink? && t.dropped == s.dropped + Content(s, Slot(c.maxBackups)))
      || (a.Go? && s.procs[p].pc.GzUnlink? && t.dropped == s.dropped + Content(s, Gz(c.maxBackups)))
  {
    hide Sound, Content, Size, Renamed, Free, Grantable;
  }

  /** No file has the staging name of the log that is about to be rotated. */
  lemma StagingNameIsFree(c: Config, s: State, p: Pid)
    requires Sound(c, s) && p in s.procs && s.procs[p].pc.Stage?
    ensures PATH in s.names && s.names[PATH] == s.procs[p].fd && Staged(s.procs[p].fd) !in s.names
  {
    assert ProcOk(c, s, s.procs[p]);
  }

  lemma StagedByFinish(c: Config, s: State, p: Pid, spare: Ino, ino: Ino)
    requires Sound(c, s) && Enabled(s, p, Go(spare)) && Staged(ino) in s.names && Compressing(s.procs[p].pc)
    ensures var t := Next(c, s, p, Go(spare));
      if s.procs[p].pc == Unstage(ino)
      then Gz(1) in t.names && Content(t, Gz(1)) == Content(s, Staged(ino))
      else Staged(ino) in t.names && Content(t, Staged(ino)) == Content(s, Staged(ino))
  {
    assert ProcOk(c, s, s.procs[p]);
    assert s.names[Staged(ino)] == ino;
    hide LocksOk, ProcsOk, Held, Size, Grantable, Task;
  }

  lemma StagedByWrite(c: Config, s: State, p: Pid, a: Act, ino: Ino)
    requires Sound(c, s) && Enabled(s, p, a) && Staged(ino) in s.names && !(a.Go? && Compressing(s.procs[p].pc))
    ensures Staged(ino) in Next(c, s, p, a).names && Content(Next(c, s, p, a), Staged(ino)) == Content(s, Staged(ino))
  {
    assert ProcOk(c, s, s.procs[p]);
    assert s.names[Staged(ino)] == ino;
    hide LocksOk, ProcsOk, Held, Size, Grantable, Task;
  }

  /** A staged file is left alone by every step, until its own process has put its lines into backup 1. */
  lemma StepStaged(c: Config, s: State, p: Pid, a: Act, ino: Ino)
    requires Sound(c, s) && Enabled(s, p, a) && Staged(ino) in s.names
    ensures var t := Next(c, s, p, a);
      if a.Go? && s.procs[p].pc == Unstage(ino)
      then Gz(1) in t.names && Content(t, Gz(1)) == Content(s, Staged(ino))
      else Staged(ino) in t.names && Content(t, Staged(ino)) == Content(s, Staged(ino))
  {
    hide Sound, Next, Content;
    if a.Go? && Compressing(s.procs[p].pc) { StagedByFinish(c, s, p, a.spare, ino); }
      else { StagedByWrite(c, s, p, a, ino); }
  }

  /** Every line ever written is in the current file, a staged file or a backup, or went with the oldest backup. */
  ghost predicate AllKept(s: State) {
    forall line :: line in s.log ==> Kept(s, line)
  }

  lemma StepAllKept(c: Config, s: State, p: Pid, a: Act)
    requires Sound(c, s) && Enabled(s, p, a) && AllKept(s)
    ensures AllKept(Next(c, s, p, a))
  {
    var t := Next(c, s, p, a);
    forall line | line in t.log ensures Kept(t, line) {
      if line in s.log {
        assert Kept(s, line);
        if line !in s.dropped {
          var n :| Holds(s, n, line);
          StepKept(c, s, p, a, n, line);
        }
      } else {
        assert Holds(t, PATH, line);
      }
    }
  }

  lemma {:induction false} KeptRun(c: Config, s: State, run: Run, t: State)
    requires Sound(c, s) && AllKept(s) && Runs(c, s, run, t)
    ensures AllKept(t)
    decreases |run|
  {
    if run != [] {
      assert run[0].0 in s.procs;
      hide Sound, Next, Enabled, AllKept;
      StepAllKept(c, s, run[0].0, run[0].1);
      StepSound(c, s, run[0].0, run[0].1);
      KeptRun(c, Next(c, s, run[0].0, run[0].1), run[1..], t);
    }
  }

  /** Some state on the way has exactly these lines in backup 1. */
  ghost predicate PutAway(c: Config, s: State, run: Run, lines: seq<Line>)
    decreases |run|
  {
    || (Gz(1) in s.names && Content(s, Gz(1)) == lines)
    || (run != [] && Enabled(s, run[0].0, run[0].1) && PutAway(c, Next(c, s, run[0].0, run[0].1), run[1..], lines))
  }

  /** A staged file stays as it was renamed, whoever writes, rotates or crashes, until it is a backup whole. */
  lemma {:induction false} StagedRun(c: Config, s: State, run: Run, t: State, ino: Ino)
    requires Sound(c, s) && Runs(c, s, run, t) && Staged(ino) in s.names
    ensures (Staged(ino) in t.names && Content(t, Staged(ino)) == Content(s, Staged(ino)))
            || PutAway(c, s, run, Content(s, Staged(ino)))
    decreases |run|
  {
    if run != [] {
      assert run[0].0 in s.procs;
      hide Sound, Next, Enabled, Content;
      StepStaged(c, s, run[0].0, run[0].1, ino);
      StepSound(c, s, run[0].0, run[0].1);
      var u := Next(c, s, run[0].0, run[0].1);
      if Staged(ino) in u.names && Content(u, Staged(ino)) == Content(s, Staged(ino)) {
        StagedRun(c, u, run[1..], t, ino);
      }
    }
  }

  // ─── Size ──────────────────────────────────────────────────────────────────

  /** The process has found the file small enough and will write to it without looking again. */
  predicate IsReady(c: Config, q: Proc) {
    q.pc.Write? || (q.pc.Check? && q.size < c.maxSize)
  }

  function Ready(c: Config, s: State): set<Pid> {
    set p | p in s.procs && IsReady(c, s.procs[p])
  }

  lemma ReadyAtMost(c: Config, s: State)
    ensures |Ready(c, s)| <= |s.procs|
  {
    Subset(Ready(c, s), s.procs.Keys);
  }

  lemma {:induction false} Subset(a: set<Pid>, b: set<Pid>)
    requires a <= b
    ensures |a| <= |b|
  {
    if a != {} {
      var x :| x in a;
      Subset(a - {x}, b - {x});
    }
  }

  predicate FitsLine(q: Proc, longest: nat) {
    q.pc != Idle && q.pc != Dead ==> |q.text| + 1 <= longest
  }

  /**
   * No file exceeds the limit by more than one line for each process, and the current one leaves room for
   * those about to write.
   */
  ghost predicate Bounded(c: Config, s: State, longest: nat) {
    && (forall p :: p in s.procs ==> FitsLine(s.procs[p], longest))
    && (forall n :: n in s.names ==> Size(Content(s, n)) < c.maxSize + longest * |s.procs|)
    && Size(Content(s, PATH)) + longest * |Ready(c, s)| < c.maxSize + longest * |s.procs|
  }

  lemma SizeOfAppend(lines: seq<Line>, line: Line)
    ensures Size(lines + [line]) == Size(lines) + |line.text| + 1
  {
    assert (lines + [line])[..|lines|] == lines;
  }

  lemma Scale(longest: nat, a: nat, b: nat)
    requires a <= b
    ensures longest * a <= longest * b
  {
  }

  lemma ReadyStep(c: Config, s: State, t: State, p: Pid)
    requires p in s.procs && p in t.procs && t.procs == s.procs[p := t.procs[p]]
    ensures Ready(c, t) == if IsReady(c, t.procs[p]) then Ready(c, s) + {p} else Ready(c, s) - {p}
    ensures |t.procs| == |s.procs|
    ensures |Ready(c, t)| == |Ready(c, s)|
      + (if IsReady(c, t.procs[p]) && !IsReady(c, s.procs[p]) then 1 else 0)
      - (if !IsReady(c, t.procs[p]) && IsReady(c, s.procs[p]) then 1 else 0)
  {
    assert t.procs.Keys == s.procs.Keys;
    assert |t.procs| == |t.procs.Keys| && |s.procs| == |s.procs.Keys|;
    assert p in Ready(c, s) <==> IsReady(c, s.procs[p]);
  }

  /** What n holds in t is what m held in s, or nothing. */
  ghost predicate Inherits(s: State, t: State, n: Name, m: Name) {
    Content(t, n) == [] || (m in s.names && Content(t, n) == Content(s, m))
  }

  lemma ContentsOfWrite(c: Config, s: State, p: Pid, a: Act, n: Name) returns (m: Name)
    requires Sound(c, s) && Enabled(s, p, a) && !(a.Go? && s.procs[p].pc.Write?)
    requires !(a.Go? && Compressing(s.procs[p].pc))
    requires n in Next(c, s, p, a).names
    ensures Inherits(s, Next(c, s, p, a), n, m) && (n == PATH ==> m == PATH)
  {
    hide Sound, Next, Inherits;
    m := n;
    if a.Go? && s.procs[p].pc.Shift? { m := ContentsOfRotate(c, s, p, a.spare, n); }
    else if a.Go? && s.procs[p].pc.Stage? { m := ContentsOfStage(c, s, p, a.spare, n); }
    else { ContentsQuiet(c, s, p, a, n); }
  }

  lemma ContentsOfRotate(c: Config, s: State, p: Pid, spare: Ino, n: Name) returns (m: Name)
    requires Sound(c, s) && Enabled(s, p, Go(spare)) && s.procs[p].pc.Shift? && n in Next(c, s, p, Go(spare)).names
    ensures Inherits(s, Next(c, s, p, Go(spare)), n, m) && (n == PATH ==> m == PATH)
  {
    assert ProcOk(c, s, s.procs[p]);
    hide LocksOk, ProcsOk, Held, Size, Grantable, Task;
    m := if n == Slot(s.procs[p].pc.i + 1) then Slot(s.procs[p].pc.i) else n;
  }

  lemma ContentsOfStage(c: Config, s: State, p: Pid, spare: Ino, n: Name) returns (m: Name)
    requires Sound(c, s) && Enabled(s, p, Go(spare)) && s.procs[p].pc.Stage? && n in Next(c, s, p, Go(spare)).names
    ensures Inherits(s, Next(c, s, p, Go(spare)), n, m) && (n == PATH ==> m == PATH)
  {
    assert ProcOk(c, s, s.procs[p]);
    hide LocksOk, ProcsOk, Held, Size, Grantable, Task;
    m := if n == Staged(s.procs[p].fd) then PATH else n;
  }

  lemma ContentsQuiet(c: Config, s: State, p: Pid, a: Act, n: Name)
    requires Sound(c, s) && Enabled(s, p, a) && n in Next(c, s, p, a).names
    requires var pc := s.procs[p].pc;
      a.Go? ==> !pc.Write? && !pc.Shift? && !pc.Stage? && !Compressing(pc)
    ensures Inherits(s, Next(c, s, p, a), n, n)
  {
    hide LocksOk, ProcsOk, ProcOk, Held, Size, Grantable, Task;
  }

  lemma ContentsOfFinish(c: Config, s: State, p: Pid, spare: Ino, n: Name) returns (m: Name)
    requires Sound(c, s) && Enabled(s, p, Go(spare)) && Compressing(s.procs[p].pc)
    requires n in Next(c, s, p, Go(spare)).names
    ensures Inherits(s, Next(c, s, p, Go(spare)), n, m) && (n == PATH ==> m == PATH)
  {
    hide Sound, Next, Inherits;
    m := n;
    match s.procs[p].pc
    case GzShift(_, i) => m := ContentsOfShift(c, s, p, spare, n);
    case GzPlace(ino) => m := ContentsOfPlace(c, s, p, spare, n);
    case GzFill(ino) => m := ContentsOfFill(c, s, p, spare, n);
    case _ => ContentsStay(c, s, p, spare, n);
  }

  lemma ContentsOfShift(c: Config, s: State, p: Pid, spare: Ino, n: Name) returns (m: Name)
    requires Sound(c, s) && Enabled(s, p, Go(spare)) && s.procs[p].pc.GzShift? && n in Next(c, s, p, Go(spare)).names
    ensures Inherits(s, Next(c, s, p, Go(spare)), n, m) && (n == PATH ==> m == PATH)
  {
    hide Sound, Free, Grantable, Size, AfterShift, Next;
    PlaceIsFree(c, s, p);
    ShiftIs(c, s, p, spare);
    m := if n == Gz(s.procs[p].pc.i + 1) then Gz(s.procs[p].pc.i) else n;
  }

  lemma PlaceIsFree(c: Config, s: State, p: Pid)
    requires Sound(c, s) && p in s.procs && s.procs[p].pc.GzShift?
    ensures Gz(s.procs[p].pc.i + 1) !in s.names
  {
    assert ProcOk(c, s, s.procs[p]);
    hide FilesOk, LocksOk, ProcsOk, Content;
  }

  lemma ContentsOfPlace(c: Config, s: State, p: Pid, spare: Ino, n: Name) returns (m: Name)
    requires Sound(c, s) && Enabled(s, p, Go(spare)) && s.procs[p].pc.GzPlace? && n in Next(c, s, p, Go(spare)).names
    ensures Inherits(s, Next(c, s, p, Go(spare)), n, m) && (n == PATH ==> m == PATH)
  {
    assert ProcOk(c, s, s.procs[p]);
    hide LocksOk, ProcsOk, Held, Size, Grantable, Task;
    m := if n == Gz(1) then StagedGz(s.procs[p].pc.ino) else n;
  }

  lemma ContentsOfFill(c: Config, s: State, p: Pid, spare: Ino, n: Name) returns (m: Name)
    requires Sound(c, s) && Enabled(s, p, Go(spare)) && s.procs[p].pc.GzFill? && n in Next(c, s, p, Go(spare)).names
    ensures Inherits(s, Next(c, s, p, Go(spare)), n, m) && (n == PATH ==> m == PATH)
  {
    assert ProcOk(c, s, s.procs[p]);
    hide LocksOk, ProcsOk, Held, Size, Grantable, Task;
    m := if n == StagedGz(s.procs[p].pc.ino) then Staged(s.procs[p].pc.ino) else n;
  }

  /** The steps of a compression that rename nothing and fill nothing. */
  lemma ContentsStay(c: Config, s: State, p: Pid, spare: Ino, n: Name)
    requires Sound(c, s) && Enabled(s, p, Go(spare)) && n in Next(c, s, p, Go(spare)).names
    requires var pc := s.procs[p].pc; pc.GzOpen? || pc.GzUnlink? || pc.Unstage? || pc.WantFinish?
    ensures Inherits(s, Next(c, s, p, Go(spare)), n, n)
  {
    hide LocksOk, ProcsOk, Held, Size, Grantable, Task;
  }

  /** What a name holds after a step that writes no line is what some name held before it, or nothing. */
  lemma StepContents(c: Config, s: State, p: Pid, a: Act, n: Name) returns (m: Name)
    requires Sound(c, s) && Enabled(s, p, a) && !(a.Go? && s.procs[p].pc.Write?) && n in Next(c, s, p, a).names
    ensures Inherits(s, Next(c, s, p, a), n, m) && (n == PATH ==> m == PATH)
  {
    hide Sound, Next, Inherits;
    if a.Go? && Compressing(s.procs[p].pc) { m := ContentsOfFinish(c, s, p, a.spare, n); }
    else { m := ContentsOfWrite(c, s, p, a, n); }
  }

  lemma ReadyOfOpen(c: Config, s: State, p: Pid, spare: Ino)
    requires Sound(c, s) && Enabled(s, p, Go(spare)) && c.maxSize > 0
    requires Opening(s.procs[p].pc)
    ensures var t := Next(c, s, p, Go(spare));
      IsReady(c, t.procs[p]) ==> Size(Content(t, PATH)) < c.maxSize
  {
    assert ProcOk(c, s, s.procs[p]);
    assert s.procs[p].pc.Reopen? ==> Content(s, PATH) == [];
    assert Size([]) == 0;
    hide FilesOk, LocksOk, ProcsOk, ProcOk, Held, Grantable, Task;
  }

  /** A process becomes ready only on a file it has just found, or made, small enough. */
  lemma StepReady(c: Config, s: State, p: Pid, a: Act)
    requires Sound(c, s) && Enabled(s, p, a) && c.maxSize > 0
    ensures var t := Next(c, s, p, a);
      p in t.procs && t.procs == s.procs[p := t.procs[p]]
      && (IsReady(c, t.procs[p]) && !IsReady(c, s.procs[p]) ==> Size(Content(t, PATH)) < c.maxSize)
      && (a.Go? && s.procs[p].pc.Write? ==> !IsReady(c, t.procs[p]))
  {
    hide FilesOk, LocksOk, ProcsOk, ProcOk, Held, Grantable, Renamed, Task, Size, Sound;
    if a.Go? && Opening(s.procs[p].pc) { ReadyOfOpen(c, s, p, a.spare); }
  }

  lemma StepWrite(c: Config, s: State, p: Pid, spare: Ino, n: Name)
    requires Sound(c, s) && Enabled(s, p, Go(spare)) && s.procs[p].pc.Write?
    ensures var t := Next(c, s, p, Go(spare));
      && t.names == s.names && PATH in s.names
      && Content(t, n) == Content(s, n) + (if n == PATH then [Line(|s.log|, s.procs[p].text)] else [])
  {
    assert ProcOk(c, s, s.procs[p]);
    hide LocksOk, ProcsOk, Held, Size, Grantable;
  }

  lemma StepFits(c: Config, s: State, p: Pid, a: Act, longest: nat)
    requires Enabled(s, p, a) && (forall q :: q in s.procs ==> FitsLine(s.procs[q], longest))
    requires a.Begin? ==> |a.text| + 1 <= longest
    ensures forall q :: q in Next(c, s, p, a).procs ==> FitsLine(Next(c, s, p, a).procs[q], longest)
  {
    hide Size, Content, Renamed, Grantable, Held;
  }

  /** The bound on one file after a step, current file apart. */
  lemma StepFileBound(c: Config, s: State, p: Pid, a: Act, n: Name, limit: nat)
    requires Sound(c, s) && Enabled(s, p, a) && n in Next(c, s, p, a).names && limit > 0
    requires forall m :: m in s.names ==> Size(Content(s, m)) < limit
    requires a.Go? && s.procs[p].pc.Write? ==> n != PATH
    ensures Size(Content(Next(c, s, p, a), n)) < limit
  {
    hide Sound, Next, Content;
    assert Size([]) == 0;
    if a.Go? && s.procs[p].pc.Write? {
      StepWrite(c, s, p, a.spare, n);
      assert Content(s, n) + [] == Content(s, n);
    } else {
      var m := StepContents(c, s, p, a, n);
      assert Content(Next(c, s, p, a), n) == [] || Content(Next(c, s, p, a), n) == Content(s, m);
    }
  }

  /** The current file after a step that writes no line: as it was, or empty. */
  lemma StepPathSize(c: Config, s: State, p: Pid, a: Act)
    requires Sound(c, s) && Enabled(s, p, a) && !(a.Go? && s.procs[p].pc.Write?)
    ensures Size(Content(Next(c, s, p, a), PATH)) <= Size(Content(s, PATH))
  {
    var t := Next(c, s, p, a);
    assert Size([]) == 0;
    if PATH !in t.names {
      assert Content(t, PATH) == [];
    } else {
      hide Sound, Next, Content;
      var m := StepContents(c, s, p, a, PATH);
      assert Content(t, PATH) == [] || Content(t, PATH) == Content(s, PATH);
    }
  }

  /** Room is left in the current file for every process about to write. */
  lemma OneLess(longest: nat, n: nat)
    ensures longest * (n + 1) == longest * n + longest
  {
  }

  lemma StepRoom(c: Config, s: State, p: Pid, a: Act, longest: nat)
    requires Sound(c, s) && Enabled(s, p, a) && c.maxSize > 0 && Bounded(c, s, longest)
    ensures var t := Next(c, s, p, a);
      |t.procs| == |s.procs| && Size(Content(t, PATH)) + longest * |Ready(c, t)| < c.maxSize + longest * |s.procs|
  {
    hide Sound, Next, Content, Size, Ready;
    var t := Next(c, s, p, a);
    StepReady(c, s, p, a);
    ReadyStep(c, s, t, p);
    ReadyAtMost(c, t);
    if a.Go? && s.procs[p].pc.Write? {
      SizeOfAppend(Content(s, PATH), Line(|s.log|, s.procs[p].text));
      StepWrite(c, s, p, a.spare, PATH);
      assert FitsLine(s.procs[p], longest);
      assert |Ready(c, s)| == |Ready(c, t)| + 1;
      OneLess(longest, |Ready(c, t)|);
    } else {
      StepPathSize(c, s, p, a);
      if |Ready(c, t)| <= |Ready(c, s)| {
        Scale(longest, |Ready(c, t)|, |Ready(c, s)|);
      } else {
        Scale(longest, |Ready(c, t)|, |s.procs|);
      }
    }
  }

  lemma StepBounded(c: Config, s: State, p: Pid, a: Act, longest: nat)
    requires Sound(c, s) && Enabled(s, p, a) && c.maxSize > 0 && Bounded(c, s, longest)
    requires a.Begin? ==> |a.text| + 1 <= longest
    ensures Bounded(c, Next(c, s, p, a), longest)
  {
    hide Sound, Next, Content, Size, Ready, FitsLine;
    var t := Next(c, s, p, a);
    StepRoom(c, s, p, a, longest);
    StepFits(c, s, p, a, longest);
    Scale(longest, 0, |s.procs|);
    Scale(longest, 0, |Ready(c, t)|);
    forall n | n in t.names ensures Size(Content(t, n)) < c.maxSize + longest * |t.procs| {
      if n != PATH { StepFileBound(c, s, p, a, n, c.maxSize + longest * |s.procs|); }
    }
  }

  predicate ShortLines(run: Run, longest: nat) {
    forall k :: 0 <= k < |run| && run[k].1.Begin? ==> |run[k].1.text| + 1 <= longest
  }

  /** N processes writing lines of at most `longest` bytes keep every file below maxSize + N * longest. */
  lemma {:induction false} SizeRun(c: Config, s: State, run: Run, t: State, longest: nat)
    requires Sound(c, s) && Runs(c, s, run, t) && c.maxSize > 0 && Bounded(c, s, longest) && ShortLines(run, longest)
    ensures forall n :: n in t.names ==> Size(Content(t, n)) < c.maxSize + longest * |s.procs|
    decreases |run|
  {
    if run != [] {
      var u := Next(c, s, run[0].0, run[0].1);
      StepBounded(c, s, run[0].0, run[0].1, longest);
      StepSound(c, s, run[0].0, run[0].1);
      StepReady(c, s, run[0].0, run[0].1);
      ReadyStep(c, s, u, run[0].0);
      assert ShortLines(run[1..], longest);
      hide Sound, Next, Enabled, Content, Size, Bounded;
      SizeRun(c, u, run[1..], t, longest);
    }
  }

  // ─── Why a file is rotated ─────────────────────────────────────────────────

  predicate Rotating(pc: Pc) {
    pc.Unlink? || pc.Shift? || pc.Stage?
  }

  /** What a process has found the file to be is no more than it is, and a file being rotated is too large. */
  ghost predicate FoundOk(c: Config, s: State, q: Proc) {
    && (q.pc.Check? ==> q.size <= Size(Content(s, PATH)))
    && (Rotating(q.pc) ==> c.maxSize > 0 && Size(Content(s, PATH)) >= c.maxSize)
  }

  ghost predicate AllFound(c: Config, s: State) {
    forall p :: p in s.procs ==> FoundOk(c, s, s.procs[p])
  }

  /** The step takes the log's name off the file it named. */
  ghost predicate Takes(s: State, t: State) {
    PATH in s.names && (PATH in t.names ==> t.names[PATH] != s.names[PATH])
  }

  /** The process is about to rename the log itself. */
  predicate Renaming(pc: Pc) {
    pc == Shift(0) || pc.Stage?
  }

  lemma NameQuiet(c: Config, s: State, p: Pid, a: Act)
    requires Sound(c, s) && Enabled(s, p, a) && PATH in s.names && !(a.Go? && Compressing(s.procs[p].pc))
    requires a.Go? ==> !Renaming(s.procs[p].pc) && !s.procs[p].pc.Write?
    ensures !Takes(s, Next(c, s, p, a)) && Content(Next(c, s, p, a), PATH) == Content(s, PATH)
  {
    hide LocksOk, ProcsOk, ProcOk, Held, Size, Grantable, Task;
  }

  lemma NameByFinish(c: Config, s: State, p: Pid, spare: Ino)
    requires Sound(c, s) && Enabled(s, p, Go(spare)) && PATH in s.names && Compressing(s.procs[p].pc)
    ensures !Takes(s, Next(c, s, p, Go(spare))) && Content(Next(c, s, p, Go(spare)), PATH) == Content(s, PATH)
  {
    hide LocksOk, ProcsOk, ProcOk, Held, Size, Grantable, Task;
  }

  /** No other step takes the name off the log, or anything out of it. */
  lemma NameStays(c: Config, s: State, p: Pid, a: Act)
    requires Sound(c, s) && Enabled(s, p, a) && PATH in s.names && (a.Go? ==> !Renaming(s.procs[p].pc))
    ensures !Takes(s, Next(c, s, p, a)) && Size(Content(s, PATH)) <= Size(Content(Next(c, s, p, a), PATH))
  {
    hide Sound, Next, Size, Content, Takes;
    if a.Go? && s.procs[p].pc.Write? {
      StepWrite(c, s, p, a.spare, PATH);
      SizeOfAppend(Content(s, PATH), Line(|s.log|, s.procs[p].text));
      assert !Takes(s, Next(c, s, p, a)) by { NamesKept(s, Next(c, s, p, a)); }
    } else if a.Go? && Compressing(s.procs[p].pc) {
      NameByFinish(c, s, p, a.spare);
    } else {
      NameQuiet(c, s, p, a);
    }
  }

  lemma NamesKept(s: State, t: State)
    requires t.names == s.names
    ensures !Takes(s, t)
  {
  }

  /** A process judging the log or rotating it holds a lock, and the path names its file. */
  lemma OnItsFile(c: Config, s: State, p: Pid, q: Pid)
    requires Sound(c, s) && p in s.procs && q in s.procs && p != q && (s.procs[q].pc.Check? || Rotating(s.procs[q].pc))
    ensures PATH in s.names && !Renaming(s.procs[p].pc)
    ensures Rotating(s.procs[q].pc) ==> Held(s.procs[p].pc).None?
  {
    assert ProcOk(c, s, s.procs[q]);
    hide FilesOk, ProcsOk, ProcOk, Content;
  }

  lemma FoundByOther(c: Config, s: State, p: Pid, a: Act, q: Pid)
    requires Sound(c, s) && AllFound(c, s) && Enabled(s, p, a) && q in s.procs && p != q
    ensures FoundOk(c, Next(c, s, p, a), s.procs[q])
  {
    hide Sound, Next, Enabled, Size, Content, Held;
    assert FoundOk(c, s, s.procs[q]);
    if s.procs[q].pc.Check? || Rotating(s.procs[q].pc) {
      InProcs(s, p, a);
      OnItsFile(c, s, p, q);
      NameStays(c, s, p, a);
    }
  }

  /** The process itself: it has just looked at the file, or goes on with a rotation that leaves the name. */
  lemma FoundBySelf(c: Config, s: State, p: Pid, a: Act)
    requires Sound(c, s) && AllFound(c, s) && Enabled(s, p, a)
    ensures p in Next(c, s, p, a).procs && FoundOk(c, Next(c, s, p, a), Next(c, s, p, a).procs[p])
  {
    assert FoundOk(c, s, s.procs[p]);
    hide Sound, AllFound, Size, Free, Grantable;
    if a.Go? && Opening(s.procs[p].pc) {
      OpenIs(c, s, p, a.spare);
      hide Next, Opened;
    } else if a.Go? && Rotating(s.procs[p].pc) {
      FoundByShift(c, s, p, a.spare);
      hide Next;
    } else {
      hide RenameStep, OpenPath, DropStep, FoundOk;
      FoundByRest(c, s, p, a);
    }
  }

  lemma FoundByRest(c: Config, s: State, p: Pid, a: Act)
    requires Enabled(s, p, a) && FoundOk(c, s, s.procs[p])
    requires a.Go? ==> !Opening(s.procs[p].pc) && !Rotating(s.procs[p].pc)
    ensures var t := Next(c, s, p, a); p in t.procs && FoundOk(c, t, t.procs[p])
  {
    hide Size, Free, Grantable;
  }

  lemma FoundByShift(c: Config, s: State, p: Pid, spare: Ino)
    requires Sound(c, s) && Enabled(s, p, Go(spare)) && FoundOk(c, s, s.procs[p]) && Rotating(s.procs[p].pc)
    ensures var t := Next(c, s, p, Go(spare)); p in t.procs && FoundOk(c, t, t.procs[p])
  {
    assert ProcOk(c, s, s.procs[p]);
    if !Renaming(s.procs[p].pc) { NameStays(c, s, p, Go(spare)); }
    hide Sound, ProcOk, Size, Content, Free, Grantable;
  }

  lemma StepFound(c: Config, s: State, p: Pid, a: Act)
    requires Sound(c, s) && AllFound(c, s) && Enabled(s, p, a)
    ensures AllFound(c, Next(c, s, p, a))
  {
    StepFrame(c, s, p, a);
    FoundBySelf(c, s, p, a);
    hide Sound, Next, Enabled, FoundOk;
    var t := Next(c, s, p, a);
    forall q | q in t.procs ensures FoundOk(c, t, t.procs[q]) {
      if q != p { FoundByOther(c, s, p, a, q); }
    }
  }

  /** Whoever takes the log's name off a file, as a backup or for compression: the file is too large. */
  lemma StepTakes(c: Config, s: State, p: Pid, a: Act)
    requires Sound(c, s) && AllFound(c, s) && Enabled(s, p, a) && Takes(s, Next(c, s, p, a))
    ensures c.maxSize > 0 && Size(Content(s, PATH)) >= c.maxSize
  {
    InProcs(s, p, a);
    assert FoundOk(c, s, s.procs[p]);
    if !(a.Go? && Renaming(s.procs[p].pc)) { NameStays(c, s, p, a); }
  }

  /** At no step of the run does a file lose the log's name that is below the limit at that moment. */
  ghost predicate OnlyFullTaken(c: Config, s: State, run: Run)
    decreases |run|
  {
    run != [] && Enabled(s, run[0].0, run[0].1) ==>
      var t := Next(c, s, run[0].0, run[0].1);
      && (Takes(s, t) ==> c.maxSize > 0 && Size(Content(s, PATH)) >= c.maxSize)
      && OnlyFullTaken(c, t, run[1..])
  }

  /** Of several processes that found one file too large, one rotates it: for the others it is judged anew. */
  lemma {:induction false} TakenRun(c: Config, s: State, run: Run, t: State)
    requires Sound(c, s) && AllFound(c, s) && Runs(c, s, run, t)
    ensures OnlyFullTaken(c, s, run) && AllFound(c, t)
    decreases |run|
  {
    if run != [] {
      InProcs(s, run[0].0, run[0].1);
      hide Sound, Next, Enabled, AllFound, Takes, Content, Size;
      var u := Next(c, s, run[0].0, run[0].1);
      if Takes(s, u) { StepTakes(c, s, run[0].0, run[0].1); }
      StepFound(c, s, run[0].0, run[0].1);
      StepSound(c, s, run[0].0, run[0].1);
      TakenRun(c, u, run[1..], t);
    }
  }

  // ─── Where runs start ──────────────────────────────────────────────────────

  /** Idle processes over the files a former run left: the history is what the files hold. */
  ghost predicate Init(c: Config, s: State) {
    && c.maxBackups >= 1 && FilesOk(c, s)
    && (forall p :: p in s.procs ==> s.procs[p].pc == Idle || s.procs[p].pc == Dead)
    && s.dropped == []
    && (if c.compress then s.log == [] else PlainHistory(c, s))
  }

  lemma InitSound(c: Config, s: State)
    requires Init(c, s)
    ensures Sound(c, s) && AllKept(s) && AllFound(c, s) && (!c.compress ==> PlainHistory(c, s))
  {
    if !c.compress { ChainKept(s, c.maxBackups); }
  }

  lemma {:induction false} ChainKept(s: State, n: nat)
    ensures forall line :: line in Chain(s, n) ==> exists k :: 0 <= k <= n && Holds(s, Slot(k), line)
  {
    if n > 0 { ChainKept(s, n - 1); }
    forall line | line in Chain(s, n) ensures exists k :: 0 <= k <= n && Holds(s, Slot(k), line) {
      if line in Content(s, Slot(n)) {
        assert Holds(s, Slot(n), line);
      } else {
        var k :| 0 <= k <= n - 1 && Holds(s, Slot(k), line);
        assert 0 <= k <= n && Holds(s, Slot(k), line);
      }
    }
  }

  /**
   * Where a run starts, the bound is no more than that on the files a former run left: as many processes
   * leave it so.
   */
  lemma InitBounded(c: Config, s: State, longest: nat)
    requires Init(c, s) && c.maxSize > 0
    ensures Bounded(c, s, longest) <==> forall n :: n in s.names ==>
      Size(Content(s, n)) < c.maxSize + longest * |s.procs|
  {
    assert Ready(c, s) == {};
    assert Size([]) == 0;
    Scale(longest, 0, |s.procs|);
  }
}

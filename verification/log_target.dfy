/**
 * FileTarget as the program writes it: one process's write(), with its descriptor, its size and its
 * loops, over a kernel in which the other processes run between any two of its calls. Each method is
 * proved to make exactly the calls of the step machine, so every write is part of one of its runs.
 */
module LogTarget {

  import opened LogRotation
  import opened LogHistory
  import opened Wrappers

  /** Before a call returns the other processes do this, and a file the call creates gets inode spare. */
  datatype Turn = Turn(others: seq<(Pid, Act)>, spare: Ino)

  lemma {:induction false} RunExtends(c: Config, s: State, run: Run, t: State, p: Pid, a: Act)
    requires Runs(c, s, run, t) && Enabled(t, p, a)
    ensures Runs(c, s, run + [(p, a)], Next(c, t, p, a))
    decreases |run|
  {
    InProcs(t, p, a);
    if run != [] { InProcs(s, run[0].0, run[0].1); }
    hide Next, Enabled;
    if run == [] {
      var u := Next(c, t, p, a);
      assert (run + [(p, a)])[1..] == [];
      assert Runs(c, u, [], u);
    } else {
      RunExtends(c, Next(c, s, run[0].0, run[0].1), run[1..], t, p, a);
      assert (run + [(p, a)])[1..] == run[1..] + [(p, a)];
    }
  }

  lemma HasBackups(c: Config, s: State)
    requires Sound(c, s)
    ensures c.maxBackups >= 1
  {
  }

  class Kernel {
    const config: Config
    const start: State
    var state: State
    var script: seq<Turn>
    ghost var run: Run

    constructor (c: Config, s: State, script: seq<Turn>)
      requires Sound(c, s)
      ensures Valid() && state == start == s && config == c
    {
      config, start, state, this.script := c, s, s, script;
      run := [];
    }

    ghost predicate Valid()
      reads this
    {
      Sound(config, state) && Runs(config, start, run, state)
    }

    /** One step of one process, if it can make it. */
    method Step(p: Pid, a: Act) returns (done: bool)
      requires Valid()
      modifies this`state, this`run
      ensures Valid() && old(state).log <= state.log
      ensures done == Enabled(old(state), p, a)
      ensures if done then state == Next(config, old(state), p, a) else state == old(state)
    {
      done := Enabled(state, p, a);
      if done {
        InProcs(state, p, a);
        StepFrame(config, state, p, a);
        StepSound(config, state, p, a);
        RunExtends(config, start, run, state, p, a);
        run := run + [(p, a)];
        state := Next(config, state, p, a);
      }
    }

    /** The other processes run. */
    method Others(me: Pid) returns (spare: Ino)
      requires Valid() && me in state.procs
      modifies this
      ensures Valid() && me in state.procs && state.procs[me] == old(state.procs[me]) && old(state).log <= state.log
    {
      if script == [] { return 0; }
      var turn := script[0];
      script := script[1..];
      for k := 0 to |turn.others|
        invariant Valid() && me in state.procs && state.procs[me] == old(state.procs[me]) && old(state).log <= state.log
      {
        var (p, a) := turn.others[k];
        if p != me && Enabled(state, p, a) {
          StepFrame(config, state, p, a);
          var done := Step(p, a);
        }
      }
      spare := turn.spare;
    }

    /** A call of process me: it waits while the others run, and may not return. */
    method Call(me: Pid) returns (ok: bool, ghost was: State, ghost spare: Ino)
      requires Valid() && me in state.procs
      modifies this
      ensures Valid() && me in state.procs && old(state).log <= state.log
      ensures me in was.procs && was.procs[me] == old(state.procs[me]) && old(state).log <= was.log
      ensures ok ==> Sound(config, was) && Enabled(was, me, Go(spare)) && state == Next(config, was, me, Go(spare))
    {
      var s := Others(me);
      was, spare := state, s;
      if Enabled(state, me, Go(s)) { StepFrame(config, state, me, Go(s)); }
      ok := Step(me, Go(s));
    }

    // ── The calls, each allowed only where the machine makes it ──

    /** stat(path): the file it names and its size. */
    method Stat(me: Pid) returns (ok: bool, found: Option<(Ino, nat)>, ghost was: State)
      requires Valid() && me in state.procs && state.procs[me].pc.Stat?
      modifies this
      ensures Valid() && me in state.procs && old(state).log <= state.log
      ensures old(state).log <= was.log
      ensures ok ==> found == if PATH in was.names then Some((was.names[PATH], Size(Content(was, PATH)))) else None
      ensures ok ==> var q := old(state.procs[me]);
        state.procs[me] == if found.Some? && found.value.0 == q.fd
                           then q.(pc := Check(q.pc.lock), size := found.value.1) else q.(pc := Open(q.pc.lock))
    {
      var s := Others(me);
      was := state;
      found := if PATH in state.names then Some((state.names[PATH], Size(Content(state, PATH)))) else None;
      if Enabled(state, me, Go(s)) { StepFrame(config, state, me, Go(s)); }
      ok := Step(me, Go(s));
    }

    /** open(path, O_CREAT | O_APPEND) and fstat of what it opened. */
    method OpenLog(me: Pid) returns (ok: bool, ino: Ino, size: nat)
      requires Valid() && me in state.procs && (state.procs[me].pc.Open? || state.procs[me].pc.Reopen?)
      modifies this
      ensures Valid() && me in state.procs && old(state).log <= state.log
      ensures ok ==> PATH in state.names && state.names[PATH] == ino && size == Size(Content(state, PATH))
      ensures ok && old(state.procs[me]).pc.Reopen? ==> size == 0
      ensures ok ==> var q := old(state.procs[me]);
        state.procs[me] == q.(pc := if q.pc.Open? then Check(q.pc.lock) else Write(Exclusive, q.pc.task), fd := ino,
                              size := size)
    {
      ghost var was, spare;
      ok, was, spare := Call(me);
      assert ok ==> ProcOk(config, was, was.procs[me]);
      ino, size := state.procs[me].fd, state.procs[me].size;
    }

    /** rename(a, b). */
    method Rename(me: Pid, a: Name, b: Name) returns (ok: bool, ghost was: State)
      requires Valid() && me in state.procs && Renames(state.procs[me], a, b)
      modifies this
      ensures Valid() && me in state.procs && old(state).log <= state.log
      ensures ok ==> state.names == Renamed(was.names, a, b) && state.data == was.data
      ensures ok ==> state.procs[me] == old(state.procs[me]).(pc := AfterRename(old(state.procs[me])))
    {
      hide Sound, Runs, Renamed, Content, Size, Held, Grantable, Free;
      ghost var spare;
      ok, was, spare := Call(me);
    }

    /** unlink(n). */
    method Unlink(me: Pid, n: Name) returns (ok: bool, ghost was: State)
      requires Valid() && me in state.procs && Unlinks(config, state.procs[me].pc, n)
      modifies this
      ensures Valid() && me in state.procs && old(state).log <= state.log
      ensures ok ==> state.names == was.names - {n} && state.data == was.data
      ensures ok ==> state.procs[me] == old(state.procs[me]).(pc := AfterUnlink(config, old(state.procs[me].pc)))
    {
      ghost var spare;
      ok, was, spare := Call(me);
    }

    /** write(fd, line); closing the block releases the lock. */
    method WriteLine(me: Pid) returns (ok: bool, ghost was: State)
      requires Valid() && me in state.procs && state.procs[me].pc.Write?
      modifies this
      ensures Valid() && me in state.procs && old(state).log <= was.log && old(state).log <= state.log
      ensures ok ==> var q := old(state.procs[me]);
        && state.log == was.log + [Line(|was.log|, q.text)]
        && PATH in state.names && state.names[PATH] == q.fd
        && Content(state, PATH) == Content(was, PATH) + [Line(|was.log|, q.text)]
        && state.procs[me] == q.(pc := if q.pc.task.Some? then GzOpen(q.pc.task.value) else Idle,
                                 size := q.size + |q.text| + 1)
    {
      ghost var spare;
      ok, was, spare := Call(me);
      if ok { StepWrite(config, was, me, spare, PATH); }
    }
  }

  predicate Renames(q: Proc, a: Name, b: Name) {
    match q.pc
    case Shift(i) => a == Slot(i) && b == Slot(i + 1)
    case Stage => a == PATH && b == Staged(q.fd)
    case GzShift(_, i) => a == Gz(i) && b == Gz(i + 1)
    case GzPlace(ino) => a == StagedGz(ino) && b == Gz(1)
    case _ => false
  }

  function AfterRename(q: Proc): Pc {
    match q.pc
    case Shift(i) => if i == 0 then Reopen(None) else Shift(i - 1)
    case Stage => Reopen(Some(q.fd))
    case GzShift(ino, i) => if i <= 1 then GzPlace(ino) else GzShift(ino, i - 1)
    case GzPlace(ino) => Unstage(ino)
    case _ => q.pc
  }

  predicate Unlinks(c: Config, pc: Pc, n: Name) {
    match pc
    case Unlink => n == Slot(c.maxBackups)
    case GzUnlink(_) => n == Gz(c.maxBackups)
    case Unstage(ino) => n == Staged(ino)
    case _ => false
  }

  /** The steps that look at no file but the process's own: locks, the size check, compression. */
  predicate GoesOn(c: Config, q: Proc, next: Pc) {
    match q.pc
    case WantShared => next == Stat(Shared)
    case WantExclusive => next == Stat(Exclusive)
    case Check(lock) =>
      next == if c.maxSize == 0 || q.size < c.maxSize then Write(lock, None)
              else if lock == Shared then WantExclusive else if c.compress then Stage else Unlink
    case GzOpen(ino) => next == GzFill(ino)
    case GzFill(ino) => next == WantFinish(ino)
    case WantFinish(ino) => next == GzUnlink(ino)
    case _ => false
  }

  lemma GoesOnMoves(c: Config, s: State, p: Pid, spare: Ino, next: Pc)
    requires Sound(c, s) && Enabled(s, p, Go(spare)) && GoesOn(c, s.procs[p], next)
    ensures Next(c, s, p, Go(spare)).procs == s.procs[p := s.procs[p].(pc := next)]
  {
    assert ProcOk(c, s, s.procs[p]);
    hide FilesOk, LocksOk, ProcsOk, Held, Grantable, Renamed, Size;
  }

  function AfterUnlink(c: Config, pc: Pc): Pc {
    match pc
    case Unlink => if c.maxBackups == 0 then Reopen(None) else Shift(c.maxBackups - 1)
    case GzUnlink(ino) => if c.maxBackups <= 1 then GzPlace(ino) else GzShift(ino, c.maxBackups - 1)
    case Unstage(_) => Idle
    case _ => pc
  }

  // ─── The target ────────────────────────────────────────────────────────────

  class FileTarget {
    const me: Pid
    const kernel: Kernel
    var fd: Ino             // fd_ and ino_: the file this process writes to
    var currentSize: nat

    constructor (me: Pid, kernel: Kernel)
      requires kernel.Valid() && me in kernel.state.procs && kernel.state.procs[me].pc == Idle
      ensures this.me == me && this.kernel == kernel && Valid() && Pc() == Idle
    {
      this.me, this.kernel := me, kernel;
      fd, currentSize := kernel.state.procs[me].fd, kernel.state.procs[me].size;
    }

    /** The machine is in a reachable state and knows of this process what the process knows of itself. */
    ghost predicate Valid()
      reads this, kernel
    {
      && kernel.Valid() && me in kernel.state.procs
      && kernel.state.procs[me].fd == fd && kernel.state.procs[me].size == currentSize
    }

    ghost function Pc(): Pc
      requires me in kernel.state.procs
      reads this, kernel
    {
      kernel.state.procs[me].pc
    }

    ghost function Text(): string
      requires me in kernel.state.procs
      reads this, kernel
    {
      kernel.state.procs[me].text
    }

    /** A step the process makes without looking at a file. */
    method Proceed(ghost next: Pc) returns (ok: bool)
      requires Valid() && GoesOn(kernel.config, kernel.state.procs[me], next)
      modifies kernel
      ensures kernel.Valid() && old(kernel.state).log <= kernel.state.log
      ensures ok ==> Valid() && Pc() == next && Text() == old(Text())
    {
      ghost var q := kernel.state.procs[me];
      hide Sound, Runs, Next, Enabled, Content, Size, Renamed, GoesOn;
      ghost var was, spare;
      ok, was, spare := kernel.Call(me);
      if ok {
        GoesOnMoves(kernel.config, was, me, spare, next);
        assert kernel.state.procs[me] == q.(pc := next);
      }
    }

    /** The file the path names when it is looked at, and its size then. */
    ghost predicate SeenIn(seen: State)
      reads this
    {
      PATH in seen.names && seen.names[PATH] == fd && Size(Content(seen, PATH)) == currentSize
    }

    method FollowPath() returns (ok: bool, ghost seen: State)
      requires Valid() && Pc().Stat?
      modifies this, kernel
      ensures kernel.Valid() && old(kernel.state).log <= kernel.state.log
      ensures ok ==> Valid() && Pc() == Check(old(Pc()).lock) && Text() == old(Text())
      ensures ok ==> SeenIn(seen) && old(kernel.state).log <= seen.log
    {
      hide Sound, Runs, Next, Enabled, Content, Size, Renamed;
      var found;
      ok, found, seen := kernel.Stat(me);
      if !ok { return; }
      if found.Some? && found.value.0 == fd {
        currentSize := found.value.1;
        return;
      }
      ok, fd, currentSize := kernel.OpenLog(me);
      seen := kernel.state;
    }

    /** unlink the oldest, then N-1 -> N, ... 1 -> 2. */
    method ShiftBackups(gz: bool) returns (ok: bool)
      requires Valid() && (if gz then Pc().GzUnlink? else Pc().Unlink?)
      modifies kernel
      ensures kernel.Valid() && old(kernel.state).log <= kernel.state.log
      ensures ok ==> Valid() && Text() == old(Text()) && Pc() == if gz then GzPlace(old(Pc()).ino) else Shift(0)
    {
      hide Sound, Runs, Next, Enabled, Content, Size, Renamed;
      HasBackups(kernel.config, kernel.state);
      ghost var was;
      ghost var ino := if gz then Some(Pc().ino) else None;
      ok, was := kernel.Unlink(me, if gz then Gz(kernel.config.maxBackups) else Slot(kernel.config.maxBackups));
      if !ok { return; }
      var i := kernel.config.maxBackups - 1;
      while i >= 1
        invariant i >= 0 && Valid() && Text() == old(Text()) && old(kernel.state).log <= kernel.state.log
        invariant Pc() == if !gz then Shift(i) else if i == 0 then GzPlace(ino.value) else GzShift(ino.value, i)
      {
        ok, was := kernel.Rename(me, if gz then Gz(i) else Slot(i), if gz then Gz(i + 1) else Slot(i + 1));
        if !ok { return; }
        i := i - 1;
      }
    }

    method Rotate() returns (ok: bool, staged: Option<Ino>)
      requires Valid() && Pc() == if kernel.config.compress then Stage else Unlink
      modifies this, kernel
      ensures kernel.Valid() && old(kernel.state).log <= kernel.state.log
      ensures ok ==> Valid() && Text() == old(Text()) && Pc() == Write(Exclusive, staged)
      ensures ok ==> staged == (if kernel.config.compress then Some(old(fd)) else None)
      ensures ok ==> currentSize == 0
    {
      hide Sound, Runs, Next, Enabled, Content, Size, Renamed;
      ghost var was;
      staged := None;
      if !kernel.config.compress {
        ok := ShiftBackups(false);
        if !ok { return; }
        ok, was := kernel.Rename(me, PATH, Slot(1));
        if !ok { return; }
      } else {
        staged := Some(fd);
        ok, was := kernel.Rename(me, PATH, Staged(fd));
        if !ok { return; }
      }
      ok, fd, currentSize := kernel.OpenLog(me);
    }

    /** Compress outside the lock, then shift the .gz chain under it and put the new backup in its place. */
    method FinishRotation(staged: Ino) returns (ok: bool)
      requires Valid() && Pc() == GzOpen(staged)
      modifies this, kernel
      ensures kernel.Valid() && old(kernel.state).log <= kernel.state.log
      ensures ok ==> Valid() && Pc() == Idle
    {
      hide Sound, Runs, Next, Enabled, Content, Size, Renamed;
      ok := Proceed(GzFill(staged));
      if !ok { return; }
      ok := Proceed(WantFinish(staged));
      if !ok { return; }
      ok := Proceed(GzUnlink(staged));
      if !ok { return; }
      ok := PlaceGz(staged);
    }

    method PlaceGz(staged: Ino) returns (ok: bool)
      requires Valid() && Pc() == GzUnlink(staged)
      modifies this, kernel
      ensures kernel.Valid() && old(kernel.state).log <= kernel.state.log
      ensures ok ==> Valid() && Pc() == Idle
    {
      hide Sound, Runs, Next, Enabled, Content, Size, Renamed;
      ghost var was;
      ok := ShiftBackups(true);
      if !ok { return; }
      ok, was := kernel.Rename(me, StagedGz(staged), Gz(1));
      if !ok { return; }
      ok, was := kernel.Unlink(me, Staged(staged));
    }

    /** Under the shared lock the file is followed and judged; too large, it is rotated under the exclusive one. */
    method Prepare() returns (ok: bool, staged: Option<Ino>)
      requires Valid() && Pc() == WantShared
      modifies this, kernel
      ensures kernel.Valid() && old(kernel.state).log <= kernel.state.log
      ensures ok ==> Valid() && Text() == old(Text()) && Pc().Write? && Pc().task == staged
      ensures ok && kernel.config.maxSize > 0 ==> currentSize < kernel.config.maxSize
    {
      hide Sound, Runs, Next, Enabled, Content, Size, Renamed;
      staged := None;
      ok := Proceed(Stat(Shared));
      if !ok { return; }
      ghost var seen;
      ok, seen := FollowPath();
      if !ok { return; }
      if kernel.config.maxSize > 0 && currentSize >= kernel.config.maxSize {
        ok, staged, seen := LookAgain();
      } else {
        ok := Proceed(Write(Shared, None));
      }
    }

    /**
     * Between the locks another process may have rotated: the file is judged once more, and one below the limit
     * keeps its name and is written to.
     */
    method LookAgain() returns (ok: bool, staged: Option<Ino>, ghost seen: State)
      requires Valid() && Pc() == Check(Shared) && currentSize >= kernel.config.maxSize > 0
      modifies this, kernel
      ensures kernel.Valid() && old(kernel.state).log <= kernel.state.log
      ensures ok ==>
        Valid() && Text() == old(Text()) && Pc() == Write(Exclusive, staged) && currentSize < kernel.config.maxSize
      ensures ok ==> PATH in seen.names && old(kernel.state).log <= seen.log
      ensures ok ==>
        if Size(Content(seen, PATH)) < kernel.config.maxSize then
          staged == None && SeenIn(seen) && PATH in kernel.state.names && kernel.state.names[PATH] == seen.names[PATH]
        else
          currentSize == 0 && staged == if kernel.config.compress then Some(seen.names[PATH]) else None
    {
      hide Sound, Runs, Next, Enabled, Content, Size, Renamed;
      staged, seen := None, kernel.state;
      ok := Proceed(WantExclusive);
      if !ok { return; }
      ok := Proceed(Stat(Exclusive));
      if !ok { return; }
      ok, seen := FollowPath();
      if !ok { return; }
      if currentSize >= kernel.config.maxSize {
        ok := Proceed(if kernel.config.compress then Stage else Unlink);
        if !ok { return; }
        ok, staged := Rotate();
      } else {
        ok := Proceed(Write(Exclusive, None));
        if ok { WritesNamed(); }
      }
    }

    /** The file about to be written is the one the path names. */
    lemma WritesNamed()
      requires Valid() && Pc().Write?
      ensures PATH in kernel.state.names && kernel.state.names[PATH] == fd
    {
      assert ProcOk(kernel.config, kernel.state, kernel.state.procs[me]);
      hide FilesOk, LocksOk, Runs, Content, Size;
    }

    /** A write that returns has put its line into the history after everything written before it began. */
    method WriteText(text: string) returns (ok: bool, ghost at: nat)
      requires Valid() && Pc() == Idle
      modifies this, kernel
      ensures kernel.Valid() && old(kernel.state).log <= kernel.state.log
      ensures ok ==> Valid() && Pc() == Idle
      ensures ok ==> |old(kernel.state).log| <= at < |kernel.state.log| && kernel.state.log[at] == Line(at, text)
    {
      hide Sound, Runs, Content, Size, Renamed;
      at := 0;
      ok := kernel.Step(me, Begin(text));
      var staged;
      ok, staged := Prepare();
      if !ok { return; }
      ghost var was;
      ok, was := kernel.WriteLine(me);
      if !ok { return; }
      at := |was.log|;
      currentSize := currentSize + |text| + 1;
      if staged.Some? { ok := FinishRotation(staged.value); }
    }
  }

  /** Whatever the targets of all processes have done, the history is in the files, or went with the oldest backup. */
  lemma TargetsKeepHistory(kernel: Kernel)
    requires kernel.Valid() && Init(kernel.config, kernel.start)
    ensures AllKept(kernel.state) && OnlyFullTaken(kernel.config, kernel.start, kernel.run)
    ensures !kernel.config.compress ==>
      kernel.state.log == kernel.state.dropped + Chain(kernel.state, kernel.config.maxBackups)
  {
    hide Runs, Sound, Init, AllKept, AllFound, OnlyFullTaken;
    InitSound(kernel.config, kernel.start);
    TakenRun(kernel.config, kernel.start, kernel.run, kernel.state);
    KeptRun(kernel.config, kernel.start, kernel.run, kernel.state);
    if !kernel.config.compress { PlainRun(kernel.config, kernel.start, kernel.run, kernel.state); }
  }
}

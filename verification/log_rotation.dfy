/**
 * FileTarget: N processes share one log file under flock(). Each writes under the shared lock and
 * rotates under the exclusive one; the conversion between them is not atomic, and compression runs
 * outside the lock. The model is the protocol's step machine: one step is one system call of one
 * process, steps of different processes interleave freely, and a process may crash at any step.
 */
module LogRotation {

  import opened Wrappers

  type Pid = nat
  type Ino = nat

  /** A line as written: stamped with its place in the order of all writes. */
  datatype Line = Line(stamp: nat, text: string)

  /** Slot(0) is the log's own path, Slot(i) its i-th backup, Gz(i) the i-th compressed one. */
  datatype Name = Slot(index: nat) | Gz(index: nat) | Staged(ino: Ino) | StagedGz(ino: Ino)

  datatype Lock = Shared | Exclusive

  /** Where a process is in write(), by the system call it makes next. */
  datatype Pc =
    | Dead
    | Idle
    | WantShared
    | Stat(lock: Lock)                               // follow_path: what does the path name?
    | Open(lock: Lock)                               // ... another file, or none
    | Check(lock: Lock)                              // the size against the limit
    | WantExclusive                                  // the shared lock is released
    | Unlink                                         // rotate: the oldest backup goes
    | Shift(i: nat)                                  // ... backup i becomes i + 1; 0 is the log itself
    | Stage                                          // rotate, compressing: the log moves to its staging name
    | Reopen(task: Option<Ino>)
    | Write(lock: Lock, task: Option<Ino>)
    | GzOpen(ino: Ino)                               // compress_file, outside the lock
    | GzFill(ino: Ino)
    | WantFinish(ino: Ino)
    | GzUnlink(ino: Ino)                             // finish_rotation, under the exclusive lock
    | GzShift(ino: Ino, i: nat)
    | GzPlace(ino: Ino)
    | Unstage(ino: Ino)

  datatype Proc = Proc(pc: Pc, fd: Ino, size: nat, text: string)

  datatype Config = Config(maxSize: nat, maxBackups: nat, compress: bool)

  /** The file system, the processes, and the history: every line written, and what was unlinked as oldest. */
  datatype State = State(names: map<Name, Ino>, data: map<Ino, seq<Line>>, procs: map<Pid, Proc>,
                         log: seq<Line>, dropped: seq<Line>)

  datatype Act =
    | Go(spare: Ino)          // the next system call; spare is the inode a file it creates would get
    | Begin(text: string)     // an idle process is asked to write a line
    | Crash

  // ─── File system ───────────────────────────────────────────────────────────

  const PATH: Name := Slot(0)

  function Renamed(names: map<Name, Ino>, a: Name, b: Name): map<Name, Ino> {
    if a in names then (names - {a})[b := names[a]] else names
  }

  function Content(s: State, n: Name): seq<Line> {
    if n in s.names && s.names[n] in s.data then s.data[s.names[n]] else []
  }

  function Size(lines: seq<Line>): nat {
    if lines == [] then 0 else Size(lines[..|lines|-1]) + |lines[|lines|-1].text| + 1
  }

  /** An inode number a new file may get: no name and no open descriptor refers to it. */
  predicate Free(s: State, ino: Ino) {
    ino !in s.names.Values && forall p :: p in s.procs && s.procs[p].pc != Dead ==> s.procs[p].fd != ino
  }

  /** open(path, O_CREAT | O_APPEND): the file the path names, or a new empty one. */
  function Opened(s: State, spare: Ino): (State, Ino) {
    if PATH in s.names then (s, s.names[PATH])
    else (s.(names := s.names[PATH := spare], data := s.data[spare := []]), spare)
  }

  // ─── Locks ─────────────────────────────────────────────────────────────────

  /** The lock a process holds while its next step is pc. */
  function Held(pc: Pc): Option<Lock> {
    match pc
    case Stat(lock) => Some(lock)
    case Open(lock) => Some(lock)
    case Check(lock) => Some(lock)
    case Write(lock, _) => Some(lock)
    case Unlink => Some(Exclusive)
    case Shift(_) => Some(Exclusive)
    case Stage => Some(Exclusive)
    case Reopen(_) => Some(Exclusive)
    case GzUnlink(_) => Some(Exclusive)
    case GzShift(_, _) => Some(Exclusive)
    case GzPlace(_) => Some(Exclusive)
    case Unstage(_) => Some(Exclusive)
    case _ => None
  }

  predicate Grantable(s: State, p: Pid, lock: Lock) {
    forall q :: q in s.procs && q != p ==>
      Held(s.procs[q].pc) != Some(Exclusive) && (lock == Exclusive ==> Held(s.procs[q].pc) == None)
  }

  // ─── Steps ─────────────────────────────────────────────────────────────────

  predicate Enabled(s: State, p: Pid, a: Act) {
    && p in s.procs
    && match a
       case Crash => s.procs[p].pc != Dead
       case Begin(_) => s.procs[p].pc == Idle
       case Go(spare) =>
         && s.procs[p].pc != Idle && Free(s, spare)
         && (s.procs[p].pc == WantShared ==> Grantable(s, p, Shared))
         && (s.procs[p].pc == WantExclusive || s.procs[p].pc.WantFinish? ==> Grantable(s, p, Exclusive))
  }

  function At(s: State, p: Pid, q: Proc): State {
    s.(procs := s.procs[p := q])
  }

  /** The process opens the path, takes the size of what it got, and goes on at pc. */
  function OpenPath(s: State, p: Pid, spare: Ino, pc: Pc): State
    requires p in s.procs
  {
    var (t, ino) := Opened(s, spare);
    At(t, p, s.procs[p].(pc := pc, fd := ino, size := Size(Content(t, PATH))))
  }

  function RenameStep(s: State, p: Pid, a: Name, b: Name, pc: Pc): State
    requires p in s.procs
  {
    At(s.(names := Renamed(s.names, a, b)), p, s.procs[p].(pc := pc))
  }

  /** The oldest backup is unlinked: its lines are the only ones that are ever given up. */
  function DropStep(s: State, p: Pid, n: Name, pc: Pc): State
    requires p in s.procs
  {
    At(s.(names := s.names - {n}, dropped := s.dropped + Content(s, n)), p, s.procs[p].(pc := pc))
  }

  function Next(c: Config, s: State, p: Pid, a: Act): State
    requires p in s.procs
  {
    var q := s.procs[p];
    match a
    case Crash => At(s, p, q.(pc := Dead))
    case Begin(text) => At(s, p, q.(pc := WantShared, text := text))
    case Go(spare) =>
      match q.pc
      case Idle => s
      case Dead => OpenPath(s, p, spare, Idle)
      case WantShared => At(s, p, q.(pc := Stat(Shared)))
      case Stat(lock) =>
        if PATH in s.names && s.names[PATH] == q.fd
        then At(s, p, q.(pc := Check(lock), size := Size(Content(s, PATH))))
        else At(s, p, q.(pc := Open(lock)))
      case Open(lock) => OpenPath(s, p, spare, Check(lock))
      case Check(lock) =>
        if c.maxSize > 0 && q.size >= c.maxSize then
          At(s, p, q.(pc := if lock == Shared then WantExclusive else if c.compress then Stage else Unlink))
        else At(s, p, q.(pc := Write(lock, None)))
      case WantExclusive => At(s, p, q.(pc := Stat(Exclusive)))
      case Unlink => DropStep(s, p, Slot(c.maxBackups),
                              if c.maxBackups == 0 then Reopen(None) else Shift(c.maxBackups - 1))
      case Shift(i) => RenameStep(s, p, Slot(i), Slot(i + 1), if i == 0 then Reopen(None) else Shift(i - 1))
      case Stage => RenameStep(s, p, PATH, Staged(q.fd), Reopen(Some(q.fd)))
      case Reopen(task) => OpenPath(s, p, spare, Write(Exclusive, task))
      case Write(_, task) =>
        var line := Line(|s.log|, q.text);
        var before := if q.fd in s.data then s.data[q.fd] else [];
        At(s.(data := s.data[q.fd := before + [line]], log := s.log + [line]), p,
           q.(pc := if task.Some? then GzOpen(task.value) else Idle, size := q.size + |q.text| + 1))
      case GzOpen(ino) =>
        var gz := if StagedGz(ino) in s.names then s.names[StagedGz(ino)] else spare;
        At(s.(names := s.names[StagedGz(ino) := gz], data := s.data[gz := []]), p, q.(pc := GzFill(ino)))
      case GzFill(ino) =>
        if StagedGz(ino) in s.names
        then At(s.(data := s.data[s.names[StagedGz(ino)] := Content(s, Staged(ino))]), p, q.(pc := WantFinish(ino)))
        else s
      case WantFinish(ino) => At(s, p, q.(pc := GzUnlink(ino)))
      case GzUnlink(ino) => DropStep(s, p, Gz(c.maxBackups),
                                     if c.maxBackups <= 1 then GzPlace(ino) else GzShift(ino, c.maxBackups - 1))
      case GzShift(ino, i) => RenameStep(s, p, Gz(i), Gz(i + 1), if i <= 1 then GzPlace(ino) else GzShift(ino, i - 1))
      case GzPlace(ino) => RenameStep(s, p, StagedGz(ino), Gz(1), Unstage(ino))
      case Unstage(ino) => At(s.(names := s.names - {Staged(ino)}), p, q.(pc := Idle))
  }

  // ─── What every reachable state keeps ──────────────────────────────────────

  /** The staged file a process has yet to compress or put away. */
  function Task(pc: Pc): Option<Ino> {
    match pc
    case Reopen(task) => task
    case Write(_, task) => task
    case GzOpen(ino) => Some(ino)
    case GzFill(ino) => Some(ino)
    case WantFinish(ino) => Some(ino)
    case GzUnlink(ino) => Some(ino)
    case GzShift(ino, _) => Some(ino)
    case GzPlace(ino) => Some(ino)
    case Unstage(ino) => Some(ino)
    case _ => None
  }

  /** Each name has a file, each file at most one name, and a staging name its own inode. */
  ghost predicate FilesOk(c: Config, s: State) {
    && (forall n :: n in s.names ==> s.names[n] in s.data)
    && (forall m, n :: m in s.names && n in s.names && s.names[m] == s.names[n] ==> m == n)
    && (forall n :: n in s.names ==>
          match n
          case Slot(i) => i <= c.maxBackups
          case Gz(i) => 1 <= i <= c.maxBackups
          case Staged(ino) => s.names[n] == ino
          case StagedGz(_) => true)
  }

  ghost predicate LocksOk(s: State) {
    forall p, q :: p in s.procs && q in s.procs && p != q && Held(s.procs[p].pc) == Some(Exclusive) ==>
      Held(s.procs[q].pc) == None
  }

  /** The log is open on the file that the next steps judge, write or rotate. */
  predicate OnPath(pc: Pc) {
    pc.Check? || pc.Write? || pc.Unlink? || pc.Shift? || pc.Stage?
  }

  ghost predicate ProcOk(c: Config, s: State, q: Proc) {
    && (OnPath(q.pc) ==> PATH in s.names && s.names[PATH] == q.fd)
    && (q.pc.Shift? ==> q.pc.i < c.maxBackups && Slot(q.pc.i + 1) !in s.names)
    && (q.pc.GzShift? ==> 1 <= q.pc.i < c.maxBackups && Gz(q.pc.i + 1) !in s.names)
    && (q.pc.GzPlace? ==> Gz(1) !in s.names)
    && (q.pc.Reopen? ==> Content(s, PATH) == [])
    && (Task(q.pc).Some? ==> Staged(Task(q.pc).value) in s.names && c.compress)
    && (q.pc.GzFill? ==> StagedGz(q.pc.ino) in s.names)
    && (q.pc.WantFinish? || q.pc.GzUnlink? || q.pc.GzShift? || q.pc.GzPlace? ==>
          StagedGz(q.pc.ino) in s.names && Content(s, StagedGz(q.pc.ino)) == Content(s, Staged(q.pc.ino)))
    && (q.pc.Unstage? ==> Gz(1) in s.names && Content(s, Gz(1)) == Content(s, Staged(q.pc.ino)))
    && (q.pc.Stage? ==> c.compress)
    && (q.pc.Unlink? || q.pc.Shift? ==> !c.compress)
  }

  ghost predicate ProcsOk(c: Config, s: State) {
    && (forall p :: p in s.procs ==> ProcOk(c, s, s.procs[p]))
    && (forall p, q :: p in s.procs && q in s.procs && p != q && Task(s.procs[p].pc).Some? ==>
          Task(s.procs[p].pc) != Task(s.procs[q].pc))
  }

  ghost predicate Sound(c: Config, s: State) {
    c.maxBackups >= 1 && FilesOk(c, s) && LocksOk(s) && ProcsOk(c, s)
  }

  // ── Each step keeps it ──

  /** A lock is gained only when it is grantable. */
  lemma LocksKept(s: State, t: State, p: Pid)
    requires LocksOk(s) && p in s.procs && p in t.procs && t.procs == s.procs[p := t.procs[p]]
    requires Held(t.procs[p].pc) == None || Held(t.procs[p].pc) == Held(s.procs[p].pc)
             || Grantable(s, p, Held(t.procs[p].pc).value)
    ensures LocksOk(t)
  {
    forall x, y | x in t.procs && y in t.procs && x != y && Held(t.procs[x].pc) == Some(Exclusive)
      ensures Held(t.procs[y].pc) == None
    {
      assert x != p ==> t.procs[x] == s.procs[x];
      assert y != p ==> t.procs[y] == s.procs[y];
    }
  }

  predicate Compressing(pc: Pc) {
    pc.GzOpen? || pc.GzFill? || pc.WantFinish? || pc.GzUnlink? || pc.GzShift? || pc.GzPlace? || pc.Unstage?
  }

  lemma LocksOfWrite(c: Config, s: State, p: Pid, a: Act)
    requires LocksOk(s) && Enabled(s, p, a) && !Compressing(s.procs[p].pc)
    ensures LocksOk(Next(c, s, p, a))
  {
    hide LocksOk, Grantable, Content, Size, Renamed;
    LocksKept(s, Next(c, s, p, a), p);
  }

  lemma LocksOfFinish(c: Config, s: State, p: Pid, a: Act)
    requires LocksOk(s) && Enabled(s, p, a) && Compressing(s.procs[p].pc)
    ensures LocksOk(Next(c, s, p, a))
  {
    hide LocksOk, Grantable, Content, Size, Renamed;
    LocksKept(s, Next(c, s, p, a), p);
  }

  predicate Opening(pc: Pc) {
    pc.Dead? || pc.Open? || pc.Reopen?
  }

  /** Where a process is once it has opened the path. */
  function AfterOpen(pc: Pc): Pc {
    match pc
    case Open(lock) => Check(lock)
    case Reopen(task) => Write(Exclusive, task)
    case _ => Idle
  }

  lemma OpenIs(c: Config, s: State, p: Pid, spare: Ino)
    requires p in s.procs && Opening(s.procs[p].pc)
    ensures Next(c, s, p, Go(spare)) == OpenPath(s, p, spare, AfterOpen(s.procs[p].pc))
  {
    hide OpenPath;
  }

  lemma FilesOfOpen(c: Config, s: State, p: Pid, spare: Ino)
    requires FilesOk(c, s) && Enabled(s, p, Go(spare)) && Opening(s.procs[p].pc)
    ensures FilesOk(c, Next(c, s, p, Go(spare)))
  {
    OpenIs(c, s, p, spare);
    hide Next, Content, Size, Held;
  }

  lemma FilesOfWrite(c: Config, s: State, p: Pid, a: Act)
    requires FilesOk(c, s) && c.maxBackups >= 1 && Enabled(s, p, a) && ProcOk(c, s, s.procs[p])
    requires !Compressing(s.procs[p].pc)
    ensures FilesOk(c, Next(c, s, p, a))
  {
    if a.Go? && Opening(s.procs[p].pc) {
      FilesOfOpen(c, s, p, a.spare);
    } else {
      hide Content, Size, Held;
    }
  }

  lemma FilesOfFinish(c: Config, s: State, p: Pid, a: Act)
    requires FilesOk(c, s) && c.maxBackups >= 1 && Enabled(s, p, a) && ProcOk(c, s, s.procs[p])
    requires Compressing(s.procs[p].pc)
    ensures FilesOk(c, Next(c, s, p, a))
  {
    hide Content, Size, Held;
  }

  lemma StepFiles(c: Config, s: State, p: Pid, a: Act)
    requires FilesOk(c, s) && LocksOk(s) && c.maxBackups >= 1 && Enabled(s, p, a) && ProcOk(c, s, s.procs[p])
    ensures FilesOk(c, Next(c, s, p, a)) && LocksOk(Next(c, s, p, a))
  {
    hide FilesOk, LocksOk, ProcOk, Next;
    if Compressing(s.procs[p].pc) {
      FilesOfFinish(c, s, p, a);
      LocksOfFinish(c, s, p, a);
    } else {
      FilesOfWrite(c, s, p, a);
      LocksOfWrite(c, s, p, a);
    }
  }

  /** Only p changed: its own part is checked, the others' still hold, and its task is nobody else's. */
  lemma ProcsKept(c: Config, s: State, t: State, p: Pid)
    requires ProcsOk(c, s) && p in s.procs && p in t.procs && t.procs == s.procs[p := t.procs[p]]
    requires ProcOk(c, t, t.procs[p])
    requires forall q :: q in s.procs && q != p ==> ProcOk(c, t, s.procs[q])
    requires Task(t.procs[p].pc) != Task(s.procs[p].pc) && Task(t.procs[p].pc).Some? ==>
      forall q :: q in s.procs && q != p ==> Task(s.procs[q].pc) != Task(t.procs[p].pc)
    ensures ProcsOk(c, t)
  {
    forall x, y | x in t.procs && y in t.procs && x != y && Task(t.procs[x].pc).Some?
      ensures Task(t.procs[x].pc) != Task(t.procs[y].pc)
    {
      assert x != p ==> t.procs[x] == s.procs[x];
      assert y != p ==> t.procs[y] == s.procs[y];
    }
  }

  // What a change of the file system by one process means to another, q.

  lemma OtherIdle(c: Config, s: State, t: State, q: Proc)
    requires ProcOk(c, s, q) && t.names == s.names && t.data == s.data
    ensures ProcOk(c, t, q)
  {
  }

  lemma OtherOpen(c: Config, s: State, spare: Ino, q: Proc)
    requires FilesOk(c, s) && ProcOk(c, s, q) && Free(s, spare)
    ensures ProcOk(c, Opened(s, spare).0, q)
  {
  }

  lemma OtherRename(c: Config, s: State, t: State, a: Name, b: Name, q: Proc)
    requires ProcOk(c, s, q) && Held(q.pc) == None
    requires t.names == Renamed(s.names, a, b) && t.data == s.data
    requires Task(q.pc).Some? ==>
      {a, b} !! {Staged(Task(q.pc).value), StagedGz(Task(q.pc).value)}
    ensures ProcOk(c, t, q)
  {
  }

  lemma OtherRemove(c: Config, s: State, t: State, n: Name, q: Proc)
    requires ProcOk(c, s, q) && Held(q.pc) == None
    requires t.names == s.names - {n} && t.data == s.data
    requires Task(q.pc).Some? ==> n != Staged(Task(q.pc).value) && n != StagedGz(Task(q.pc).value)
    ensures ProcOk(c, t, q)
  {
  }

  /** The file called n is written, or a new file is given that name. */
  lemma OtherWrite(c: Config, s: State, t: State, n: Name, ino: Ino, q: Proc)
    requires FilesOk(c, s) && ProcOk(c, s, q) && (n == PATH || n.StagedGz?)
    requires n == PATH ==> Held(q.pc) != Some(Exclusive)
    requires t.names == s.names[n := ino] && t.data == s.data[ino := if ino in t.data then t.data[ino] else []]
    requires if n in s.names then s.names[n] == ino else Free(s, ino) && n != PATH
    requires Task(q.pc).Some? ==> n != Staged(Task(q.pc).value) && n != StagedGz(Task(q.pc).value)
    ensures ProcOk(c, t, q)
  {
    assert forall m :: m in s.names && m != n ==> s.names[m] != ino;
    assert forall m: Name :: m != n ==> Content(t, m) == Content(s, m);
    hide FilesOk, Content, Free;
  }

  /** p moves on without touching the file system. */
  lemma ProcsMoved(c: Config, s: State, t: State, p: Pid)
    requires ProcsOk(c, s) && p in s.procs && p in t.procs && t.procs == s.procs[p := t.procs[p]]
    requires t.names == s.names && t.data == s.data && ProcOk(c, t, t.procs[p])
    requires Task(t.procs[p].pc) == None || Task(t.procs[p].pc) == Task(s.procs[p].pc)
    ensures ProcsOk(c, t)
  {
    hide ProcOk;
    forall q | q in s.procs && q != p ensures ProcOk(c, t, s.procs[q]) {
      OtherIdle(c, s, t, s.procs[q]);
    }
    ProcsKept(c, s, t, p);
  }

  lemma ProcsAsked(c: Config, s: State, p: Pid, a: Act)
    requires Sound(c, s) && Enabled(s, p, a) && !a.Go?
    ensures ProcsOk(c, Next(c, s, p, a))
  {
    hide FilesOk, LocksOk, ProcsOk, Grantable, Free;
    ProcsMoved(c, s, Next(c, s, p, a), p);
  }

  lemma ProcsLocal(c: Config, s: State, p: Pid, spare: Ino)
    requires Sound(c, s) && Enabled(s, p, Go(spare))
    requires var pc := s.procs[p].pc;
      pc.WantShared? || pc.Stat? || pc.Check? || pc.WantExclusive? || pc.WantFinish?
    ensures ProcsOk(c, Next(c, s, p, Go(spare)))
  {
    hide FilesOk, LocksOk, Grantable, Free, Size, Held;
    assert ProcOk(c, s, s.procs[p]);
    hide ProcsOk;
    ProcsMoved(c, s, Next(c, s, p, Go(spare)), p);
  }

  lemma ProcsOpen(c: Config, s: State, p: Pid, spare: Ino)
    requires Sound(c, s) && Enabled(s, p, Go(spare))
    requires Opening(s.procs[p].pc)
    ensures ProcsOk(c, Next(c, s, p, Go(spare)))
  {
    hide ProcOk, Opened, Size, Next, FilesOk, LocksOk;
    var t, u := Next(c, s, p, Go(spare)), Opened(s, spare).0;
    OpenedOk(c, s, p, spare);
    forall q | q in s.procs && q != p ensures ProcOk(c, t, s.procs[q]) {
      OtherOpen(c, s, spare, s.procs[q]);
      OtherIdle(c, u, t, s.procs[q]);
    }
    ProcsKept(c, s, t, p);
  }

  lemma OpenedOk(c: Config, s: State, p: Pid, spare: Ino)
    requires Sound(c, s) && Enabled(s, p, Go(spare))
    requires Opening(s.procs[p].pc)
    ensures var t, u := Next(c, s, p, Go(spare)), Opened(s, spare).0;
      && p in t.procs && t.procs == s.procs[p := t.procs[p]] && t.names == u.names && t.data == u.data
      && ProcOk(c, t, t.procs[p]) && (Task(t.procs[p].pc) == None || Task(t.procs[p].pc) == Task(s.procs[p].pc))
  {
    OpenIs(c, s, p, spare);
    hide Next, LocksOk, Size, Held;
    OtherOpen(c, s, spare, s.procs[p]);
  }

  lemma ProcsRename(c: Config, s: State, p: Pid, spare: Ino, a: Name, b: Name, pc: Pc)
    requires Sound(c, s) && Enabled(s, p, Go(spare)) && Held(s.procs[p].pc) == Some(Exclusive)
    requires Next(c, s, p, Go(spare)) == RenameStep(s, p, a, b, pc)
    requires forall q :: q in s.procs && q != p && Task(s.procs[q].pc).Some? ==>
      {a, b} !! {Staged(Task(s.procs[q].pc).value), StagedGz(Task(s.procs[q].pc).value)}
    requires Task(pc) == Task(s.procs[p].pc) || (forall q :: q in s.procs && q != p ==> Task(s.procs[q].pc) != Task(pc))
    requires ProcOk(c, RenameStep(s, p, a, b, pc), s.procs[p].(pc := pc))
    ensures ProcsOk(c, Next(c, s, p, Go(spare)))
  {
    var t := RenameStep(s, p, a, b, pc);
    hide FilesOk, ProcOk, Content, Size, Free, Grantable;
    forall q | q in s.procs && q != p ensures ProcOk(c, t, s.procs[q]) {
      OtherRename(c, s, t, a, b, s.procs[q]);
    }
    ProcsKept(c, s, t, p);
  }

  lemma ProcsShift(c: Config, s: State, p: Pid, spare: Ino)
    requires Sound(c, s) && Enabled(s, p, Go(spare)) && s.procs[p].pc.GzShift?
    ensures ProcsOk(c, Next(c, s, p, Go(spare)))
  {
    hide ProcsOk, ProcOk, FilesOk, LocksOk, Content, Size, Free, Grantable, Next, RenameStep;
    var i, pc := s.procs[p].pc.i, AfterShift(s.procs[p].pc);
    ShiftIs(c, s, p, spare);
    ShiftedOk(c, s, p, pc);
    ProcsRename(c, s, p, spare, Gz(i), Gz(i + 1), pc);
  }

  function AfterShift(pc: Pc): (next: Pc)
    requires pc.GzShift?
    ensures Task(next) == Task(pc)
  {
    if pc.i <= 1 then GzPlace(pc.ino) else GzShift(pc.ino, pc.i - 1)
  }

  lemma ShiftIs(c: Config, s: State, p: Pid, spare: Ino)
    requires p in s.procs && s.procs[p].pc.GzShift?
    ensures var pc := s.procs[p].pc;
      Next(c, s, p, Go(spare)) == RenameStep(s, p, Gz(pc.i), Gz(pc.i + 1), AfterShift(pc))
  {
    hide RenameStep;
  }

  lemma ShiftedOk(c: Config, s: State, p: Pid, pc: Pc)
    requires Sound(c, s) && p in s.procs && s.procs[p].pc.GzShift? && pc == AfterShift(s.procs[p].pc)
    ensures var i := s.procs[p].pc.i; ProcOk(c, RenameStep(s, p, Gz(i), Gz(i + 1), pc), s.procs[p].(pc := pc))
  {
    assert ProcOk(c, s, s.procs[p]);
    hide ProcsOk, LocksOk, Size;
  }

  lemma ProcsPlace(c: Config, s: State, p: Pid, spare: Ino)
    requires Sound(c, s) && Enabled(s, p, Go(spare)) && s.procs[p].pc.GzPlace?
    ensures ProcsOk(c, Next(c, s, p, Go(spare)))
  {
    var ino := s.procs[p].pc.ino;
    ProcsRename(c, s, p, spare, StagedGz(ino), Gz(1), Unstage(ino));
  }

  lemma ProcsRotate(c: Config, s: State, p: Pid, spare: Ino)
    requires Sound(c, s) && Enabled(s, p, Go(spare)) && (s.procs[p].pc.Shift? || s.procs[p].pc.Stage?)
    ensures ProcsOk(c, Next(c, s, p, Go(spare)))
  {
    hide ProcsOk, ProcOk, FilesOk, LocksOk, Next;
    if s.procs[p].pc.Stage? { ProcsStage(c, s, p, spare); } else { ProcsShiftUp(c, s, p, spare); }
  }

  lemma ProcsShiftUp(c: Config, s: State, p: Pid, spare: Ino)
    requires Sound(c, s) && Enabled(s, p, Go(spare)) && s.procs[p].pc.Shift?
    ensures ProcsOk(c, Next(c, s, p, Go(spare)))
  {
    var i := s.procs[p].pc.i;
    ProcsRename(c, s, p, spare, Slot(i), Slot(i + 1), if i == 0 then Reopen(None) else Shift(i - 1));
  }

  lemma ProcsStage(c: Config, s: State, p: Pid, spare: Ino)
    requires Sound(c, s) && Enabled(s, p, Go(spare)) && s.procs[p].pc.Stage?
    ensures ProcsOk(c, Next(c, s, p, Go(spare)))
  {
    // No file has the staging name: it would be the log itself under two names.
    var fd := s.procs[p].fd;
    assert Staged(fd) !in s.names;
    ProcsRename(c, s, p, spare, PATH, Staged(fd), Reopen(Some(fd)));
  }

  lemma ProcsRemoved(c: Config, s: State, t: State, p: Pid, n: Name)
    requires ProcsOk(c, s) && LocksOk(s) && p in s.procs && p in t.procs && t.procs == s.procs[p := t.procs[p]]
    requires t.names == s.names - {n} && t.data == s.data && ProcOk(c, t, t.procs[p])
    requires Held(s.procs[p].pc) == Some(Exclusive) && !n.StagedGz?
    requires n.Staged? ==> Task(s.procs[p].pc) == Some(n.ino)
    requires Task(t.procs[p].pc) == None || Task(t.procs[p].pc) == Task(s.procs[p].pc)
    ensures ProcsOk(c, t)
  {
    hide ProcOk;
    forall q | q in s.procs && q != p ensures ProcOk(c, t, s.procs[q]) {
      OtherRemove(c, s, t, n, s.procs[q]);
    }
    ProcsKept(c, s, t, p);
  }

  lemma ProcsUnlink(c: Config, s: State, p: Pid, spare: Ino)
    requires Sound(c, s) && Enabled(s, p, Go(spare)) && s.procs[p].pc.Unlink?
    ensures ProcsOk(c, Next(c, s, p, Go(spare)))
  {
    assert ProcOk(c, s, s.procs[p]);
    hide LocksOk, ProcsOk, Size, Free, Grantable;
    ProcsRemoved(c, s, Next(c, s, p, Go(spare)), p, Slot(c.maxBackups));
  }

  lemma ProcsGzUnlink(c: Config, s: State, p: Pid, spare: Ino)
    requires Sound(c, s) && Enabled(s, p, Go(spare)) && s.procs[p].pc.GzUnlink?
    ensures ProcsOk(c, Next(c, s, p, Go(spare)))
  {
    assert ProcOk(c, s, s.procs[p]);
    hide LocksOk, ProcsOk, Size, Free, Grantable;
    ProcsRemoved(c, s, Next(c, s, p, Go(spare)), p, Gz(c.maxBackups));
  }

  lemma ProcsUnstage(c: Config, s: State, p: Pid, spare: Ino)
    requires Sound(c, s) && Enabled(s, p, Go(spare)) && s.procs[p].pc.Unstage?
    ensures ProcsOk(c, Next(c, s, p, Go(spare)))
  {
    hide LocksOk, ProcsOk, Content, Size, Free, Grantable;
    ProcsRemoved(c, s, Next(c, s, p, Go(spare)), p, Staged(s.procs[p].pc.ino));
  }

  lemma ProcsWrite(c: Config, s: State, p: Pid, spare: Ino)
    requires Sound(c, s) && Enabled(s, p, Go(spare))
    requires s.procs[p].pc.Write? || s.procs[p].pc.GzOpen? || s.procs[p].pc.GzFill?
    ensures ProcsOk(c, Next(c, s, p, Go(spare)))
  {
    var t := Next(c, s, p, Go(spare));
    var n := if s.procs[p].pc.Write? then PATH else StagedGz(s.procs[p].pc.ino);
    var ino := t.names[n];
    assert s.names[n := ino] == t.names;
    forall q | q in s.procs && q != p ensures ProcOk(c, t, s.procs[q]) {
      OtherWrite(c, s, t, n, ino, s.procs[q]);
    }
    ProcsKept(c, s, t, p);
  }

  lemma StepSound(c: Config, s: State, p: Pid, a: Act)
    requires Sound(c, s) && Enabled(s, p, a)
    ensures Sound(c, Next(c, s, p, a))
  {
    StepFiles(c, s, p, a);
    hide FilesOk, LocksOk, ProcsOk, ProcOk, Next;
    match a
    case Go(spare) =>
      var pc := s.procs[p].pc;
      if Opening(pc) { ProcsOpen(c, s, p, spare); }
      else if pc.Shift? || pc.Stage? { ProcsRotate(c, s, p, spare); }
      else if pc.GzShift? { ProcsShift(c, s, p, spare); }
      else if pc.GzPlace? { ProcsPlace(c, s, p, spare); }
      else if pc.Unlink? { ProcsUnlink(c, s, p, spare); }
      else if pc.GzUnlink? { ProcsGzUnlink(c, s, p, spare); }
      else if pc.Unstage? { ProcsUnstage(c, s, p, spare); }
      else if pc.Write? || pc.GzOpen? || pc.GzFill? { ProcsWrite(c, s, p, spare); }
      else { ProcsLocal(c, s, p, spare); }
    case _ =>
      ProcsAsked(c, s, p, a);
  }

  lemma InProcs(s: State, p: Pid, a: Act)
    requires Enabled(s, p, a)
    ensures p in s.procs
  {
  }

  lemma FrameOfFinish(c: Config, s: State, p: Pid, spare: Ino)
    requires Enabled(s, p, Go(spare)) && Compressing(s.procs[p].pc)
    ensures var t := Next(c, s, p, Go(spare));
      s.log <= t.log && p in t.procs && t.procs == s.procs[p := t.procs[p]]
  {
    hide Size, Content, Renamed, Held, Grantable, Free;
  }

  lemma FrameOfOpen(c: Config, s: State, p: Pid, spare: Ino)
    requires Enabled(s, p, Go(spare)) && Opening(s.procs[p].pc)
    ensures var t := Next(c, s, p, Go(spare));
      s.log <= t.log && p in t.procs && t.procs == s.procs[p := t.procs[p]]
  {
    hide Size, Content, Renamed, Held, Grantable, Free;
  }

  lemma FrameOfWrite(c: Config, s: State, p: Pid, a: Act)
    requires Enabled(s, p, a) && !(a.Go? && Compressing(s.procs[p].pc))
    requires a.Go? ==> !Opening(s.procs[p].pc)
    ensures var t := Next(c, s, p, a);
      s.log <= t.log && p in t.procs && t.procs == s.procs[p := t.procs[p]]
  {
    hide Size, Content, Renamed, Held, Grantable, Free;
  }

  /** A step changes its own process only, and the history only grows. */
  lemma StepFrame(c: Config, s: State, p: Pid, a: Act)
    requires Enabled(s, p, a)
    ensures var t := Next(c, s, p, a);
      s.log <= t.log && p in t.procs && t.procs == s.procs[p := t.procs[p]]
  {
    hide Next;
    var pc := s.procs[p].pc;
    if a.Go? && Compressing(pc) { FrameOfFinish(c, s, p, a.spare); }
    else if a.Go? && Opening(pc) { FrameOfOpen(c, s, p, a.spare); }
    else { FrameOfWrite(c, s, p, a); }
  }
}

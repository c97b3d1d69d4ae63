/**
 * EventLoop: batches of epoll events, keyed by bare descriptor numbers, are dispatched while the
 * handlers they run close descriptors, register new ones under the same numbers, cancel timers, throw,
 * stop the loop and poll again from inside. Handlers are arbitrary finite scripts.
 */
module EventLoops {

  import opened Wrappers

  type Fd = nat
  type File = nat            // what a number names: a new one for every open, never used twice
  type TimerId = nat

  datatype Flag = In | Out | RdHup

  /** A timerfd: still counting, and with an expiry that nobody has read yet. */
  datatype Clock = Clock(repeat: bool, counting: bool, pending: bool)

  /** The kernel's side: open descriptors, the epoll set, which of it is armed, and the timers. */
  datatype Kernel = Kernel(open: map<Fd, File>, watched: set<Fd>, armed: set<Fd>, clocks: map<File, Clock>,
                           nextFile: File)

  datatype IoEntry = IoEntry(events: set<Flag>, stamp: nat, faulted: bool)

  datatype TimerEntry = TimerEntry(fd: Fd, repeat: bool, stamp: nat)

  // What a handler does, one call after another; where it throws, itself or out of a call, also how the kernel
  // takes the loop's answer to that: whether the socket can be shut, and the registration armed again.
  datatype Script =
    | Return
    | Throw(shut: bool, armed: bool)
    | Do(op: Op, rest: Script, shut: bool, armed: bool)

  datatype Op =
    | Open(fd: Fd)                                        // accept, connect: the kernel gives out this number
    | Close(fd: Fd)
    | Register(fd: Fd, events: set<Flag>)
    | Unregister(fd: Fd)
    | Modify(fd: Fd, events: set<Flag>, failed: bool)     // failed: an error that is not a lost registration
    | Rearm(fd: Fd, events: set<Flag>)
    | StartTimer(fd: Fd, repeat: bool)
    | StopTimer(id: TimerId)
    | Elapse(fd: Fd)                                      // time passes for the timer under this number
    | Stop
    | Pump(polls: seq<Poll>)                              // run_for() from inside the handler

  /** The handler cancels a timer, and that is all. */
  predicate Stops(script: Script) {
    script.Do? && script.op.StopTimer? && script.rest.Return?
  }

  /** A number the kernel would report, and what the callback of that event does. */
  datatype Ready = Ready(fd: Fd, script: Script)

  /** One epoll_wait. */
  datatype Poll = Poll(ready: seq<Ready>)

  /** An event as collected: the file it was raised for and the registration that then held the number. */
  datatype Event = Event(fd: Fd, file: File, holder: Option<nat>)

  /** A callback that ran: whose registration, and for which event. */
  datatype Fired = Fired(stamp: nat, event: Event)

  /** Which timers are one-shot, each timer's stamp, the expiries it has read and the times it has fired. */
  datatype Tally = Tally(oneShot: set<TimerId>, stampOf: map<TimerId, nat>, taken: map<TimerId, nat>,
                         fired: map<TimerId, nat>)

  // ─── Kernel calls ──────────────────────────────────────────────────────────

  function Opened(k: Kernel, fd: Fd): Kernel {
    k.(open := k.open[fd := k.nextFile], nextFile := k.nextFile + 1)
  }

  /** close() takes the number out of the epoll set as well. */
  function Closed(k: Kernel, fd: Fd): Kernel {
    k.(open := k.open - {fd}, watched := k.watched - {fd}, armed := k.armed - {fd})
  }

  function Watched(k: Kernel, fd: Fd): Kernel {
    k.(watched := k.watched + {fd}, armed := k.armed + {fd})
  }

  function Unwatched(k: Kernel, fd: Fd): Kernel {
    k.(watched := k.watched - {fd}, armed := k.armed - {fd})
  }

  function ClockSet(k: Kernel, fd: Fd, clock: Clock): Kernel
    requires fd in k.open
  {
    k.(clocks := k.clocks[k.open[fd] := clock])
  }

  predicate HasClock(k: Kernel, fd: Fd) {
    fd in k.open && k.open[fd] in k.clocks
  }

  predicate Expiring(k: Kernel, fd: Fd) {
    HasClock(k, fd) && k.clocks[k.open[fd]].pending
  }

  /** epoll_wait may report the number. */
  predicate Reportable(k: Kernel, fd: Fd) {
    fd in k.armed && fd in k.watched && fd in k.open && (HasClock(k, fd) ==> Expiring(k, fd))
  }

  function Expired(k: Kernel, fd: Fd): Kernel {
    if HasClock(k, fd) && k.clocks[k.open[fd]].counting
    then ClockSet(k, fd, k.clocks[k.open[fd]].(pending := true, counting := k.clocks[k.open[fd]].repeat))
    else k
  }

  // ─── What the loop keeps ───────────────────────────────────────────────────

  ghost predicate KernelOk(k: Kernel) {
    && (forall fd :: fd in k.open ==> k.open[fd] < k.nextFile)
    && (forall f, g :: f in k.open && g in k.open && k.open[f] == k.open[g] ==> f == g)
    && k.watched <= k.open.Keys
    && (forall file :: file in k.clocks ==> file < k.nextFile)
  }

  ghost predicate TimersOk(timers: map<TimerId, TimerEntry>, nextTimer: TimerId, last: nat, fileOf: map<nat, File>) {
    forall id :: id in timers ==> 1 <= id < nextTimer && 1 <= timers[id].stamp <= last && timers[id].stamp in fileOf
  }

  ghost predicate IdsBelow(ids: map<Fd, TimerId>, next: TimerId) {
    forall fd :: fd in ids ==> ids[fd] < next
  }

  ghost predicate HandlersOk(io: map<Fd, IoEntry>, last: nat, fileOf: map<nat, File>) {
    && (forall fd :: fd in io ==> 1 <= io[fd].stamp <= last && io[fd].stamp in fileOf)
    && (forall s :: s in fileOf ==> s <= last)
  }

  /** With every holder removing a number before closing it, entries stand for the file their number names now. */
  ghost predicate NumbersOk(k: Kernel, io: map<Fd, IoEntry>, timers: map<TimerId, TimerEntry>, ids: map<Fd, TimerId>,
                            fileOf: map<nat, File>) {
    && (forall fd :: fd in io ==>
          fd in k.open && io[fd].stamp in fileOf && k.open[fd] == fileOf[io[fd].stamp] && fd !in ids)
    && (forall fd :: fd in ids ==>
          && HasClock(k, fd) && ids[fd] in timers && timers[ids[fd]].fd == fd
          && timers[ids[fd]].stamp in fileOf && k.open[fd] == fileOf[timers[ids[fd]].stamp])
    && (forall id :: id in timers ==> timers[id].fd in ids && ids[timers[id].fd] == id)
  }

  /** Of a one-shot timer, the expiries read, the one pending and the one still to come are at most one. */
  ghost predicate ClocksOk(k: Kernel, timers: map<TimerId, TimerEntry>, ids: map<Fd, TimerId>,
                           taken: map<TimerId, nat>) {
    forall fd :: fd in ids && HasClock(k, fd) && ids[fd] in timers ==>
      && ids[fd] in taken
      && k.clocks[k.open[fd]].repeat == timers[ids[fd]].repeat
      && (!timers[ids[fd]].repeat ==>
            var c := k.clocks[k.open[fd]];
            taken[ids[fd]] + (if c.pending then 1 else 0) + (if c.counting then 1 else 0) <= 1)
  }

  /** Every timer ever made: it fired at most as often as it read an expiry of its own; a one-shot at most once. */
  ghost predicate FiringsOk(next: TimerId, timers: map<TimerId, TimerEntry>, oneShot: set<TimerId>,
                            taken: map<TimerId, nat>, fired: map<TimerId, nat>, misused: bool)
  {
    && next >= 1
    && (forall id :: 1 <= id < next ==>
          id in taken && id in fired && (!misused ==> fired[id] <= taken[id] && (id in oneShot ==> taken[id] <= 1)))
    && (forall id :: id in timers ==> (id in oneShot <==> !timers[id].repeat))
  }

  /** Every callback that ran belonged to the registration the event was raised for. */
  ghost predicate LogOk(log: seq<Fired>, fileOf: map<nat, File>) {
    forall j :: 0 <= j < |log| ==>
      log[j].event.holder == Some(log[j].stamp) && log[j].stamp in fileOf && fileOf[log[j].stamp] == log[j].event.file
  }

  /** How many of the callbacks that ran were the registration's. */
  ghost function Runs(log: seq<Fired>, stamp: nat): nat {
    if log == [] then 0 else Runs(log[..|log| - 1], stamp) + if log[|log| - 1].stamp == stamp then 1 else 0
  }

  /** A stamp is one registration's, and a timer is counted as fired as often as the log has its stamp. */
  ghost predicate StampsOk(io: map<Fd, IoEntry>, timers: map<TimerId, TimerEntry>, next: TimerId, last: nat,
                           stampOf: map<TimerId, nat>, fired: map<TimerId, nat>, log: seq<Fired>)
  {
    && next >= 1
    && (forall id :: 1 <= id < next ==>
          id in stampOf && id in fired && stampOf[id] <= last && fired[id] == Runs(log, stampOf[id]))
    && (forall id, other :: 1 <= id < next && 1 <= other < next && id != other ==> stampOf[id] != stampOf[other])
    && (forall id :: id in timers ==> 1 <= id < next && timers[id].stamp == stampOf[id])
    && (forall fd :: fd in io ==> io[fd].stamp <= last)
    && (forall fd, id :: fd in io && 1 <= id < next ==> io[fd].stamp != stampOf[id])
    && (forall j :: 0 <= j < |log| ==> log[j].stamp <= last)
  }

  lemma RunsOnce(log: seq<Fired>, f: Fired, stamp: nat)
    ensures Runs(log + [f], stamp) == Runs(log, stamp) + if f.stamp == stamp then 1 else 0
  {
    assert (log + [f])[..|log|] == log;
  }

  lemma {:induction false} NeverRan(log: seq<Fired>, stamp: nat)
    requires forall j :: 0 <= j < |log| ==> log[j].stamp != stamp
    ensures Runs(log, stamp) == 0
  {
    if log != [] { NeverRan(log[..|log| - 1], stamp); }
  }

  lemma {:induction false} RanAt(log: seq<Fired>, stamp: nat, i: nat)
    requires i < |log| && log[i].stamp == stamp
    ensures Runs(log, stamp) >= 1
  {
    if i < |log| - 1 { RanAt(log[..|log| - 1], stamp, i); }
  }

  lemma {:induction false} RanTwice(log: seq<Fired>, stamp: nat, i: nat, j: nat)
    requires i < j < |log| && log[i].stamp == stamp && log[j].stamp == stamp
    ensures Runs(log, stamp) >= 2
  {
    if j < |log| - 1 { RanTwice(log[..|log| - 1], stamp, i, j); } else { RanAt(log[..|log| - 1], stamp, i); }
  }

  /** Entries go, or change their mask or their fault mark. */
  lemma StampsByLess(io: map<Fd, IoEntry>, timers: map<TimerId, TimerEntry>, next: TimerId, last: nat,
                     stampOf: map<TimerId, nat>, fired: map<TimerId, nat>, log: seq<Fired>, less: map<Fd, IoEntry>,
                     fewer: map<TimerId, TimerEntry>)
    requires StampsOk(io, timers, next, last, stampOf, fired, log)
    requires forall fd :: fd in less ==> fd in io && less[fd].stamp == io[fd].stamp
    requires forall id :: id in fewer ==> id in timers && fewer[id] == timers[id]
    ensures StampsOk(less, fewer, next, last, stampOf, fired, log)
  {
    hide Runs;
  }

  lemma StampsByAddIo(io: map<Fd, IoEntry>, timers: map<TimerId, TimerEntry>, next: TimerId, last: nat,
                      stampOf: map<TimerId, nat>, fired: map<TimerId, nat>, log: seq<Fired>, fd: Fd, e: IoEntry)
    requires StampsOk(io, timers, next, last, stampOf, fired, log) && e.stamp == last + 1
    ensures StampsOk(io[fd := e], timers, next, last + 1, stampOf, fired, log)
  {
    hide Runs;
  }

  lemma StampsByAddTimer(io: map<Fd, IoEntry>, timers: map<TimerId, TimerEntry>, next: TimerId, last: nat,
                         stampOf: map<TimerId, nat>, fired: map<TimerId, nat>, log: seq<Fired>, e: TimerEntry)
    requires StampsOk(io, timers, next, last, stampOf, fired, log) && e.stamp == last + 1
    ensures StampsOk(io, timers[next := e], next + 1, last + 1, stampOf[next := last + 1], fired[next := 0], log)
  {
    NeverRan(log, last + 1);
    hide Runs;
  }

  lemma StampsByIoFired(io: map<Fd, IoEntry>, timers: map<TimerId, TimerEntry>, next: TimerId, last: nat,
                        stampOf: map<TimerId, nat>, fired: map<TimerId, nat>, log: seq<Fired>, fd: Fd, f: Fired)
    requires StampsOk(io, timers, next, last, stampOf, fired, log) && fd in io && f.stamp == io[fd].stamp
    ensures StampsOk(io, timers, next, last, stampOf, fired, log + [f])
  {
    forall id | 1 <= id < next ensures Runs(log + [f], stampOf[id]) == Runs(log, stampOf[id]) {
      RunsOnce(log, f, stampOf[id]);
    }
    hide Runs;
  }

  lemma StampsByTimerFired(io: map<Fd, IoEntry>, timers: map<TimerId, TimerEntry>, next: TimerId, last: nat,
                           stampOf: map<TimerId, nat>, fired: map<TimerId, nat>, log: seq<Fired>, id: TimerId, f: Fired)
    requires StampsOk(io, timers, next, last, stampOf, fired, log) && id in timers && f.stamp == timers[id].stamp
    ensures id in fired && StampsOk(io, timers, next, last, stampOf, fired[id := fired[id] + 1], log + [f])
  {
    forall other | 1 <= other < next
      ensures Runs(log + [f], stampOf[other]) == Runs(log, stampOf[other]) + if other == id then 1 else 0
    {
      RunsOnce(log, f, stampOf[other]);
    }
    hide Runs;
  }

  // ─── What time does to the maps ────────────────────────────────────────────

  /** The loop's maps at some moment. */
  datatype Past = Past(io: map<Fd, IoEntry>, timers: map<TimerId, TimerEntry>, ids: map<Fd, TimerId>, last: nat,
                             fileOf: map<nat, File>, misused: bool)

  ghost predicate AgedIo(a: Past, b: Past) {
    forall fd :: fd in b.io && b.io[fd].stamp <= a.last ==>
      fd in a.io && a.io[fd].stamp == b.io[fd].stamp && (a.io[fd].faulted ==> b.io[fd].faulted)
  }

  ghost predicate AgedTimers(a: Past, b: Past) {
    forall fd :: fd in b.ids && b.ids[fd] in b.timers && b.timers[b.ids[fd]].stamp <= a.last ==>
      fd in a.ids && a.ids[fd] == b.ids[fd] && a.ids[fd] in a.timers
        && a.timers[a.ids[fd]].stamp == b.timers[b.ids[fd]].stamp
  }

  /** Whatever handlers did in between, an entry no newer than a was already there, under the same number. */
  ghost predicate Later(a: Past, b: Past) {
    && a.last <= b.last && (a.misused ==> b.misused)
    && (forall s :: s in a.fileOf ==> s in b.fileOf && b.fileOf[s] == a.fileOf[s])
    && AgedIo(a, b) && AgedTimers(a, b)
  }

  lemma LaterStill(a: Past, b: Past, c: Past)
    requires Later(a, b) && Later(b, c)
    ensures Later(a, c)
  {
  }

  /** The registration an event under this number is for. */
  ghost function HolderAt(a: Past, fd: Fd): Option<nat> {
    if fd in a.ids && a.ids[fd] in a.timers then Some(a.timers[a.ids[fd]].stamp)
    else if fd in a.io then Some(a.io[fd].stamp)
    else None
  }

  /** An event for the number is among them. */
  predicate Raised(events: seq<Event>, fd: Fd) {
    exists k :: 0 <= k < |events| && events[k].fd == fd
  }

  lemma RaisedStays(events: seq<Event>, e: Event)
    ensures forall fd :: Raised(events, fd) ==> Raised(events + [e], fd)
    ensures Raised(events + [e], e.fd)
  {
    forall fd | Raised(events, fd) ensures Raised(events + [e], fd) {
      var k :| 0 <= k < |events| && events[k].fd == fd;
      assert (events + [e])[k].fd == fd;
    }
    assert (events + [e])[|events|].fd == e.fd;
  }

  /** The number's file is the event's. */
  ghost predicate RaisedIn(k: Kernel, e: Event) {
    e.fd in k.watched && e.fd in k.open && k.open[e.fd] == e.file
  }

  /** The events are of some of the numbers, in their order. */
  ghost predicate IsBatch(k: Kernel, ready: seq<Ready>, events: seq<Event>, from: seq<nat>) {
    && |events| == |from|
    && (forall j :: 0 <= j < |from| ==>
          from[j] < |ready| && events[j].fd == ready[from[j]].fd && RaisedIn(k, events[j]))
    && (forall i, j :: 0 <= i < j < |from| ==> from[i] < from[j])
  }

  lemma BatchKept(k: Kernel, l: Kernel, ready: seq<Ready>, events: seq<Event>, from: seq<nat>)
    requires IsBatch(k, ready, events, from) && l == k.(armed := l.armed)
    ensures IsBatch(l, ready, events, from)
  {
  }

  lemma BatchGrows(k: Kernel, ready: seq<Ready>, r: Ready, events: seq<Event>, from: seq<nat>, e: Event)
    requires IsBatch(k, ready, events, from) && e.fd == r.fd && RaisedIn(k, e)
    ensures IsBatch(k, ready + [r], events + [e], from + [|ready|])
  {
    hide RaisedIn;
  }

  lemma BatchStays(k: Kernel, ready: seq<Ready>, r: Ready, events: seq<Event>, from: seq<nat>)
    requires IsBatch(k, ready, events, from)
    ensures IsBatch(k, ready + [r], events, from)
  {
    hide RaisedIn;
  }

  /** The event was collected at a. */
  ghost predicate Collected(e: Event, a: Past) {
    && e.holder == HolderAt(a, e.fd)
    && (!a.misused ==>
          && (e.holder.Some? ==> e.holder.value in a.fileOf && a.fileOf[e.holder.value] == e.file)
          && (e.fd in a.io ==> e.fd !in a.ids))
  }

  /** The check by age is enough: an entry that passes it is the one that held the number when the event was raised. */
  lemma OldEntryIsHolder(e: Event, a: Past, b: Past)
    requires Collected(e, a) && Later(a, b) && !b.misused
    ensures e.fd in b.ids && b.ids[e.fd] in b.timers && b.timers[b.ids[e.fd]].stamp <= a.last ==>
      e.holder == Some(b.timers[b.ids[e.fd]].stamp) && b.fileOf[b.timers[b.ids[e.fd]].stamp] == e.file
    ensures e.fd !in b.ids && e.fd in b.io && b.io[e.fd].stamp <= a.last ==>
      e.holder == Some(b.io[e.fd].stamp) && b.fileOf[b.io[e.fd].stamp] == e.file
  {
  }

  // ── One lemma for each kernel call and each change of the maps ──

  /** The part of the invariant that needs every holder to take a number off the loop before closing it. */
  ghost predicate Disciplined(k: Kernel, io: map<Fd, IoEntry>, timers: map<TimerId, TimerEntry>, ids: map<Fd, TimerId>,
                              fileOf: map<nat, File>, taken: map<TimerId, nat>, log: seq<Fired>)
  {
    NumbersOk(k, io, timers, ids, fileOf) && ClocksOk(k, timers, ids, taken) && LogOk(log, fileOf)
  }

  lemma KernelByOpen(k: Kernel, fd: Fd)
    requires KernelOk(k) && fd !in k.open
    ensures KernelOk(Opened(k, fd))
  {
  }

  lemma KeptByOpen(k: Kernel, io: map<Fd, IoEntry>, timers: map<TimerId, TimerEntry>, ids: map<Fd, TimerId>,
                   fileOf: map<nat, File>, taken: map<TimerId, nat>, log: seq<Fired>, fd: Fd)
    requires KernelOk(k) && fd !in k.open
    ensures Disciplined(k, io, timers, ids, fileOf, taken, log) ==>
      Disciplined(Opened(k, fd), io, timers, ids, fileOf, taken, log)
  {
    hide LogOk;
  }

  lemma ClocksByClose(k: Kernel, timers: map<TimerId, TimerEntry>, ids: map<Fd, TimerId>, taken: map<TimerId, nat>,
                      fd: Fd)
    requires ClocksOk(k, timers, ids, taken)
    ensures ClocksOk(Closed(k, fd), timers, ids, taken)
  {
  }

  lemma KernelByClose(k: Kernel, fd: Fd)
    requires KernelOk(k)
    ensures KernelOk(Closed(k, fd))
  {
  }

  lemma KeptByClose(k: Kernel, io: map<Fd, IoEntry>, timers: map<TimerId, TimerEntry>, ids: map<Fd, TimerId>,
                    fileOf: map<nat, File>, taken: map<TimerId, nat>, log: seq<Fired>, fd: Fd)
    requires KernelOk(k)
    ensures KernelOk(Closed(k, fd))
    ensures fd !in io && fd !in ids && Disciplined(k, io, timers, ids, fileOf, taken, log) ==>
      Disciplined(Closed(k, fd), io, timers, ids, fileOf, taken, log)
  {
    hide KernelOk, ClocksOk, LogOk;
    KernelByClose(k, fd);
    if ClocksOk(k, timers, ids, taken) { ClocksByClose(k, timers, ids, taken, fd); }
  }

  /** The epoll set is not what the maps are about. */
  lemma KeptByWatch(k: Kernel, j: Kernel, io: map<Fd, IoEntry>, timers: map<TimerId, TimerEntry>, ids: map<Fd, TimerId>,
                    fileOf: map<nat, File>, taken: map<TimerId, nat>, log: seq<Fired>)
    requires KernelOk(k) && j == k.(watched := j.watched, armed := j.armed) && j.watched <= k.open.Keys
    ensures KernelOk(j)
    ensures Disciplined(k, io, timers, ids, fileOf, taken, log) ==> Disciplined(j, io, timers, ids, fileOf, taken, log)
  {
  }

  lemma Subset(k: Kernel, fd: Fd)
    requires KernelOk(k)
    ensures Unwatched(k, fd).watched <= k.open.Keys && k.watched <= k.open.Keys
    ensures fd in k.open ==> Watched(k, fd).watched <= k.open.Keys
  {
  }

  lemma KeptByAddIo(k: Kernel, io: map<Fd, IoEntry>, timers: map<TimerId, TimerEntry>, ids: map<Fd, TimerId>,
                    nextTimer: TimerId, last: nat, fileOf: map<nat, File>, taken: map<TimerId, nat>, log: seq<Fired>,
                    fd: Fd, e: IoEntry)
    requires HandlersOk(io, last, fileOf) && TimersOk(timers, nextTimer, last, fileOf) && fd in k.open
    requires e.stamp == last + 1
    ensures HandlersOk(io[fd := e], last + 1, fileOf[last + 1 := k.open[fd]])
    ensures TimersOk(timers, nextTimer, last + 1, fileOf[last + 1 := k.open[fd]])
    ensures fd !in ids && Disciplined(k, io, timers, ids, fileOf, taken, log) ==>
      Disciplined(k, io[fd := e], timers, ids, fileOf[last + 1 := k.open[fd]], taken, log)
  {
  }

  lemma KeptByRemoveIo(k: Kernel, io: map<Fd, IoEntry>, timers: map<TimerId, TimerEntry>, ids: map<Fd, TimerId>,
                       last: nat, fileOf: map<nat, File>, taken: map<TimerId, nat>, log: seq<Fired>, fd: Fd)
    requires HandlersOk(io, last, fileOf)
    ensures HandlersOk(io - {fd}, last, fileOf)
    ensures Disciplined(k, io, timers, ids, fileOf, taken, log) ==>
      Disciplined(k, io - {fd}, timers, ids, fileOf, taken, log)
  {
  }

  lemma LaterByAddIo(a: Past, fd: Fd, e: IoEntry, file: File, misused: bool)
    requires HandlersOk(a.io, a.last, a.fileOf) && e.stamp == a.last + 1 && (a.misused ==> misused)
    ensures Later(a, a.(io := a.io[fd := e], last := a.last + 1, fileOf := a.fileOf[a.last + 1 := file],
                        misused := misused))
  {
  }

  lemma LaterByRemoveIo(a: Past, fd: Fd)
    ensures Later(a, a.(io := a.io - {fd}))
  {
  }

  lemma FiringsLater(next: TimerId, timers: map<TimerId, TimerEntry>, oneShot: set<TimerId>, taken: map<TimerId, nat>,
                     fired: map<TimerId, nat>, misused: bool, now: bool)
    requires FiringsOk(next, timers, oneShot, taken, fired, misused) && (misused ==> now)
    ensures FiringsOk(next, timers, oneShot, taken, fired, now)
  {
  }

  /** An entry's mask or fault mark changes; it stays the same registration. */
  lemma KeptByUpdate(k: Kernel, io: map<Fd, IoEntry>, timers: map<TimerId, TimerEntry>, ids: map<Fd, TimerId>,
                     last: nat, fileOf: map<nat, File>, taken: map<TimerId, nat>, log: seq<Fired>, fd: Fd, e: IoEntry)
    requires HandlersOk(io, last, fileOf) && fd in io && e.stamp == io[fd].stamp
    ensures HandlersOk(io[fd := e], last, fileOf)
    ensures Disciplined(k, io, timers, ids, fileOf, taken, log) ==>
      Disciplined(k, io[fd := e], timers, ids, fileOf, taken, log)
  {
  }

  lemma LaterByUpdate(a: Past, fd: Fd, e: IoEntry)
    requires fd in a.io && e.stamp == a.io[fd].stamp && (a.io[fd].faulted ==> e.faulted)
    ensures Later(a, a.(io := a.io[fd := e]))
  {
  }

  /** While a registration lasts, its fault is not forgotten. */
  lemma FaultStays(a: Past, b: Past, fd: Fd)
    requires HandlersOk(a.io, a.last, a.fileOf) && Later(a, b) && fd in a.io && fd in b.io
    requires a.io[fd].stamp == b.io[fd].stamp
    ensures a.io[fd].faulted ==> b.io[fd].faulted
  {
  }

  function TimerMade(k: Kernel, fd: Fd, repeat: bool): Kernel {
    Watched(ClockSet(Opened(k, fd), fd, Clock(repeat, true, false)), fd)
  }

  /** The entries already there still stand for the files their numbers name. */
  lemma OtherNumbers(k: Kernel, io: map<Fd, IoEntry>, timers: map<TimerId, TimerEntry>, ids: map<Fd, TimerId>,
                     next: TimerId, last: nat, fileOf: map<nat, File>, fd: Fd, repeat: bool, n: Fd)
    requires KernelOk(k) && HandlersOk(io, last, fileOf) && TimersOk(timers, next, last, fileOf) && fd !in k.open
    requires NumbersOk(k, io, timers, ids, fileOf)
    ensures var j, files := TimerMade(k, fd, repeat), fileOf[last + 1 := k.nextFile];
      && (n in io ==> n != fd && n !in ids && n in j.open && io[n].stamp in files && j.open[n] == files[io[n].stamp])
      && (n in ids ==> (
            && n != fd && ids[n] != next && HasClock(j, n) && ids[n] in timers && timers[ids[n]].fd == n
            && timers[ids[n]].stamp in files && j.open[n] == files[timers[ids[n]].stamp]))
  {
  }

  lemma NumbersByAddTimer(k: Kernel, io: map<Fd, IoEntry>, timers: map<TimerId, TimerEntry>, ids: map<Fd, TimerId>,
                          next: TimerId, last: nat, fileOf: map<nat, File>, fd: Fd, repeat: bool)
    requires KernelOk(k) && HandlersOk(io, last, fileOf) && TimersOk(timers, next, last, fileOf) && fd !in k.open
    requires NumbersOk(k, io, timers, ids, fileOf)
    ensures NumbersOk(TimerMade(k, fd, repeat), io, timers[next := TimerEntry(fd, repeat, last + 1)], ids[fd := next],
                      fileOf[last + 1 := k.nextFile])
  {
    var j, files := TimerMade(k, fd, repeat), fileOf[last + 1 := k.nextFile];
    var made, now := timers[next := TimerEntry(fd, repeat, last + 1)], ids[fd := next];
    assert HasClock(j, fd) && j.open[fd] == k.nextFile;
    forall id | id in made ensures made[id].fd in now && now[made[id].fd] == id {
      if id != next { OtherNumbers(k, io, timers, ids, next, last, fileOf, fd, repeat, timers[id].fd); }
    }
    forall n ensures n in io || n in ids ==> n != fd {
      OtherNumbers(k, io, timers, ids, next, last, fileOf, fd, repeat, n);
    }
    hide KernelOk, HandlersOk, TimersOk, TimerMade;
    forall n | n in io ensures n in j.open && io[n].stamp in files && j.open[n] == files[io[n].stamp] && n !in now {
      OtherNumbers(k, io, timers, ids, next, last, fileOf, fd, repeat, n);
    }
    forall n | n in now
      ensures HasClock(j, n) && now[n] in made && made[now[n]].fd == n && made[now[n]].stamp in files
      ensures j.open[n] == files[made[now[n]].stamp]
    {
      if n != fd { OtherNumbers(k, io, timers, ids, next, last, fileOf, fd, repeat, n); }
    }
  }

  lemma ClocksByAddTimer(k: Kernel, timers: map<TimerId, TimerEntry>, ids: map<Fd, TimerId>, next: TimerId,
                         last: nat, fileOf: map<nat, File>, taken: map<TimerId, nat>, fd: Fd, e: TimerEntry)
    requires KernelOk(k) && TimersOk(timers, next, last, fileOf) && fd !in k.open && e.fd == fd
    requires ClocksOk(k, timers, ids, taken) && (forall n :: n in ids ==> n in k.open && ids[n] in timers)
    ensures ClocksOk(TimerMade(k, fd, e.repeat), timers[next := e], ids[fd := next], taken[next := 0])
  {
    var j := TimerMade(k, fd, e.repeat);
    forall n | n in ids && n != fd && HasClock(j, n)
      ensures ids[n] != next && HasClock(k, n) && j.clocks[j.open[n]] == k.clocks[k.open[n]]
    {
      assert j.open[n] == k.open[n] && k.open[n] < k.nextFile;
    }
  }

  lemma MapsByAddTimer(k: Kernel, io: map<Fd, IoEntry>, timers: map<TimerId, TimerEntry>, next: TimerId,
                       last: nat, fileOf: map<nat, File>, fd: Fd, repeat: bool)
    requires KernelOk(k) && HandlersOk(io, last, fileOf) && TimersOk(timers, next, last, fileOf) && fd !in k.open
    requires next >= 1
    ensures KernelOk(TimerMade(k, fd, repeat)) && HandlersOk(io, last + 1, fileOf[last + 1 := k.nextFile])
    ensures TimersOk(timers[next := TimerEntry(fd, repeat, last + 1)], next + 1, last + 1,
                     fileOf[last + 1 := k.nextFile])
  {
  }

  lemma LogStays(log: seq<Fired>, fileOf: map<nat, File>, io: map<Fd, IoEntry>, last: nat, file: File)
    requires LogOk(log, fileOf) && HandlersOk(io, last, fileOf)
    ensures LogOk(log, fileOf[last + 1 := file])
  {
  }

  lemma KeptByAddTimer(k: Kernel, io: map<Fd, IoEntry>, timers: map<TimerId, TimerEntry>, ids: map<Fd, TimerId>,
                       next: TimerId, last: nat, fileOf: map<nat, File>, taken: map<TimerId, nat>, log: seq<Fired>,
                       fd: Fd, repeat: bool)
    requires KernelOk(k) && HandlersOk(io, last, fileOf) && TimersOk(timers, next, last, fileOf) && fd !in k.open
    requires Disciplined(k, io, timers, ids, fileOf, taken, log)
    ensures Disciplined(TimerMade(k, fd, repeat), io, timers[next := TimerEntry(fd, repeat, last + 1)], ids[fd := next],
                        fileOf[last + 1 := k.nextFile], taken[next := 0], log)
  {
    assert forall n :: n in ids ==> n in k.open && ids[n] in timers;
    hide NumbersOk, ClocksOk, LogOk, HandlersOk, TimersOk, KernelOk, TimerMade;
    NumbersByAddTimer(k, io, timers, ids, next, last, fileOf, fd, repeat);
    ClocksByAddTimer(k, timers, ids, next, last, fileOf, taken, fd, TimerEntry(fd, repeat, last + 1));
    LogStays(log, fileOf, io, last, k.nextFile);
  }

  lemma FiringsByAddTimer(next: TimerId, timers: map<TimerId, TimerEntry>, oneShot: set<TimerId>,
                          taken: map<TimerId, nat>, fired: map<TimerId, nat>, misused: bool, e: TimerEntry)
    requires FiringsOk(next, timers, oneShot, taken, fired, misused) && (forall id :: id in timers ==> id < next)
    ensures next >= 1
    ensures FiringsOk(next + 1, timers[next := e], if e.repeat then oneShot - {next} else oneShot + {next},
                      taken[next := 0], fired[next := 0], misused)
  {
  }

  lemma LaterByAddTimer(a: Past, fd: Fd, id: TimerId, e: TimerEntry, file: File)
    requires HandlersOk(a.io, a.last, a.fileOf) && TimersOk(a.timers, id, a.last, a.fileOf) && e.stamp == a.last + 1
    requires IdsBelow(a.ids, id)
    ensures IdsBelow(a.ids[fd := id], id + 1)
    ensures Later(a, a.(timers := a.timers[id := e], ids := a.ids[fd := id], last := a.last + 1,
                        fileOf := a.fileOf[a.last + 1 := file]))
  {
  }

  /** The whole invariant. */
  ghost predicate AllOk(k: Kernel, a: Past, next: TimerId, tally: Tally, log: seq<Fired>) {
    && KernelOk(k)
    && HandlersOk(a.io, a.last, a.fileOf)
    && TimersOk(a.timers, next, a.last, a.fileOf)
    && (!a.misused ==> Disciplined(k, a.io, a.timers, a.ids, a.fileOf, tally.taken, log))
    && FiringsOk(next, a.timers, tally.oneShot, tally.taken, tally.fired, a.misused)
    && StampsOk(a.io, a.timers, next, a.last, tally.stampOf, tally.fired, log)
    && IdsBelow(a.ids, next)
  }

  ghost function TallyMade(tally: Tally, id: TimerId, repeat: bool, stamp: nat): Tally {
    Tally(if repeat then tally.oneShot - {id} else tally.oneShot + {id}, tally.stampOf[id := stamp],
          tally.taken[id := 0], tally.fired[id := 0])
  }

  ghost function WithTimer(a: Past, id: TimerId, fd: Fd, repeat: bool, file: File): Past {
    Past(a.io, a.timers[id := TimerEntry(fd, repeat, a.last + 1)], a.ids[fd := id], a.last + 1,
         a.fileOf[a.last + 1 := file], a.misused)
  }

  lemma AllByAddTimer(k: Kernel, a: Past, next: TimerId, tally: Tally, log: seq<Fired>, fd: Fd, repeat: bool)
    requires AllOk(k, a, next, tally, log) && fd !in k.open
    ensures var b := WithTimer(a, next, fd, repeat, k.nextFile);
      AllOk(TimerMade(k, fd, repeat), b, next + 1, TallyMade(tally, next, repeat, a.last + 1), log) && Later(a, b)
        && next !in a.timers
  {
    hide KernelOk, HandlersOk, TimersOk, Disciplined, FiringsOk, StampsOk, Later, IdsBelow, TimerMade;
    var e := TimerEntry(fd, repeat, a.last + 1);
    TimerIdsBelow(next, a.timers, a.last, a.fileOf);
    StampsByAddTimer(a.io, a.timers, next, a.last, tally.stampOf, tally.fired, log, e);
    FiringsByAddTimer(next, a.timers, tally.oneShot, tally.taken, tally.fired, a.misused, e);
    MapsByAddTimer(k, a.io, a.timers, next, a.last, a.fileOf, fd, repeat);
    if !a.misused { KeptByAddTimer(k, a.io, a.timers, a.ids, next, a.last, a.fileOf, tally.taken, log, fd, repeat); }
    LaterByAddTimer(a, fd, next, e, k.nextFile);
  }

  lemma NumbersByCancel(k: Kernel, io: map<Fd, IoEntry>, timers: map<TimerId, TimerEntry>, ids: map<Fd, TimerId>,
                        fileOf: map<nat, File>, id: TimerId)
    requires NumbersOk(k, io, timers, ids, fileOf) && id in timers
    ensures NumbersOk(Closed(k, timers[id].fd), io, timers - {id}, ids - {timers[id].fd}, fileOf)
  {
  }

  lemma ClocksByCancel(k: Kernel, timers: map<TimerId, TimerEntry>, ids: map<Fd, TimerId>, taken: map<TimerId, nat>,
                       id: TimerId)
    requires ClocksOk(k, timers, ids, taken) && id in timers
    ensures ClocksOk(Closed(k, timers[id].fd), timers - {id}, ids - {timers[id].fd}, taken)
  {
  }

  lemma KeptByCancel(k: Kernel, io: map<Fd, IoEntry>, timers: map<TimerId, TimerEntry>, ids: map<Fd, TimerId>,
                     next: TimerId, last: nat, fileOf: map<nat, File>, taken: map<TimerId, nat>, log: seq<Fired>,
                     id: TimerId)
    requires KernelOk(k) && TimersOk(timers, next, last, fileOf) && id in timers
    ensures TimersOk(timers - {id}, next, last, fileOf) && KernelOk(Closed(k, timers[id].fd))
    ensures Disciplined(k, io, timers, ids, fileOf, taken, log) ==>
      Disciplined(Closed(k, timers[id].fd), io, timers - {id}, ids - {timers[id].fd}, fileOf, taken, log)
  {
    hide NumbersOk, ClocksOk, LogOk;
    if Disciplined(k, io, timers, ids, fileOf, taken, log) {
      NumbersByCancel(k, io, timers, ids, fileOf, id);
      ClocksByCancel(k, timers, ids, taken, id);
    }
  }

  lemma LaterByCancel(a: Past, fd: Fd, id: TimerId)
    ensures Later(a, a.(timers := a.timers - {id}, ids := a.ids - {fd}))
  {
  }

  lemma KeptByExpire(k: Kernel, io: map<Fd, IoEntry>, timers: map<TimerId, TimerEntry>, ids: map<Fd, TimerId>,
                     fileOf: map<nat, File>, taken: map<TimerId, nat>, log: seq<Fired>, fd: Fd)
    requires KernelOk(k)
    ensures KernelOk(Expired(k, fd))
    ensures Disciplined(k, io, timers, ids, fileOf, taken, log) ==>
      Disciplined(Expired(k, fd), io, timers, ids, fileOf, taken, log)
  {
  }

  lemma TimerIdsBelow(next: TimerId, timers: map<TimerId, TimerEntry>, last: nat, fileOf: map<nat, File>)
    requires TimersOk(timers, next, last, fileOf)
    ensures next !in timers && forall id :: id in timers ==> id < next
  {
  }

  lemma FiringsByCancel(next: TimerId, timers: map<TimerId, TimerEntry>, oneShot: set<TimerId>,
                        taken: map<TimerId, nat>, fired: map<TimerId, nat>, misused: bool, id: TimerId)
    requires FiringsOk(next, timers, oneShot, taken, fired, misused)
    ensures FiringsOk(next, timers - {id}, oneShot, taken, fired, misused)
  {
  }

  function Drained(k: Kernel, fd: Fd): Kernel
    requires HasClock(k, fd)
  {
    ClockSet(k, fd, k.clocks[k.open[fd]].(pending := false))
  }

  ghost function TakenOnce(taken: map<TimerId, nat>, id: TimerId): map<TimerId, nat> {
    if id in taken then taken[id := taken[id] + 1] else taken
  }

  /** The timer has read an expiry for which it has not fired yet. */
  ghost predicate Owed(id: TimerId, taken: map<TimerId, nat>, fired: map<TimerId, nat>) {
    id in taken && id in fired && fired[id] < taken[id]
  }

  lemma FiringsByFire(next: TimerId, timers: map<TimerId, TimerEntry>, oneShot: set<TimerId>, taken: map<TimerId, nat>,
                      fired: map<TimerId, nat>, misused: bool, id: TimerId)
    requires FiringsOk(next, timers, oneShot, taken, fired, misused) && id in fired
    requires !misused ==> Owed(id, taken, fired)
    ensures FiringsOk(next, timers, oneShot, taken, fired[id := fired[id] + 1], misused)
  {
  }

  lemma KeptByRead(k: Kernel, io: map<Fd, IoEntry>, timers: map<TimerId, TimerEntry>, ids: map<Fd, TimerId>,
                   fileOf: map<nat, File>, taken: map<TimerId, nat>, log: seq<Fired>, fd: Fd)
    requires KernelOk(k) && fd in ids && HasClock(k, fd) && k.clocks[k.open[fd]].pending
    ensures KernelOk(Drained(k, fd))
    ensures Disciplined(k, io, timers, ids, fileOf, taken, log) ==>
      Disciplined(Drained(k, fd), io, timers, ids, fileOf, TakenOnce(taken, ids[fd]), log)
  {
  }

  lemma FiringsByRead(k: Kernel, io: map<Fd, IoEntry>, timers: map<TimerId, TimerEntry>, ids: map<Fd, TimerId>,
                      next: TimerId, last: nat, fileOf: map<nat, File>, oneShot: set<TimerId>,
                      taken: map<TimerId, nat>, fired: map<TimerId, nat>, log: seq<Fired>, misused: bool, fd: Fd)
    requires FiringsOk(next, timers, oneShot, taken, fired, misused) && TimersOk(timers, next, last, fileOf)
    requires !misused ==> Disciplined(k, io, timers, ids, fileOf, taken, log)
    requires fd in ids && HasClock(k, fd) && k.clocks[k.open[fd]].pending
    ensures FiringsOk(next, timers, oneShot, TakenOnce(taken, ids[fd]), fired, misused)
    ensures !misused ==> ids[fd] in timers && Owed(ids[fd], TakenOnce(taken, ids[fd]), fired)
  {
  }

  lemma KeptByLog(k: Kernel, io: map<Fd, IoEntry>, timers: map<TimerId, TimerEntry>, ids: map<Fd, TimerId>,
                  fileOf: map<nat, File>, taken: map<TimerId, nat>, log: seq<Fired>, f: Fired, misused: bool)
    requires !misused ==> f.event.holder == Some(f.stamp) && f.stamp in fileOf && fileOf[f.stamp] == f.event.file
    ensures !misused && Disciplined(k, io, timers, ids, fileOf, taken, log) ==>
      Disciplined(k, io, timers, ids, fileOf, taken, log + [f])
  {
  }

  lemma CollectedNow(k: Kernel, io: map<Fd, IoEntry>, timers: map<TimerId, TimerEntry>, ids: map<Fd, TimerId>,
                     last: nat, fileOf: map<nat, File>, taken: map<TimerId, nat>, log: seq<Fired>, misused: bool,
                     fd: Fd)
    requires fd in k.open && (!misused ==> Disciplined(k, io, timers, ids, fileOf, taken, log))
    ensures var a := Past(io, timers, ids, last, fileOf, misused);
      Collected(Event(fd, k.open[fd], HolderAt(a, fd)), a)
  {
  }

  lemma StampsKnown(io: map<Fd, IoEntry>, timers: map<TimerId, TimerEntry>, next: TimerId, last: nat,
                    fileOf: map<nat, File>)
    requires HandlersOk(io, last, fileOf) && TimersOk(timers, next, last, fileOf)
    ensures forall fd :: fd in io ==> io[fd].stamp in fileOf
    ensures forall id :: id in timers ==> timers[id].stamp in fileOf
  {
  }

  lemma EmptyLoop(k: Kernel)
    requires k == Kernel(map[], {}, {}, map[], 0)
    ensures KernelOk(k) && HandlersOk(map[], 0, map[]) && TimersOk(map[], 1, 0, map[])
    ensures Disciplined(k, map[], map[], map[], map[], map[], [])
    ensures FiringsOk(1, map[], {}, map[], map[], false)
  {
  }

  lemma NoStamps()
    ensures StampsOk(map[], map[], 1, 0, map[], map[], [])
  {
    hide Runs;
  }

  lemma LaterByNothing(a: Past, misused: bool)
    requires a.misused ==> misused
    ensures Later(a, a.(misused := misused))
  {
  }

  /** What was offered stays offered, and the event whose turn it was joins it. */
  lemma OfferedStays(start: seq<Event>, before: seq<Event>, now: seq<Event>, batch: seq<Event>, i: nat)
    requires start <= before && i < |batch| && before + [batch[i]] <= now
    requires forall k :: 0 <= k < i ==> batch[k] in before[|start|..]
    ensures start <= now && forall k :: 0 <= k <= i ==> batch[k] in now[|start|..]
  {
    forall k | 0 <= k <= i ensures batch[k] in now[|start|..] {
      if k < i {
        var j :| 0 <= j < |before[|start|..]| && before[|start|..][j] == batch[k];
        assert now[|start|..][j] == batch[k];
      } else {
        assert now[|start|..][|before| - |start|] == batch[i];
      }
    }
  }

  /** The registration an event was collected for is no newer than the batch. */
  lemma HolderIsOld(k: Kernel, was: Past, next: TimerId, tally: Tally, log: seq<Fired>, e: Event)
    requires AllOk(k, was, next, tally, log) && Collected(e, was)
    ensures e.holder.Some? ==> e.holder.value <= was.last
  {
    hide KernelOk, Disciplined, FiringsOk, Runs;
  }

  lemma OfferedSince(start: seq<Event>, before: seq<Event>, now: seq<Event>)
    requires start <= before <= now
    ensures forall e :: e in before[|start|..] || e in now[|before|..] ==> e in now[|start|..]
  {
    assert now[|start|..] == before[|start|..] + now[|before|..] by {
      assert now[..|before|] == before;
    }
  }

  /** The number is an I/O registration's, no newer than the batch and not faulted. */
  predicate PassesCheck(a: Past, fd: Fd, collectedAt: nat)
    requires fd in a.io
  {
    fd !in a.ids && a.io[fd].stamp <= collectedAt && !a.io[fd].faulted
  }

  class EventLoop {
    const et: bool                        // edge-triggered, one-shot registrations
    var kernel: Kernel
    var ioHandlers: map<Fd, IoEntry>
    var timers: map<TimerId, TimerEntry>
    var timerFdToId: map<Fd, TimerId>
    var nextTimerId: TimerId
    var registrationSeq: nat
    var running: bool

    ghost var fileOf: map<nat, File>      // the file each registration was made for
    ghost var misused: bool               // a number was closed while registered, or registered over a timer
    ghost var log: seq<Fired>
    ghost var offered: seq<Event>         // the collected events whose turn has come
    ghost var stops: nat                  // how often the loop was told to stop
    ghost var tally: Tally

    constructor (et: bool)
      ensures Valid() && !misused && log == [] && !running && this.et == et
      ensures ioHandlers == map[] && timers == map[] && timerFdToId == map[] && nextTimerId == 1 && registrationSeq == 0
      ensures kernel == Kernel(map[], {}, {}, map[], 0)
    {
      hide KernelOk, HandlersOk, TimersOk, Disciplined, FiringsOk, StampsOk, Later;
      EmptyLoop(Kernel(map[], {}, {}, map[], 0));
      NoStamps();
      this.et := et;
      kernel := Kernel(map[], {}, {}, map[], 0);
      ioHandlers, timers, timerFdToId, nextTimerId, registrationSeq, running := map[], map[], map[], 1, 0, false;
      fileOf, misused, log, offered, stops, tally := map[], false, [], [], 0, Tally({}, map[], map[], map[]);
    }

    ghost function Now(): Past
      reads this
    {
      Past(ioHandlers, timers, timerFdToId, registrationSeq, fileOf, misused)
    }

    ghost predicate Valid()
      reads this
    {
      AllOk(kernel, Now(), nextTimerId, tally, log)
    }

    /** The loop has stopped running only if it was told to. */
    twostate predicate StopsCounted()
      reads `running, `stops
    {
      old(stops) <= stops && (old(running) && !running ==> stops > old(stops))
    }

    /** The event's turn has come since, or its registration is armed, if it still stands. */
    ghost predicate NotLost(e: Event, since: seq<Event>)
      reads `offered, `ioHandlers, `kernel
    {
      && since <= offered
      && (e in offered[|since|..]
          || (e.fd in ioHandlers && e.holder == Some(ioHandlers[e.fd].stamp) ==> e.fd in kernel.armed))
    }

    /** The entries and the kernel are as they were. */
    twostate predicate Untouched()
      reads this
    {
      && kernel == old(kernel) && ioHandlers == old(ioHandlers) && timers == old(timers)
      && timerFdToId == old(timerFdToId)
      && registrationSeq == old(registrationSeq) && misused == old(misused)
    }

    /** ... but for one timer, which is gone with its descriptor. */
    twostate predicate TimerGone(id: TimerId)
      reads this
    {
      && ioHandlers == old(ioHandlers) && timers == old(timers) - {id}
      && registrationSeq == old(registrationSeq) && misused == old(misused)
      && (if id in old(timers)
          then timerFdToId == old(timerFdToId) - {old(timers)[id].fd}
            && kernel == Closed(old(kernel), old(timers)[id].fd)
          else timerFdToId == old(timerFdToId) && kernel == old(kernel))
    }

    // ── I/O registrations ──

    method OpenFd(fd: Fd)
      requires Valid()
      modifies this`kernel
      ensures Valid() && kernel == if fd in old(kernel).open then old(kernel) else Opened(old(kernel), fd)
    {
      hide KernelOk, HandlersOk, TimersOk, Disciplined, FiringsOk, StampsOk, Later;
      if fd !in kernel.open {
        KernelByOpen(kernel, fd);
        KeptByOpen(kernel, ioHandlers, timers, timerFdToId, fileOf, tally.taken, log, fd);
        kernel := Opened(kernel, fd);
      }
    }

    method CloseFd(fd: Fd)
      requires Valid()
      modifies this`kernel, this`misused
      ensures Valid() && Later(old(Now()), Now())
      ensures kernel == if fd in old(kernel).open then Closed(old(kernel), fd) else old(kernel)
      ensures misused == (old(misused) || (fd in old(kernel).open && (fd in ioHandlers || fd in timerFdToId)))
    {
      hide KernelOk, HandlersOk, TimersOk, Disciplined, FiringsOk, StampsOk, Later;
      ghost var was := Now();
      if fd in kernel.open {
        KeptByClose(kernel, ioHandlers, timers, timerFdToId, fileOf, tally.taken, log, fd);
        FiringsLater(nextTimerId, timers, tally.oneShot, tally.taken, tally.fired, misused,
                     misused || fd in ioHandlers || fd in timerFdToId);
        misused := misused || fd in ioHandlers || fd in timerFdToId;
        kernel := Closed(kernel, fd);
      }
      LaterByNothing(was, misused);
    }

    method AddIo(fd: Fd, events: set<Flag>) returns (threw: bool)
      requires Valid()
      modifies this`kernel, this`ioHandlers, this`registrationSeq, this`fileOf, this`misused
      ensures Valid() && Later(old(Now()), Now())
      ensures threw == (fd !in old(kernel).open || fd in old(kernel).watched)
      ensures threw ==> Untouched()
      ensures !threw ==> (
        && registrationSeq == old(registrationSeq) + 1 && kernel == Watched(old(kernel), fd)
        && ioHandlers == old(ioHandlers)[fd := IoEntry(events, registrationSeq, false)]
        && fileOf == old(fileOf)[registrationSeq := kernel.open[fd]] && misused == (old(misused) || fd in timerFdToId))
    {
      threw := fd !in kernel.open || fd in kernel.watched;
      hide KernelOk, HandlersOk, TimersOk, Disciplined, FiringsOk, StampsOk, Later;
      ghost var was := Now();
      if threw { LaterByNothing(was, misused); return; }
      Subset(kernel, fd);
      KeptByWatch(kernel, Watched(kernel, fd), ioHandlers, timers, timerFdToId, fileOf, tally.taken, log);
      KeptByAddIo(Watched(kernel, fd), ioHandlers, timers, timerFdToId, nextTimerId, registrationSeq, fileOf,
                  tally.taken, log, fd, IoEntry(events, registrationSeq + 1, false));
      StampsByAddIo(ioHandlers, timers, nextTimerId, registrationSeq, tally.stampOf, tally.fired, log, fd,
                    IoEntry(events, registrationSeq + 1, false));
      LaterByAddIo(was, fd, IoEntry(events, registrationSeq + 1, false), kernel.open[fd], misused || fd in timerFdToId);
      kernel := Watched(kernel, fd);
      registrationSeq := registrationSeq + 1;
      ioHandlers := ioHandlers[fd := IoEntry(events, registrationSeq, false)];
      fileOf := fileOf[registrationSeq := kernel.open[fd]];
      FiringsLater(nextTimerId, timers, tally.oneShot, tally.taken, tally.fired, misused, misused || fd in timerFdToId);
      misused := misused || fd in timerFdToId;
    }

    method RemoveIo(fd: Fd)
      requires Valid()
      modifies this`kernel, this`ioHandlers
      ensures Valid() && Later(old(Now()), Now()) && ioHandlers == old(ioHandlers) - {fd}
      ensures kernel == Unwatched(old(kernel), fd)
    {
      hide KernelOk, HandlersOk, TimersOk, Disciplined, FiringsOk, StampsOk, Later;
      ghost var was := Now();
      Subset(kernel, fd);
      KeptByWatch(kernel, Unwatched(kernel, fd), ioHandlers, timers, timerFdToId, fileOf, tally.taken, log);
      KeptByRemoveIo(Unwatched(kernel, fd), ioHandlers, timers, timerFdToId, registrationSeq, fileOf, tally.taken, log,
                     fd);
      LaterByRemoveIo(was, fd);
      StampsByLess(ioHandlers, timers, nextTimerId, registrationSeq, tally.stampOf, tally.fired, log,
                   ioHandlers - {fd}, timers);
      kernel := Unwatched(kernel, fd);
      ioHandlers := ioHandlers - {fd};
    }

    /** EPOLL_CTL_MOD: a registration that went with its descriptor is dropped, never made again. */
    method ModifyIo(fd: Fd, events: set<Flag>, failed: bool) returns (watched: bool, threw: bool)
      requires Valid()
      modifies this`kernel, this`ioHandlers
      ensures Valid() && Later(old(Now()), Now())
      ensures threw == (failed && fd in old(kernel).watched) && watched == (!failed && fd in old(kernel).watched)
      ensures ioHandlers == if threw || fd !in old(ioHandlers) then old(ioHandlers)
                            else if watched then old(ioHandlers)[fd := old(ioHandlers)[fd].(events := events)]
                            else old(ioHandlers) - {fd}
    {
      hide KernelOk, HandlersOk, TimersOk, Disciplined, FiringsOk, StampsOk, Later;
      ghost var was := Now();
      LaterByNothing(was, misused);
      watched, threw := false, false;
      if fd in kernel.watched {
        if failed { threw := true; return; }
        watched := true;
        Subset(kernel, fd);
        KeptByWatch(kernel, kernel.(armed := kernel.armed + {fd}), ioHandlers, timers, timerFdToId, fileOf,
                    tally.taken, log);
        kernel := kernel.(armed := kernel.armed + {fd});
        if fd in ioHandlers {
          var e := ioHandlers[fd].(events := events);
          KeptByUpdate(kernel, ioHandlers, timers, timerFdToId, registrationSeq, fileOf, tally.taken, log, fd, e);
          LaterByUpdate(was, fd, e);
          StampsByLess(ioHandlers, timers, nextTimerId, registrationSeq, tally.stampOf, tally.fired, log,
                       ioHandlers[fd := e], timers);
          ioHandlers := ioHandlers[fd := e];
        }
      } else if fd in ioHandlers {
        KeptByRemoveIo(kernel, ioHandlers, timers, timerFdToId, registrationSeq, fileOf, tally.taken, log, fd);
        LaterByRemoveIo(was, fd);
        StampsByLess(ioHandlers, timers, nextTimerId, registrationSeq, tally.stampOf, tally.fired, log,
                     ioHandlers - {fd}, timers);
        ioHandlers := ioHandlers - {fd};
      }
    }

    /** One-shot registrations only: armed again, unless the registration is gone. */
    method RearmIo(fd: Fd, events: set<Flag>)
      requires Valid()
      modifies this`kernel, this`ioHandlers
      ensures Valid() && Later(old(Now()), Now()) && old(kernel).armed <= kernel.armed
      ensures et && fd in ioHandlers ==> fd in kernel.armed
      ensures ioHandlers.Keys <= old(ioHandlers).Keys
      ensures forall n :: n in old(ioHandlers) && (n != fd || n in old(kernel).watched) ==>
        n in ioHandlers && ioHandlers[n].stamp == old(ioHandlers)[n].stamp
    {
      hide KernelOk, HandlersOk, TimersOk, Disciplined, FiringsOk, StampsOk, Later;
      ghost var was := Now();
      LaterByNothing(was, misused);
      if !et || fd !in ioHandlers { return; }
      if fd !in kernel.watched {
        KeptByRemoveIo(kernel, ioHandlers, timers, timerFdToId, registrationSeq, fileOf, tally.taken, log, fd);
        LaterByRemoveIo(was, fd);
        StampsByLess(ioHandlers, timers, nextTimerId, registrationSeq, tally.stampOf, tally.fired, log,
                     ioHandlers - {fd}, timers);
        ioHandlers := ioHandlers - {fd};
        return;
      }
      Subset(kernel, fd);
      KeptByWatch(kernel, kernel.(armed := kernel.armed + {fd}), ioHandlers, timers, timerFdToId, fileOf, tally.taken,
                  log);
      kernel := kernel.(armed := kernel.armed + {fd});
      if events != {} {
        var e := ioHandlers[fd].(events := events);
        KeptByUpdate(kernel, ioHandlers, timers, timerFdToId, registrationSeq, fileOf, tally.taken, log, fd, e);
        LaterByUpdate(was, fd, e);
        StampsByLess(ioHandlers, timers, nextTimerId, registrationSeq, tally.stampOf, tally.fired, log,
                     ioHandlers[fd := e], timers);
        ioHandlers := ioHandlers[fd := e];
      }
    }

    // ── Timers ──

    method AddTimer(fd: Fd, repeat: bool) returns (id: TimerId, threw: bool)
      requires Valid()
      modifies this`kernel, this`timers, this`timerFdToId, this`nextTimerId, this`registrationSeq
      modifies this`fileOf, this`tally
      ensures Valid() && Later(old(Now()), Now())
      ensures threw == (fd in old(kernel).open)
      ensures if threw then Untouched() else TimerAdded(id, fd, repeat)
    {
      hide KernelOk, HandlersOk, TimersOk, Disciplined, FiringsOk, StampsOk, Later;
      id, threw := 0, fd in kernel.open;
      if threw {
        LaterByNothing(Now(), misused);
      } else {
        id := MakeTimer(fd, repeat);
      }
    }

    twostate predicate TimerAdded(id: TimerId, fd: Fd, repeat: bool)
      reads this
    {
      && id == old(nextTimerId) && id !in old(timers) && timerFdToId == old(timerFdToId)[fd := id]
      && registrationSeq == old(registrationSeq) + 1 && kernel == TimerMade(old(kernel), fd, repeat)
      && timers == old(timers)[id := TimerEntry(fd, repeat, registrationSeq)]
      && tally.stampOf == old(tally).stampOf[id := registrationSeq] && (id in tally.oneShot <==> !repeat)
    }

    method MakeTimer(fd: Fd, repeat: bool) returns (id: TimerId)
      requires Valid() && fd !in kernel.open
      modifies this`kernel, this`timers, this`timerFdToId, this`nextTimerId, this`registrationSeq
      modifies this`fileOf, this`tally
      ensures Valid() && Later(old(Now()), Now()) && TimerAdded(id, fd, repeat)
    {
      hide KernelOk, HandlersOk, TimersOk, Disciplined, FiringsOk, StampsOk, Later;
      hide IdsBelow, TimerMade;
      hide AllOk;
      ghost var was := Now();
      AllByAddTimer(kernel, was, nextTimerId, tally, log, fd, repeat);
      id := nextTimerId;
      timers := timers[id := TimerEntry(fd, repeat, registrationSeq + 1)];
      timerFdToId := timerFdToId[fd := id];
      kernel, fileOf := TimerMade(kernel, fd, repeat), fileOf[registrationSeq + 1 := kernel.nextFile];
      tally := TallyMade(tally, id, repeat, registrationSeq + 1);
      nextTimerId := nextTimerId + 1;
      registrationSeq := registrationSeq + 1;
      assert Now() == WithTimer(was, id, fd, repeat, old(kernel).nextFile);
    }

    method CancelTimer(id: TimerId)
      requires Valid()
      modifies this`kernel, this`timers, this`timerFdToId
      ensures Valid() && Later(old(Now()), Now()) && TimerGone(id)
    {
      hide KernelOk, HandlersOk, TimersOk, Disciplined, FiringsOk, StampsOk, Later;
      ghost var was := Now();
      LaterByNothing(was, misused);
      if id !in timers { return; }
      var fd := timers[id].fd;
      KeptByCancel(kernel, ioHandlers, timers, timerFdToId, nextTimerId, registrationSeq, fileOf, tally.taken, log, id);
      FiringsByCancel(nextTimerId, timers, tally.oneShot, tally.taken, tally.fired, misused, id);
      LaterByCancel(was, fd, id);
      StampsByLess(ioHandlers, timers, nextTimerId, registrationSeq, tally.stampOf, tally.fired, log, ioHandlers,
                   timers - {id});
      kernel := Closed(kernel, fd);
      timerFdToId := timerFdToId - {fd};
      timers := timers - {id};
    }

    method Expire(fd: Fd)
      requires Valid()
      modifies this`kernel
      ensures Valid() && kernel == Expired(old(kernel), fd)
    {
      hide KernelOk, HandlersOk, TimersOk, Disciplined, FiringsOk, StampsOk, Later;
      KeptByExpire(kernel, ioHandlers, timers, timerFdToId, fileOf, tally.taken, log, fd);
      kernel := Expired(kernel, fd);
    }

    // ── Dispatch ──

    /** read(timerfd): whether there was an expiry. It counts for the timer when it came from that timer's own file. */
    method ReadTimer(fd: Fd) returns (expired: bool)
      requires Valid() && fd in timerFdToId
      modifies this`kernel, this`tally
      ensures Valid()
      ensures expired == Expiring(old(kernel), fd) && tally == old(tally).(taken := tally.taken)
      ensures !expired ==> kernel == old(kernel) && tally == old(tally)
      ensures expired && !misused ==> timerFdToId[fd] in timers && Owed(timerFdToId[fd], tally.taken, tally.fired)
    {
      hide KernelOk, HandlersOk, TimersOk, Disciplined, FiringsOk, StampsOk, Later, Owed;
      expired := Expiring(kernel, fd);
      if !expired { return; }
      KeptByRead(kernel, ioHandlers, timers, timerFdToId, fileOf, tally.taken, log, fd);
      FiringsByRead(kernel, ioHandlers, timers, timerFdToId, nextTimerId, registrationSeq, fileOf, tally.oneShot,
                    tally.taken, tally.fired, log, misused, fd);
      kernel := Drained(kernel, fd);
      tally := tally.(taken := TakenOnce(tally.taken, timerFdToId[fd]));
    }

    /** A callback is about to run: it must be the callback the event was raised for. */
    ghost method NoteFired(e: Event)
      requires Valid() && e.fd in ioHandlers
      requires var stamp := ioHandlers[e.fd].stamp;
        !misused ==> e.holder == Some(stamp) && stamp in fileOf && fileOf[stamp] == e.file
      modifies this`log
      ensures Valid() && log == old(log) + [Fired(ioHandlers[e.fd].stamp, e)]
    {
      hide KernelOk, HandlersOk, TimersOk, Disciplined, FiringsOk, StampsOk, Later;
      var f := Fired(ioHandlers[e.fd].stamp, e);
      KeptByLog(kernel, ioHandlers, timers, timerFdToId, fileOf, tally.taken, log, f, misused);
      StampsByIoFired(ioHandlers, timers, nextTimerId, registrationSeq, tally.stampOf, tally.fired, log, e.fd, f);
      log := log + [f];
    }

    /**
     * The handler threw. Its registration hears of the end of input once; a second throw, or a socket that
     * cannot be shut, ends it.
     */
    method IoHandlerThrew(fd: Fd, stamp: nat, shut: bool, armed: bool)
      requires Valid()
      modifies this`kernel, this`ioHandlers
      ensures Valid() && Later(old(Now()), Now())
      ensures forall n :: n != fd ==> (n in ioHandlers <==> n in old(ioHandlers))
      ensures forall n :: n != fd && n in ioHandlers ==> ioHandlers[n] == old(ioHandlers)[n]
      ensures fd !in old(ioHandlers) || old(ioHandlers)[fd].stamp != stamp ==> ioHandlers == old(ioHandlers)
      ensures fd in old(ioHandlers) && old(ioHandlers)[fd].stamp == stamp && fd in ioHandlers ==>
        !old(ioHandlers)[fd].faulted && shut && armed
        && ioHandlers[fd] == IoEntry(old(ioHandlers)[fd].events + {In, RdHup}, stamp, true)
    {
      hide KernelOk, HandlersOk, TimersOk, Disciplined, FiringsOk, StampsOk, Later;
      ghost var was := Now();
      LaterByNothing(was, misused);
      if fd !in ioHandlers || ioHandlers[fd].stamp != stamp { return; }
      if ioHandlers[fd].faulted || !shut {
        RemoveIo(fd);
        return;
      }
      var e := ioHandlers[fd].(faulted := true);
      KeptByUpdate(kernel, ioHandlers, timers, timerFdToId, registrationSeq, fileOf, tally.taken, log, fd, e);
      LaterByUpdate(was, fd, e);
      StampsByLess(ioHandlers, timers, nextTimerId, registrationSeq, tally.stampOf, tally.fired, log,
                   ioHandlers[fd := e], timers);
      ioHandlers := ioHandlers[fd := e];
      ghost var mid := Now();
      var watched, threw := ModifyIo(fd, e.events + {In, RdHup}, !armed);
      LaterStill(was, mid, Now());
      if !watched {
        ghost var late := Now();
        RemoveIo(fd);
        LaterStill(was, late, Now());
      }
    }

    /** One number of an epoll_wait; reporting a one-shot registration disarms it. */
    method Report(fd: Fd) returns (e: Option<Event>)
      requires Valid()
      modifies this`kernel
      ensures Valid() && e.Some? == Reportable(old(kernel), fd)
      ensures e.Some? ==> e.value.fd == fd && RaisedIn(kernel, e.value) && Collected(e.value, Now())
      ensures kernel == old(kernel).(armed := kernel.armed) && (!et ==> kernel == old(kernel))
      ensures forall n :: n != fd && Reportable(old(kernel), n) ==> Reportable(kernel, n)
    {
      hide KernelOk, HandlersOk, TimersOk, Disciplined, FiringsOk, StampsOk, Later, Collected;
      e := None;
      if Reportable(kernel, fd) {
        CollectedNow(kernel, ioHandlers, timers, timerFdToId, registrationSeq, fileOf, tally.taken, log, misused, fd);
        e := Some(Event(fd, kernel.open[fd], HolderNow(fd)));
        if et && !HasClock(kernel, fd) {
          Subset(kernel, fd);
          KeptByWatch(kernel, kernel.(armed := kernel.armed - {fd}), ioHandlers, timers, timerFdToId, fileOf,
                      tally.taken, log);
          kernel := kernel.(armed := kernel.armed - {fd});
        }
      }
    }

    /** epoll_wait: some of the armed numbers, each as it stands now. */
    method Collect(ready: seq<Ready>) returns (events: seq<Event>, from: seq<nat>)
      requires Valid()
      modifies this`kernel
      ensures Valid() && IsBatch(kernel, ready, events, from)
      ensures forall k :: 0 <= k < |events| ==> Collected(events[k], Now())
      ensures kernel == old(kernel).(armed := kernel.armed) && (!et ==> kernel == old(kernel))
      ensures forall k :: 0 <= k < |ready| && Reportable(old(kernel), ready[k].fd) ==> Raised(events, ready[k].fd)
    {
      hide KernelOk, HandlersOk, TimersOk, Disciplined, FiringsOk, StampsOk, Later, Collected, Reportable, RaisedIn,
        Raised;
      events, from := [], [];
      for i := 0 to |ready|
        invariant Valid() && IsBatch(kernel, ready[..i], events, from)
        invariant kernel == old(kernel).(armed := kernel.armed) && (!et ==> kernel == old(kernel))
        invariant forall k :: 0 <= k < |events| ==> Collected(events[k], Now())
        invariant forall n :: Reportable(old(kernel), n) ==> Reportable(kernel, n) || Raised(events, n)
        invariant forall k :: 0 <= k < i && Reportable(old(kernel), ready[k].fd) ==> Raised(events, ready[k].fd)
      {
        ghost var was := kernel;
        var e := Report(ready[i].fd);
        BatchKept(was, kernel, ready[..i], events, from);
        assert ready[..i + 1] == ready[..i] + [ready[i]];
        if e.Some? {
          RaisedStays(events, e.value);
          BatchGrows(kernel, ready[..i], ready[i], events, from, e.value);
          events, from := events + [e.value], from + [i];
        } else {
          BatchStays(kernel, ready[..i], ready[i], events, from);
        }
      }
      assert ready[..|ready|] == ready;
    }

    function HolderNow(fd: Fd): Option<nat>
      reads this
    {
      if fd in timerFdToId && timerFdToId[fd] in timers then Some(timers[timerFdToId[fd]].stamp)
      else if fd in ioHandlers then Some(ioHandlers[fd].stamp)
      else None
    }

    /** One call of a handler into the loop or the kernel. */
    method Perform(op: Op) returns (threw: bool)
      requires Valid()
      modifies this
      ensures Valid() && Later(old(Now()), Now()) && old(log) <= log
      ensures old(offered) <= offered && StopsCounted()
      ensures op.Stop? ==> !running
      ensures op.StopTimer? ==> !threw && TimerGone(op.id) && log == old(log)
      decreases op
    {
      hide KernelOk, HandlersOk, TimersOk, Disciplined, FiringsOk, StampsOk, Later, IdsBelow;
      threw := false;
      ghost var was := Now();
      LaterByNothing(was, misused);
      match op
      case Open(fd) => OpenFd(fd);
      case Close(fd) => CloseFd(fd);
      case Register(fd, events) => threw := AddIo(fd, events);
      case Unregister(fd) => RemoveIo(fd);
      case Modify(fd, events, failed) => var watched; watched, threw := ModifyIo(fd, events, failed);
      case Rearm(fd, events) => RearmIo(fd, events);
      case StartTimer(fd, repeat) => var id; id, threw := AddTimer(fd, repeat);
      case StopTimer(id) => CancelTimer(id);
      case Elapse(fd) => Expire(fd);
      case Stop => running, stops := false, stops + 1;
      case Pump(polls) =>
        ghost var batches;
        threw, batches := RunFor(polls);
    }

    /** A handler runs to its end, or throws; so does whatever it called that threw. */
    method Handle(script: Script) returns (threw: bool, shut: bool, armed: bool)
      requires Valid()
      modifies this
      ensures Valid() && Later(old(Now()), Now()) && old(log) <= log
      ensures old(offered) <= offered && StopsCounted()
      ensures script.Return? ==> !threw && Untouched() && log == old(log)
      ensures Stops(script) ==> !threw && TimerGone(script.op.id) && log == old(log)
      decreases script, 0
    {
      hide KernelOk, HandlersOk, TimersOk, Disciplined, FiringsOk, StampsOk, Later, IdsBelow;
      ghost var was := Now();
      LaterByNothing(was, misused);
      threw, shut, armed := false, true, true;
      match script
      case Return =>
      case Throw(s, a) => threw, shut, armed := true, s, a;
      case Do(op, rest, s, a) =>
        threw := Perform(op);
        if threw {
          shut, armed := s, a;
        } else {
          ghost var mid := Now();
          threw, shut, armed := Handle(rest);
          LaterStill(was, mid, Now());
        }
    }

    /** A registration that has thrown before is gone after its next event, whatever it does with it. */
    method DispatchIo(e: Event, script: Script)
      requires Valid() && e.fd in ioHandlers
      requires !misused ==>
        e.holder == Some(ioHandlers[e.fd].stamp) && e.holder.value in fileOf && fileOf[e.holder.value] == e.file
      modifies this
      ensures Valid() && Later(old(Now()), Now())
      ensures old(log) + [Fired(old(ioHandlers)[e.fd].stamp, e)] <= log
      ensures old(ioHandlers)[e.fd].faulted ==>
        e.fd !in ioHandlers || ioHandlers[e.fd].stamp != old(ioHandlers)[e.fd].stamp
      ensures old(offered) <= offered && StopsCounted()
      ensures !old(ioHandlers)[e.fd].faulted && (Stops(script) || script.Return?) ==> (
        && log == old(log) + [Fired(old(ioHandlers)[e.fd].stamp, e)]
        && (if Stops(script) then TimerGone(script.op.id) else Untouched()))
      decreases script, 1
    {
      hide KernelOk, HandlersOk, TimersOk, Disciplined, FiringsOk, StampsOk, Later, IdsBelow;
      ghost var was := Now();
      var entry := ioHandlers[e.fd];
      NoteFired(e);
      var threw, shut, armed := Handle(script);
      ghost var mid := Now();
      if threw {
        if e.fd in ioHandlers && ioHandlers[e.fd].stamp == entry.stamp { FaultStays(was, mid, e.fd); }
        IoHandlerThrew(e.fd, entry.stamp, shut, armed);
        LaterStill(was, mid, Now());
        return;
      }
      if !entry.faulted { return; }
      if e.fd !in ioHandlers || ioHandlers[e.fd].stamp != entry.stamp { return; }
      RemoveIo(e.fd);
      LaterStill(was, mid, Now());
    }

    /** A timer fires only on an expiry it read itself; a one-shot is cancelled after it. */
    method DispatchTimer(e: Event, script: Script) returns (threw: bool)
      requires Valid() && e.fd in timerFdToId
      requires !misused && timerFdToId[e.fd] in timers ==>
        var stamp := timers[timerFdToId[e.fd]].stamp;
        e.holder == Some(stamp) && stamp in fileOf && fileOf[stamp] == e.file
      modifies this
      ensures Valid() && Later(old(Now()), Now()) && old(log) <= log
      ensures Expiring(old(kernel), e.fd) && old(timerFdToId)[e.fd] in old(timers) ==>
        && old(log) + [Fired(old(timers)[old(timerFdToId)[e.fd]].stamp, e)] <= log
        && (!threw && !old(timers)[old(timerFdToId)[e.fd]].repeat ==> old(timerFdToId)[e.fd] !in timers)
      ensures !Expiring(old(kernel), e.fd) ==> log == old(log) && timers == old(timers) && tally == old(tally)
      ensures old(offered) <= offered && StopsCounted()
      decreases script, 1
    {
      hide KernelOk, HandlersOk, TimersOk, Disciplined, FiringsOk, StampsOk, Later, IdsBelow;
      ghost var was := Now();
      LaterByNothing(was, misused);
      threw := false;
      var expired := ReadTimer(e.fd);
      if !expired { return; }
      var id := timerFdToId[e.fd];
      if id !in timers { return; }
      var repeat := timers[id].repeat;
      NoteTimerFired(id, e);
      var shut, armed;
      threw, shut, armed := Handle(script);
      if threw { return; }
      if !repeat {
        ghost var mid := Now();
        CancelTimer(id);
        LaterStill(was, mid, Now());
      }
    }

    ghost method NoteTimerFired(id: TimerId, e: Event)
      requires Valid() && id in timers && (!misused ==> Owed(id, tally.taken, tally.fired))
      requires !misused ==>
        e.holder == Some(timers[id].stamp) && timers[id].stamp in fileOf && fileOf[timers[id].stamp] == e.file
      modifies this`log, this`tally
      ensures Valid() && log == old(log) + [Fired(timers[id].stamp, e)]
      ensures id in old(tally).fired && tally == old(tally).(fired := old(tally).fired[id := old(tally).fired[id] + 1])
    {
      hide KernelOk, HandlersOk, TimersOk, Disciplined, FiringsOk, StampsOk, Later, IdsBelow;
      var f := Fired(timers[id].stamp, e);
      KeptByLog(kernel, ioHandlers, timers, timerFdToId, fileOf, tally.taken, log, f, misused);
      StampsByTimerFired(ioHandlers, timers, nextTimerId, registrationSeq, tally.stampOf, tally.fired, log, id, f);
      FiringsByFire(nextTimerId, timers, tally.oneShot, tally.taken, tally.fired, misused, id);
      tally := tally.(fired := tally.fired[id := tally.fired[id] + 1]);
      log := log + [f];
    }

    /** One batch: an event whose number has a newer holder than the batch is dropped. */
    method PollOnce(poll: Poll) returns (threw: bool, ghost events: seq<Event>)
      requires Valid()
      modifies this
      ensures Valid() && Later(old(Now()), Now()) && old(log) <= log && old(offered) <= offered && StopsCounted()
      ensures forall k :: 0 <= k < |poll.ready| && Reportable(old(kernel), poll.ready[k].fd) ==>
        Raised(events, poll.ready[k].fd)
      ensures forall k :: 0 <= k < |events| ==> Collected(events[k], old(Now()))
      ensures !threw && running && old(running) ==>
        forall k :: 0 <= k < |events| ==> events[k] in offered[|old(offered)|..]
      ensures et && !threw ==> forall k :: 0 <= k < |events| ==>
        || events[k] in offered[|old(offered)|..] || events[k].fd !in ioHandlers
        || ioHandlers[events[k].fd].stamp > old(registrationSeq) || events[k].fd in kernel.armed
      decreases poll, 0
    {
      hide KernelOk, HandlersOk, TimersOk, Disciplined, FiringsOk, StampsOk, Later, IdsBelow, Collected;
      ghost var was := Now();
      threw := false;
      LaterByNothing(was, misused);
      var batch, from := Collect(poll.ready);
      events := batch;
      var collectedAt := registrationSeq;
      var i := 0;
      while i < |batch| && running
        invariant i <= |batch| && Valid() && Later(was, Now()) && old(log) <= log && StopsCounted()
        invariant old(offered) <= offered && forall k :: 0 <= k < i ==> batch[k] in offered[|old(offered)|..]
        decreases |batch| - i
      {
        ghost var mid, before := Now(), offered;
        threw := DispatchEvent(batch[i], poll.ready[from[i]].script, collectedAt, was);
        LaterStill(was, mid, Now());
        OfferedStays(old(offered), before, offered, batch, i);
        if threw { return; }
        i := i + 1;
      }
      ghost var late := Now();
      if et { RearmRest(batch, i, collectedAt); }
      LaterStill(was, late, Now());
    }

    method DispatchEvent(e: Event, script: Script, collectedAt: nat, ghost was: Past) returns (threw: bool)
      requires Valid() && collectedAt == was.last && Collected(e, was) && Later(was, Now())
      modifies this
      ensures Valid() && Later(old(Now()), Now()) && old(log) <= log
      ensures e.fd !in old(timerFdToId) && e.fd in old(ioHandlers) ==>
        if old(ioHandlers)[e.fd].stamp <= collectedAt then old(log) + [Fired(old(ioHandlers)[e.fd].stamp, e)] <= log
        else log == old(log) && ioHandlers == old(ioHandlers)
      ensures e.fd in old(timerFdToId) && old(timerFdToId)[e.fd] in old(timers)
              && old(timers)[old(timerFdToId)[e.fd]].stamp > collectedAt ==>
        log == old(log) && timers == old(timers) && kernel == old(kernel)
      ensures e.fd in old(timerFdToId) && old(timerFdToId)[e.fd] in old(timers)
              && old(timers)[old(timerFdToId)[e.fd]].stamp <= collectedAt && Expiring(old(kernel), e.fd) ==>
        old(log) + [Fired(old(timers)[old(timerFdToId)[e.fd]].stamp, e)] <= log
      ensures old(offered) + [e] <= offered && StopsCounted()
      ensures (e.fd in old(ioHandlers) && PassesCheck(old(Now()), e.fd, collectedAt)
               && (Stops(script) || script.Return?)) ==> (
        && log == old(log) + [Fired(old(ioHandlers)[e.fd].stamp, e)]
        && (if Stops(script) then TimerGone(script.op.id) else Untouched()))
      decreases script, 2
    {
      hide KernelOk, HandlersOk, TimersOk, Disciplined, FiringsOk, StampsOk, Later, IdsBelow;
      LaterByNothing(Now(), misused);
      offered := offered + [e];
      threw := false;
      if !misused {
        OldEntryIsHolder(e, was, Now());
        StampsKnown(ioHandlers, timers, nextTimerId, registrationSeq, fileOf);
      }
      hide Collected;
      if e.fd in timerFdToId {
        var id := timerFdToId[e.fd];
        if id in timers && timers[id].stamp > collectedAt { return; }
        threw := DispatchTimer(e, script);
      } else if e.fd in ioHandlers {
        if ioHandlers[e.fd].stamp > collectedAt { return; }
        DispatchIo(e, script);
      }
    }

    /** Stopped inside a batch: what the kernel reported and nobody heard is armed again. */
    method RearmRest(events: seq<Event>, from: nat, collectedAt: nat)
      requires Valid() && from <= |events|
      modifies this`kernel, this`ioHandlers
      ensures Valid() && Later(old(Now()), Now())
      ensures et ==>
        forall k :: from <= k < |events| && events[k].fd in ioHandlers
                    && ioHandlers[events[k].fd].stamp <= collectedAt ==>
                      events[k].fd in kernel.armed
    {
      hide KernelOk, HandlersOk, TimersOk, Disciplined, FiringsOk, StampsOk, Later, IdsBelow;
      ghost var was := Now();
      LaterByNothing(was, misused);
      for i := from to |events|
        invariant Valid() && Later(was, Now())
        invariant et ==>
          forall k :: from <= k < i && events[k].fd in ioHandlers
                      && ioHandlers[events[k].fd].stamp <= collectedAt ==>
                        events[k].fd in kernel.armed
      {
        var fd := events[i].fd;
        if fd in ioHandlers && ioHandlers[fd].stamp <= collectedAt {
          ghost var mid := Now();
          RearmIo(fd, {});
          LaterStill(was, mid, Now());
        }
      }
    }

    /** A batch of which no event is lost. */
    method PollKept(poll: Poll) returns (threw: bool, ghost events: seq<Event>)
      requires Valid()
      modifies this
      ensures Valid() && Later(old(Now()), Now()) && old(log) <= log && old(offered) <= offered && StopsCounted()
      ensures forall k :: 0 <= k < |poll.ready| && Reportable(old(kernel), poll.ready[k].fd) ==>
        Raised(events, poll.ready[k].fd)
      ensures !threw && running && old(running) ==>
        forall k :: 0 <= k < |events| ==> events[k] in offered[|old(offered)|..]
      ensures et && !threw ==> forall k :: 0 <= k < |events| ==> NotLost(events[k], old(offered))
      decreases poll, 1
    {
      hide AllOk, Later, Collected, Raised, Reportable;
      ghost var k, l, n, ta, was := kernel, log, nextTimerId, tally, Now();
      threw, events := PollOnce(poll);
      forall i | 0 <= i < |events| ensures events[i].holder.Some? ==> events[i].holder.value <= was.last {
        HolderIsOld(k, was, n, ta, l, events[i]);
      }
    }

    /**
     * run_for(): the loop is pumped until stopped, and running is put back as it was. Each poll is made unless the
     * loop was told to stop, and no event of any of them is lost.
     */
    method RunFor(polls: seq<Poll>) returns (threw: bool, ghost batches: seq<seq<Event>>)
      requires Valid()
      modifies this
      ensures Valid() && Later(old(Now()), Now()) && old(log) <= log
      ensures !threw ==> running == old(running)
      ensures old(offered) <= offered && StopsCounted()
      ensures |batches| <= |polls| && (!threw && |batches| < |polls| ==> stops > old(stops))
      ensures batches != [] ==>
        forall k :: 0 <= k < |polls[0].ready| && Reportable(old(kernel), polls[0].ready[k].fd) ==>
        Raised(batches[0], polls[0].ready[k].fd)
      ensures !threw ==> forall i, k :: 0 <= i < |batches| - 1 && 0 <= k < |batches[i]| ==>
        batches[i][k] in offered[|old(offered)|..]
      ensures et && !threw ==> forall i, k :: 0 <= i < |batches| && 0 <= k < |batches[i]| ==>
        NotLost(batches[i][k], old(offered))
      decreases polls
    {
      hide KernelOk, HandlersOk, TimersOk, Disciplined, FiringsOk, StampsOk, Later, IdsBelow, Raised, Reportable, AllOk;
      ghost var was := Now();
      LaterByNothing(was, misused);
      var wasRunning := running;
      threw, running, batches := false, true, [];
      var i := 0;
      while i < |polls| && running
        invariant i <= |polls| && Valid() && Later(was, Now()) && old(log) <= log && old(offered) <= offered
        invariant |batches| == i && old(stops) <= stops && (!running ==> stops > old(stops))
        invariant batches != [] ==>
          forall k :: 0 <= k < |polls[0].ready| && Reportable(old(kernel), polls[0].ready[k].fd) ==>
            Raised(batches[0], polls[0].ready[k].fd)
        invariant i == 0 ==> kernel == old(kernel)
        invariant forall j, k :: 0 <= j < i - (if running then 0 else 1) && 0 <= k < |batches[j]| ==>
          batches[j][k] in offered[|old(offered)|..]
        invariant et ==> forall j, k :: 0 <= j < i && 0 <= k < |batches[j]| ==> NotLost(batches[j][k], old(offered))
        decreases |polls| - i
      {
        ghost var mid, before := Now(), offered;
        ghost var events;
        threw, events := PollKept(polls[i]);
        LaterStill(was, mid, Now());
        batches := batches + [events];
        if threw { return; }
        OfferedSince(old(offered), before, offered);
        i := i + 1;
      }
      running := wasRunning;
    }

    /** What holds after any run in which numbers are taken off the loop before they are closed. */
    lemma Kept()
      requires Valid() && !misused
      ensures forall j :: 0 <= j < |log| ==>
        log[j].event.holder == Some(log[j].stamp) && log[j].stamp in fileOf && fileOf[log[j].stamp] == log[j].event.file
      ensures forall id :: 1 <= id < nextTimerId ==>
        && id in tally.stampOf && id in tally.taken && Runs(log, tally.stampOf[id]) <= tally.taken[id]
        && (id in tally.oneShot ==>
              forall i, j :: 0 <= i <= j < |log| && log[i].stamp == log[j].stamp == tally.stampOf[id] ==> i == j)
      ensures forall fd :: fd in ioHandlers ==>
        fd in kernel.open && ioHandlers[fd].stamp in fileOf && kernel.open[fd] == fileOf[ioHandlers[fd].stamp]
          && fd !in timerFdToId
      ensures forall id :: id in timers ==> timers[id].fd in timerFdToId && timerFdToId[timers[id].fd] == id
    {
      hide ClocksOk, KernelOk, Runs;
      forall id, i, j | 1 <= id < nextTimerId && id in tally.oneShot && 0 <= i < j < |log|
                        && log[i].stamp == log[j].stamp == tally.stampOf[id]
        ensures false
      {
        RanTwice(log, tally.stampOf[id], i, j);
      }
    }
  }

  lemma {:induction false} AtLeast(from: seq<nat>, k: nat)
    requires k < |from| && forall i, j :: 0 <= i < j < |from| ==> from[i] < from[j]
    ensures from[k] >= k
  {
    if k > 0 { AtLeast(from, k - 1); }
  }

  /** Two numbers, both raised: their events, in their order. */
  lemma BothReported(k: Kernel, ready: seq<Ready>, events: seq<Event>, from: seq<nat>)
    requires |ready| == 2 && ready[0].fd != ready[1].fd && IsBatch(k, ready, events, from)
    requires Raised(events, ready[0].fd) && Raised(events, ready[1].fd)
    ensures from == [0, 1] && |events| == 2 && events[0].fd == ready[0].fd && events[1].fd == ready[1].fd
  {
    var i :| 0 <= i < |events| && events[i].fd == ready[0].fd;
    var j :| 0 <= j < |events| && events[j].fd == ready[1].fd;
    assert from[i] == 0 && from[j] == 1;
    AtLeast(from, i);
    AtLeast(from, j);
    AtLeast(from, |from| - 1);
  }

  /** Number 5 closed under its handler, and given to a timer. */
  method LeftoverNumber() returns (loop: EventLoop)
    ensures fresh(loop) && loop.Valid() && loop.misused && loop.log == [] && !loop.et && loop.registrationSeq == 2
    ensures loop.ioHandlers == map[5 := IoEntry({In}, 1, false)]
    ensures loop.timers == map[1 := TimerEntry(5, false, 2)] && loop.timerFdToId == map[5 := 1]
    ensures loop.kernel == TimerMade(Kernel(map[], {}, {}, map[], 1), 5, false)
  {
    hide KernelOk, HandlersOk, TimersOk, Disciplined, FiringsOk, StampsOk, Later, IdsBelow;
    loop := new EventLoop(false);
    loop.OpenFd(5);
    var threw := loop.AddIo(5, {In});
    loop.CloseFd(5);
    assert loop.kernel == Kernel(map[], {}, {}, map[], 1);
    var id;
    id, threw := loop.AddTimer(5, false);
  }

  /** The timer has expired; and there is a handler of number 6. */
  method LeftoverLoop() returns (loop: EventLoop)
    ensures fresh(loop) && loop.Valid() && loop.misused && loop.log == [] && !loop.et && loop.registrationSeq == 3
    ensures loop.ioHandlers == map[5 := IoEntry({In}, 1, false), 6 := IoEntry({In}, 3, false)]
    ensures loop.timers == map[1 := TimerEntry(5, false, 2)] && loop.timerFdToId == map[5 := 1]
    ensures Reportable(loop.kernel, 5) && Reportable(loop.kernel, 6)
  {
    hide KernelOk, HandlersOk, TimersOk, Disciplined, FiringsOk, StampsOk, Later, IdsBelow;
    loop := LeftoverNumber();
    loop.Expire(5);
    loop.OpenFd(6);
    var threw := loop.AddIo(6, {In});
  }

  /**
   * Without that discipline the check is not enough. Number 5 is closed under its handler (stamp 1) and given
   * to a timer (stamp 2). In one batch the handler of number 6 cancels the timer, and the timer's expiry then
   * reaches the handler that was left behind, which the check by age lets through.
   */
  method LeftoverHandlerIsMisled() returns (loop: EventLoop)
    ensures fresh(loop) && loop.Valid() && loop.misused
    ensures |loop.log| == 2 && loop.log[1].event.fd == 5 && loop.log[1].stamp == 1
    ensures loop.log[1].event.holder == Some(2)
  {
    hide KernelOk, HandlersOk, TimersOk, Disciplined, FiringsOk, StampsOk, Later, IdsBelow;
    loop := LeftoverLoop();
    var script := Do(StopTimer(1), Return, true, true);
    ghost var was := loop.Now();
    LaterByNothing(was, loop.misused);
    var ready := [Ready(6, script), Ready(5, Return)];
    var events, from := loop.Collect(ready);
    assert Raised(events, ready[0].fd) && Raised(events, ready[1].fd);
    BothReported(loop.kernel, ready, events, from);
    var threw := loop.DispatchEvent(events[0], script, 3, was);
    threw := loop.DispatchEvent(events[1], Return, 3, was);
  }
}

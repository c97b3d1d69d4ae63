/**
 * The master process reaps its children and forks them again: a crash loop is slowed down by a delay
 * that doubles up to thirty seconds, kept per child name, while the master's loop keeps turning.
 */
module Respawn {

  import opened Wrappers

  type Pid = nat

  const SECOND: nat := 1_000_000_000     // the clock counts nanoseconds
  const CEILING: nat := 30
  const STORM_LOG_INTERVAL: nat := 300 * SECOND

  datatype RespawnState = RespawnState(lastTime: nat, rapidCount: nat, storm: bool, lastStormLog: nat,
                                       stormAttempts: nat)

  const UNSEEN := RespawnState(0, 0, false, 0, 0)

  datatype Child = Child(pid: Pid, name: string, shuttingDown: bool)

  datatype Timer = Timer(due: nat, name: string)

  /** One death that is answered by a respawn: when, after how long a delay, and the slack left for the next ones. */
  datatype Death = Death(at: nat, delay: nat, slack: nat)

  // ─── The delay ─────────────────────────────────────────────────────────────

  function Min(a: nat, b: nat): nat {
    if a < b then a else b
  }

  /** 1 << n */
  function Shifted(n: nat): nat {
    if n == 0 then 1 else 2 * Shifted(n - 1)
  }

  /** Over a minute since the previous exit: the child had recovered. */
  function Recovered(rs: RespawnState, now: nat): RespawnState {
    if now - rs.lastTime > 60 * SECOND then RespawnState(rs.lastTime, 0, false, 0, 0) else rs
  }

  /** The state after a death, and the delay before the respawn, in seconds. */
  function Decided(was: RespawnState, now: nat): (RespawnState, nat) {
    var rs := Recovered(was, now);
    var rapid := now - rs.lastTime < 2 * SECOND;
    var count := if rapid then rs.rapidCount + 1 else rs.rapidCount;
    var ramp := if rapid && count > 3 then Min(Shifted(Min(count - 3, 5)), CEILING) else 0;
    var storm := ramp >= CEILING || rs.storm;
    var delay := if storm then CEILING else ramp;
    var tell := storm && (rs.lastStormLog == 0 || now - rs.lastStormLog >= STORM_LOG_INTERVAL);
    (RespawnState(now, count, storm, if tell then now else rs.lastStormLog,
                  if storm then rs.stormAttempts + 1 else rs.stormAttempts), delay)
  }

  lemma ShiftsTo(n: nat)
    requires 1 <= n <= 5
    ensures Shifted(n) == if n == 1 then 2 else if n == 2 then 4 else if n == 3 then 8 else if n == 4 then 16 else 32
  {
    assert Shifted(1) == 2 && Shifted(2) == 4 && Shifted(3) == 8 && Shifted(4) == 16 && Shifted(5) == 32;
  }

  /** How many more deaths the state still lets happen at once: three rapid ones, and one before a delay is felt. */
  function Slack(rs: RespawnState, delay: nat): nat {
    Min(rs.rapidCount, 3) + if rs.rapidCount > 3 && delay > 0 then 1 else 0
  }

  /** What holds between deaths. */
  predicate Steady(rs: RespawnState, delay: nat) {
    && rs.rapidCount <= 8
    && (rs.storm <==> delay == CEILING) && (rs.storm <==> rs.rapidCount == 8)
    && (delay == 0 || 2 <= delay <= CEILING)
    && (delay > 0 ==> rs.rapidCount > 3)
  }

  /**
   * A death that comes no sooner than its delay allows: the count stays below the last step of the ramp,
   * the delay at most at the ceiling, at the ceiling again, or gone when a minute has passed, and time has been
   * spent for it, one second less what the slack has grown.
   */
  lemma DeathDecided(was: RespawnState, delay: nat, now: nat)
    requires Steady(was, delay) && now >= was.lastTime + delay * SECOND
    ensures var (rs, d) := Decided(was, now);
      && Steady(rs, d) && rs.lastTime == now
      && (if now - was.lastTime > 60 * SECOND then d == 0 else delay == CEILING ==> d == CEILING)
      && now - was.lastTime >= (1 + Slack(was, delay) - Slack(rs, d)) * SECOND
  {
    var (rs, d) := Decided(was, now);
    var gap := now - was.lastTime;
    var before := Recovered(was, now);
    if gap < 2 * SECOND {
      assert delay == 0;
      assert before == was;
      if rs.rapidCount > 3 { ShiftsTo(Min(rs.rapidCount - 3, 5)); }
    }
  }

  /**
   * The delays of a child that dies within two seconds of its last death, over and over: none for three deaths, then
   * doubled up to the ceiling.
   */
  lemma DelayRamp(was: RespawnState, now: nat)
    requires !was.storm && was.lastTime <= now < was.lastTime + 2 * SECOND
    ensures var n := was.rapidCount + 1;
      Decided(was, now).0.rapidCount == n && Decided(was, now).0.lastTime == now &&
      Decided(was, now).1 == if n <= 3 then 0 else if n == 4 then 2 else if n == 5 then 4 else if n == 6 then 8
                             else if n == 7 then 16 else 30
  {
    var n := was.rapidCount + 1;
    if n > 3 { ShiftsTo(Min(n - 3, 5)); }
  }

  /** ... of one that takes longer: what it has, until a minute has passed, and then nothing. */
  lemma DelayRests(was: RespawnState, now: nat)
    requires now >= was.lastTime + 2 * SECOND
    ensures var (rs, delay) := Decided(was, now);
      if now - was.lastTime > 60 * SECOND then delay == 0 && rs.rapidCount == 0 && !rs.storm
      else delay == (if was.storm then 30 else 0) && rs.rapidCount == was.rapidCount && rs.storm == was.storm
  {
  }

  // ─── The history of one child ──────────────────────────────────────────────

  /** Each death came after its delay; the slack tells how much sooner than one second after the other they may come. */
  ghost predicate HistoryOk(h: seq<Death>) {
    && (forall k :: 0 <= k < |h| ==> h[k].slack <= 4 && h[k].delay <= CEILING)
    && (forall k :: 0 <= k < |h| - 1 ==>
          && h[k + 1].at >= h[k].at + h[k].delay * SECOND
          && h[k + 1].at - h[k].at >= (1 + h[k].slack - h[k + 1].slack) * SECOND
          && (if h[k + 1].at - h[k].at > 60 * SECOND then h[k + 1].delay == 0
              else h[k].delay == CEILING ==> h[k + 1].delay == CEILING))
  }

  lemma {:induction false} SpentUpTo(h: seq<Death>, i: nat, j: nat)
    requires HistoryOk(h) && i <= j < |h|
    ensures h[j].at - h[i].at >= (j - i + h[i].slack - h[j].slack) * SECOND
    decreases j
  {
    if i < j { SpentUpTo(h, i, j - 1); }
  }

  /** Any n deaths of one child in a row take at least n - 5 seconds. */
  lemma DeathsTakeTime(h: seq<Death>, i: nat, j: nat)
    requires HistoryOk(h) && i <= j < |h|
    ensures h[j].at - h[i].at >= (j - i + 1 - 5) * SECOND
  {
    SpentUpTo(h, i, j);
  }

  /** At the ceiling every delay is the ceiling, until a death comes over a minute after the one before. */
  lemma {:induction false} CeilingHolds(h: seq<Death>, i: nat, j: nat)
    requires HistoryOk(h) && i <= j < |h| && h[i].delay == CEILING
    requires forall k :: i <= k < j ==> h[k + 1].at - h[k].at <= 60 * SECOND
    ensures h[j].delay == CEILING
    decreases j
  {
    if i < j { CeilingHolds(h, i, j - 1); }
  }

  // ─── The master ────────────────────────────────────────────────────────────

  ghost predicate NamesOnce(children: seq<Child>, timers: seq<Timer>) {
    && (forall i, j :: 0 <= i < |children| && 0 <= j < |children| && children[i].name == children[j].name ==> i == j)
    && (forall i, j :: 0 <= i < |timers| && 0 <= j < |timers| && timers[i].name == timers[j].name ==> i == j)
    && (forall i, j :: 0 <= i < |children| && 0 <= j < |timers| ==> children[i].name != timers[j].name)
  }

  /** When the child of this name may be forked again at the earliest. */
  function ReadyAt(history: map<string, seq<Death>>, name: string): nat {
    if name in history && history[name] != [] then
      var last := history[name][|history[name]| - 1];
      last.at + last.delay * SECOND
    else 0
  }

  ghost predicate DelaysKept(children: seq<Child>, timers: seq<Timer>, history: map<string, seq<Death>>, now: nat) {
    && (forall i :: 0 <= i < |children| ==> ReadyAt(history, children[i].name) <= now)
    && (forall i :: 0 <= i < |timers| ==> ReadyAt(history, timers[i].name) <= timers[i].due)
  }

  ghost predicate StatesOk(state: map<string, RespawnState>, history: map<string, seq<Death>>) {
    && state.Keys == history.Keys
    && forall name :: name in state ==>
         var h := history[name];
         && h != [] && HistoryOk(h)
         && var last := h[|h| - 1];
            && state[name].lastTime == last.at && Steady(state[name], last.delay)
            && last.slack == Slack(state[name], last.delay)
  }

  class Master {
    var children: seq<Child>
    var respawnState: map<string, RespawnState>
    var timers: seq<Timer>
    var shuttingDown: bool
    var now: nat
    ghost var history: map<string, seq<Death>>

    constructor ()
      ensures Valid() && children == [] && timers == [] && history == map[]
    {
      children, respawnState, timers, shuttingDown, now, history := [], map[], [], false, 0, map[];
    }

    ghost predicate Valid()
      reads this
    {
      NamesOnce(children, timers) && DelaysKept(children, timers, history, now) && StatesOk(respawnState, history)
    }

    /**
     * What every run keeps for each child: its deaths take time, and its count and delay stay below their
     * last steps.
     */
    lemma Kept(name: string, i: nat, j: nat)
      requires Valid() && name in history && i <= j < |history[name]|
      ensures history[name][j].at - history[name][i].at >= (j - i + 1 - 5) * SECOND
      ensures history[name][j].delay <= CEILING && name in respawnState && respawnState[name].rapidCount <= 8
      ensures i < j && history[name][j].at - history[name][j - 1].at > 60 * SECOND ==> history[name][j].delay == 0
      ensures history[name][i].delay == CEILING && (forall k :: i <= k < j ==>
                                                      history[name][k + 1].at - history[name][k].at <= 60 * SECOND) ==>
        history[name][j].delay == CEILING
    {
      DeathsTakeTime(history[name], i, j);
      if i < j {
        ghost var k := j - 1;
        assert history[name][k + 1].at - history[name][k].at > 60 * SECOND ==> history[name][k + 1].delay == 0;
      }
      if history[name][i].delay == CEILING && (forall k :: i <= k < j ==>
                                                 history[name][k + 1].at - history[name][k].at <= 60 * SECOND) {
        CeilingHolds(history[name], i, j);
      }
    }

    /** A child of this name is running or about to be forked. */
    ghost predicate Cared(name: string)
      reads this
    {
      (exists c :: c in children && c.name == name) || (exists t :: t in timers && t.name == name)
    }

    method Wait(time: nat)
      requires Valid()
      modifies this`now
      ensures Valid() && now == old(now) + time
    {
      now := now + time;
    }

    method ForkChild(pid: Pid, name: string)
      requires Valid() && !Cared(name) && ReadyAt(history, name) <= now
      modifies this`children
      ensures Valid() && children == old(children) + [Child(pid, name, false)]
    {
      hide StatesOk, ReadyAt;
      children := children + [Child(pid, name, false)];
    }

    method Schedule(name: string, due: nat)
      requires Valid() && !Cared(name) && ReadyAt(history, name) <= due
      modifies this`timers
      ensures Valid() && timers == old(timers) + [Timer(due, name)]
    {
      hide StatesOk, ReadyAt;
      timers := timers + [Timer(due, name)];
    }

    method Find(pid: Pid) returns (i: nat)
      ensures i <= |children| && (i < |children| ==> children[i].pid == pid)
      ensures forall k :: 0 <= k < i ==> children[k].pid != pid
    {
      i := 0;
      while i < |children| && children[i].pid != pid
        invariant i <= |children| && forall k :: 0 <= k < i ==> children[k].pid != pid
      {
        i := i + 1;
      }
    }

    /** Forked at once, or by a timer that is due so many seconds from now. */
    ghost predicate Again(name: string, newPid: Pid, delay: nat, living: seq<Child>, waiting: seq<Timer>)
      reads `children, `timers, `now
    {
      if delay == 0 then children == living + [Child(newPid, name, false)] && timers == waiting
      else children == living && timers == waiting + [Timer(now + delay * SECOND, name)]
    }

    /** Forked again at once, or after the delay. */
    method RespawnChild(name: string, newPid: Pid)
      requires Valid() && !Cared(name) && ReadyAt(history, name) <= now
      modifies this`children, this`timers, this`respawnState, this`history
      ensures Valid() && Cared(name) && name in history && history[name] != []
      ensures history[name][|history[name]| - 1].at == now
      ensures Again(name, newPid, history[name][|history[name]| - 1].delay, old(children), old(timers))
      ensures forall n :: Told(n) ==> old(Told(n))
      ensures respawnState.Keys == old(respawnState).Keys + {name}
      ensures forall n :: n in old(respawnState) && n != name ==> respawnState[n] == old(respawnState)[n]
      ensures forall n :: n in old(history) ==> n in history && old(history)[n] <= history[n]
    {
      hide StatesOk, Decided, Slack, ReadyAt, NamesOnce, DelaysKept;
      var delay := Decide(name);
      OthersReady(children, timers, old(history), name, history[name], now);
      if delay > 0 {
        Schedule(name, now + delay * SECOND);
        assert timers[|timers| - 1] in timers && timers[|timers| - 1].name == name;
      } else {
        ForkChild(newPid, name);
        assert children[|children| - 1] in children && children[|children| - 1].name == name;
      }
    }

    /** A child with this name has been told to go. */
    ghost predicate Told(name: string)
      reads this
    {
      exists c :: c in children && c.name == name && c.shuttingDown
    }

    /** Of those living the i-th is gone; told to go, for good, and otherwise it is begun again, perhaps later. */
    ghost predicate Reaped(living: seq<Child>, waiting: seq<Timer>, i: nat, pid: Pid, newPid: Pid)
      requires i < |living|
      reads this
    {
      var child, rest := living[i], living[..i] + living[i + 1..];
      && child.pid == pid
      && if child.shuttingDown || shuttingDown then children == rest && timers == waiting
         else
           && child.name in history && history[child.name] != []
           && history[child.name][|history[child.name]| - 1].at == now
           && Again(child.name, newPid, history[child.name][|history[child.name]| - 1].delay, rest, waiting)
    }

    /**
     * One dead child: dropped from the list and, unless it was told to go or the master shuts down, forked again or
     * scheduled after its delay; other names are not touched.
     */
    method ReapOne(pid: Pid, newPid: Pid) returns (ghost name: Option<string>, ghost i: nat)
      requires Valid()
      modifies this`children, this`timers, this`respawnState, this`history
      ensures Valid() && old(timers) <= timers
      ensures name == None ==> children == old(children) && timers == old(timers) && respawnState == old(respawnState)
      ensures forall n :: Told(n) ==> old(Told(n))
      ensures name == None <==> forall k :: 0 <= k < |old(children)| ==> old(children)[k].pid != pid
      ensures name == if i < |old(children)| then Some(old(children)[i].name) else None
      ensures i < |old(children)| ==> Reaped(old(children), old(timers), i, pid, newPid)
      ensures i < |old(children)| && (old(children)[i].shuttingDown || shuttingDown) ==>
        respawnState == old(respawnState) && history == old(history)
      ensures name.Some? && !shuttingDown && !old(Told(name.value)) ==> Cared(name.value)
      ensures forall n :: old(Cared(n)) && name != Some(n) ==> Cared(n)
      ensures forall n :: n in old(respawnState) && name != Some(n) ==>
        n in respawnState && respawnState[n] == old(respawnState)[n]
      ensures forall n :: n in old(history) ==> n in history && old(history)[n] <= history[n]
    {
      hide StatesOk, ReadyAt;
      name := None;
      var at := Find(pid);
      i := at;
      if at == |children| { return; }
      var child := children[at];
      name := Some(child.name);
      Removed(children, timers, history, now, at);
      children := children[..at] + children[at + 1..];
      if child.shuttingDown || shuttingDown { return; }
      RespawnChild(child.name, newPid);
    }

    /** waitpid() until nothing more has died: nobody is forgotten. */
    method ReapChildren(dead: seq<(Pid, Pid)>)
      requires Valid()
      modifies this`children, this`timers, this`respawnState, this`history
      ensures Valid()
      ensures !shuttingDown && (forall n :: !old(Told(n))) ==>
        forall n :: old(Cared(n)) ==> Cared(n)
      ensures forall n :: n in old(history) ==> n in history && old(history)[n] <= history[n]
    {
      ghost var calm := !shuttingDown && forall n :: !Told(n);
      for j := 0 to |dead|
        invariant Valid()
        invariant calm ==> forall n :: !Told(n)
        invariant calm ==> forall n :: old(Cared(n)) ==> Cared(n)
        invariant forall n :: n in old(history) ==> n in history && old(history)[n] <= history[n]
      {
        ghost var name, i := ReapOne(dead[j].0, dead[j].1);
      }
    }

    /** A delayed respawn comes due; a master that has begun to shut down lets it go. */
    method FireTimer(i: nat, newPid: Pid)
      requires Valid() && i < |timers| && timers[i].due <= now
      modifies this`children, this`timers
      ensures Valid() && timers == old(timers)[..i] + old(timers)[i + 1..]
      ensures children == if shuttingDown then old(children)
              else old(children) + [Child(newPid, old(timers)[i].name, false)]
    {
      hide StatesOk, ReadyAt;
      var name := timers[i].name;
      timers := timers[..i] + timers[i + 1..];
      if shuttingDown { return; }
      ForkChild(newPid, name);
    }

    /** The rate limit for one death of a child that is to be respawned; the state of other names is not touched. */
    method Decide(name: string) returns (delay: nat)
      requires StatesOk(respawnState, history) && ReadyAt(history, name) <= now
      modifies this`respawnState, this`history
      ensures StatesOk(respawnState, history)
      ensures var was := if name in old(respawnState) then old(respawnState)[name] else UNSEEN;
        delay == Decided(was, now).1 && respawnState == old(respawnState)[name := Decided(was, now).0]
      ensures name in history && history == old(history)[name := history[name]]
      ensures history[name] == (if name in old(history) then old(history)[name] else [])
                               + [Death(now, delay, Slack(respawnState[name], delay))]
      ensures ReadyAt(history, name) == now + delay * SECOND
    {
      hide StatesOk, ReadyAt, Slack, Shifted;
      ghost var was := if name in respawnState then respawnState[name] else UNSEEN;
      ghost var h := if name in history then history[name] else [];
      StateFits(respawnState, history, name, now);
      HistoryGrows(respawnState, history, name, now);
      // operator[]: a name not seen yet starts with the default state
      var rs := if name in respawnState then respawnState[name] else UNSEEN;
      if now - rs.lastTime > 60 * SECOND {
        rs := rs.(rapidCount := 0, storm := false, stormAttempts := 0, lastStormLog := 0);
      }
      delay := 0;
      if now - rs.lastTime < 2 * SECOND {
        rs := rs.(rapidCount := rs.rapidCount + 1);
        if rs.rapidCount > 3 { delay := Min(Shifted(Min(rs.rapidCount - 3, 5)), CEILING); }
      }
      rs := rs.(lastTime := now);
      if delay >= CEILING {
        rs := rs.(storm := true);
      } else if rs.storm {
        delay := CEILING;
      }
      if rs.storm {
        rs := rs.(stormAttempts := rs.stormAttempts + 1);
        if rs.lastStormLog == 0 || now - rs.lastStormLog >= STORM_LOG_INTERVAL { rs := rs.(lastStormLog := now); }
      }
      assert rs == Decided(was, now).0 && delay == Decided(was, now).1;
      hide Decided;
      ReadyAfter(history, name, h, Death(now, delay, Slack(rs, delay)));
      respawnState := respawnState[name := rs];
      history := history[name := h + [Death(now, delay, Slack(rs, delay))]];
    }
  }

  lemma Removed(children: seq<Child>, timers: seq<Timer>, history: map<string, seq<Death>>, now: nat, i: nat)
    requires NamesOnce(children, timers) && DelaysKept(children, timers, history, now) && i < |children|
    ensures var rest := children[..i] + children[i + 1..];
      && NamesOnce(rest, timers) && DelaysKept(rest, timers, history, now)
      && (forall k :: 0 <= k < |rest| ==> rest[k] in children && rest[k].name != children[i].name)
      && (forall k :: 0 <= k < |timers| ==> timers[k].name != children[i].name)
      && (forall c :: c in children && c != children[i] ==> c in rest)
  {
  }

  /** A death of one name leaves the delays of the others as they are. */
  lemma OthersReady(children: seq<Child>, timers: seq<Timer>, history: map<string, seq<Death>>, name: string,
                    h: seq<Death>, now: nat)
    requires DelaysKept(children, timers, history, now)
    requires forall k :: 0 <= k < |children| ==> children[k].name != name
    requires forall k :: 0 <= k < |timers| ==> timers[k].name != name
    ensures DelaysKept(children, timers, history[name := h], now)
  {
  }

  lemma ReadyAfter(history: map<string, seq<Death>>, name: string, h: seq<Death>, d: Death)
    ensures ReadyAt(history[name := h + [d]], name) == d.at + d.delay * SECOND
  {
  }

  lemma StateFits(state: map<string, RespawnState>, history: map<string, seq<Death>>, name: string, now: nat)
    requires StatesOk(state, history) && ReadyAt(history, name) <= now
    ensures var was := if name in state then state[name] else UNSEEN;
      now >= was.lastTime
  {
  }

  lemma HistoryGrows(state: map<string, RespawnState>, history: map<string, seq<Death>>, name: string, now: nat)
    requires StatesOk(state, history) && ReadyAt(history, name) <= now
    ensures var was := if name in state then state[name] else UNSEEN;
      var (rs, delay) := Decided(was, now);
      var h := if name in history then history[name] else [];
      StatesOk(state[name := rs], history[name := h + [Death(now, delay, Slack(rs, delay))]])
  {
    hide Decided, Recovered, Slack, HistoryOk, Steady;
    var was := if name in state then state[name] else UNSEEN;
    var h := if name in history then history[name] else [];
    DeathDecided(was, if h == [] then 0 else h[|h| - 1].delay, now);
    SlackSmall(Decided(was, now).0, Decided(was, now).1);
    var (rs, delay) := Decided(was, now);
    OneMoreDeath(h, Death(now, delay, Slack(rs, delay)));
    assert (h + [Death(now, delay, Slack(rs, delay))])[|h|] == Death(now, delay, Slack(rs, delay));
  }

  lemma SlackSmall(rs: RespawnState, delay: nat)
    requires Steady(rs, delay)
    ensures Slack(rs, delay) <= 4 && delay <= CEILING
  {
  }

  lemma OneMoreDeath(h: seq<Death>, d: Death)
    requires HistoryOk(h) && d.slack <= 4 && d.delay <= CEILING
    requires h != [] ==>
      var last := h[|h| - 1];
      && d.at >= last.at + last.delay * SECOND
      && d.at - last.at >= (1 + last.slack - d.slack) * SECOND
      && (if d.at - last.at > 60 * SECOND then d.delay == 0 else last.delay == CEILING ==> d.delay == CEILING)
    ensures HistoryOk(h + [d])
  {
    var more := h + [d];
    forall k | 0 <= k < |more| - 1
      ensures more[k + 1].at >= more[k].at + more[k].delay * SECOND
      ensures more[k + 1].at - more[k].at >= (1 + more[k].slack - more[k + 1].slack) * SECOND
      ensures if more[k + 1].at - more[k].at > 60 * SECOND then more[k + 1].delay == 0
              else more[k].delay == CEILING ==> more[k + 1].delay == CEILING
    {
      assert more[k] == h[k];
      if k + 1 < |h| { assert more[k + 1] == h[k + 1]; }
    }
  }
}

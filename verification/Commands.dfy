/**
 The commands as the programs they are: a container object whose fields they update, the branches
 and the probe loop, run against a machine on which other processes move before every system call.
 Every command is shown to make exactly the moves of its process in the step system, so all that
 holds of the runs of that system holds of these programs.
 */
module Commands {
  import opened Common
  import opened Lifecycle
  import opened LifecycleInvariant
  import opened LifecycleTheorems
  import opened LifecycleStatus
  import opened LifecycleTeardown
  import opened LifecycleAnswers
  import opened LifecycleEffects

  lemma ProcOkAfter(conf: Config, ls: seq<Label>, p: ProcId)
    requires IsRun(conf, ls) && p in After(conf, ls).procs
    ensures ProcOk(After(conf, ls).k, After(conf, ls).procs[p])
  {
    RunInv(conf, ls);
  }

  datatype Self = Command(p: ProcId) | TheCreator | TheInit {
    /** The steps of the process itself. */
    predicate Mine(l: Label) {
      match this
      case Command(p) => (l.Act? || l.Crash?) && l.p == p
      case TheCreator => l.Create? || l.CrashCreator?
      case TheInit => l.InitAct?
    }

    /** The world after the first `n` steps of the others; steps that are not theirs or not enabled are skipped. */
    function Played(w: World, batch: seq<Label>, n: nat): World
      requires n <= |batch|
    {
      if n == 0 then w
      else
        var u := Played(w, batch, n - 1);
        var v := Step(u, batch[n - 1]);
        if !Mine(batch[n - 1]) && v.Some? then v.value else u
    }

    /** The world in which the process makes its next call. */
    function Turn(w: World, schedule: seq<seq<Label>>): World {
      if schedule == [] then w else Played(w, schedule[0], |schedule[0]|)
    }
  }

  /** What is left of a schedule, or of the verdicts, after one call. */
  function Rest<T>(s: seq<T>): seq<T> {
    if s == [] then [] else s[1..]
  }

  /** Whether the next fallible call succeeds; once the verdicts have run out, all do. */
  predicate Granted(verdicts: seq<bool>) {
    verdicts == [] || verdicts[0]
  }

  /**
   The machine one process runs on.  `schedule` says what the others do before each of its system
   calls, and `verdicts` which of its own fallible calls succeed; both are arbitrary.
   */
  class Machine {
    const self: Self
    ghost const conf: Config
    var world: World
    var schedule: seq<seq<Label>>
    var verdicts: seq<bool>
    ghost var run: seq<Label>

    /** The world is what a run of the step system has led to. */
    ghost predicate Valid()
      reads this
    {
      && Exec(Fresh(conf), run) == Some(world)
      && (self.Command? ==> self.p in world.procs)
    }

    /** The others have nothing more to do, and the process cannot go on. */
    ghost predicate Blocked()
      reads this
    {
      schedule == [] &&
      match self
      case Command(p) => p in world.procs && ProcStep(world.k, p, world.procs[p], true).None?
      case TheCreator => false
      case TheInit => world.k.init.Alive? && Step(world, InitAct(true)).None?
    }

    /** Nobody else moves any more and nothing fails. */
    ghost predicate Quiet()
      reads this
    {
      schedule == [] && verdicts == []
    }

    /** The process as it stands, for a command. */
    function Me(): Proc
      requires self.Command? && self.p in world.procs
      reads this
    {
      world.procs[self.p]
    }

    constructor (self: Self, conf: Config, world: World, ghost run: seq<Label>,
                 schedule: seq<seq<Label>>, verdicts: seq<bool>)
      requires Exec(Fresh(conf), run) == Some(world) && (self.Command? ==> self.p in world.procs)
      ensures Valid() && this.world == world && this.run == run && this.self == self && this.conf == conf
    {
      this.self, this.conf := self, conf;
      this.world, this.run, this.schedule, this.verdicts := world, run, schedule, verdicts;
    }

    /** What the other processes do next. */
    method Others()
      requires Valid()
      modifies this
      ensures Valid() && verdicts == old(verdicts) && old(run) <= run
      ensures schedule == Rest(old(schedule)) && world == self.Turn(old(world), old(schedule))
      ensures self.Command? ==> Me() == old(Me())
      ensures self.TheCreator? ==> world.creator == old(world.creator)
      ensures self.TheInit? ==> InitSpared(old(world.k), world.k)
    {
      if schedule == [] { return; }
      var batch := schedule[0];
      for i := 0 to |batch|
        invariant Valid() && verdicts == old(verdicts) && old(run) <= run && schedule == old(schedule)
        invariant world == self.Played(old(world), batch, i)
        invariant self.Command? ==> Me() == old(Me())
        invariant self.TheCreator? ==> world.creator == old(world.creator)
        invariant self.TheInit? ==> InitSpared(old(world.k), world.k)
      {
        var v := Step(world, batch[i]);
        if !self.Mine(batch[i]) && v.Some? {
          if self.TheInit? { OthersSpareInit(conf, run, batch[i]); }
          Follow(batch[i], v.value);
        }
      }
      schedule := schedule[1..];
    }

    /** The machine makes one step of the step system. */
    method Follow(l: Label, v: World)
      requires Valid() && Step(world, l) == Some(v)
      modifies this`world, this`run
      ensures Valid() && world == v && run == old(run) + [l]
    {
      ghost var w := world;
      assert Exec(w, [l]) == Exec(v, []);
      ExecAppend(Fresh(conf), run, [l]);
      world := v;
      run := run + [l];
    }

    /** Does our next fallible call succeed? */
    method Verdict() returns (ok: bool)
      modifies this`verdicts
      ensures ok == Granted(old(verdicts)) && verdicts == Rest(old(verdicts))
    {
      ok := verdicts == [] || verdicts[0];
      verdicts := if verdicts == [] then [] else verdicts[1..];
    }

    /** One system call of a command; `seen` is the world it was made in. */
    method Sys() returns (ok: bool, seen: World)
      requires Valid() && self.Command? && NonBlocking(Me().pc)
      modifies this
      ensures Valid() && old(run) <= run
      ensures schedule == Rest(old(schedule)) && verdicts == Rest(old(verdicts))
      ensures ok == Granted(old(verdicts)) && seen == self.Turn(old(world), old(schedule))
      ensures self.p in seen.procs && seen.procs[self.p] == old(Me())
      ensures ProcStep(seen.k, self.p, old(Me()), ok) == Some(Move(world.k, Me()))
      ensures ProcOk(world.k, Me())
      ensures run != [] && run[|run| - 1] == Act(self.p, ok)
    {
      Others();
      ok := Verdict();
      seen := world;
      Follow(Act(self.p, ok), Step(world, Act(self.p, ok)).value);
      ProcOkAfter(conf, run, self.p);
    }

    /** One system call of `create`; `pid` is what a spawn would yield. */
    method Make(pid: nat) returns (ok: bool, seen: Kernel)
      requires Valid() && self.TheCreator? && !CreatorEnded(world.creator)
      modifies this
      ensures Valid() && old(run) <= run
      ensures schedule == Rest(old(schedule)) && verdicts == Rest(old(verdicts))
      ensures ok == Granted(old(verdicts)) && seen == self.Turn(old(world), old(schedule)).k
      ensures CreatorStep(conf, seen, old(world.creator), ok, pid) == Some(CreatorMove(world.k, world.creator))
      ensures CreatorOk(conf, seen, old(world.creator)) && CreatorOk(conf, world.k, world.creator)
    {
      Others();
      ok := Verdict();
      seen := world.k;
      CreatorMoves(conf, run, ok, pid);
      CreatorOkAfter(conf, run);
      Follow(Create(ok, pid), Step(world, Create(ok, pid)).value);
      CreatorOkAfter(conf, run);
    }

    /** One system call of init, unless init is killed before it; `seen` is the kernel it was made in. */
    method Call() returns (alive: bool, ok: bool, seen: Kernel)
      requires Valid() && self.TheInit? && world.k.init.Alive? && InitMoves(world.k.init.pc)
      modifies this
      ensures Valid() && old(run) <= run && schedule == Rest(old(schedule))
      ensures seen == self.Turn(old(world), old(schedule)).k && alive == seen.init.Alive?
      ensures alive ==> ok == Granted(old(verdicts)) && verdicts == Rest(old(verdicts))
      ensures !alive ==> Dead(world.k.init) && world.k.log == old(world.k.log)
      ensures alive ==> seen.init == old(world.k.init) && seen.log == old(world.k.log)
      ensures alive ==> InitStep(conf, seen, ok) == Some(world.k)
      ensures world.k.log <= Program(conf)
      ensures !alive ==> world.k == seen
    {
      Others();
      ok, seen, alive := true, world.k, world.k.init.Alive?;
      if alive {
        ok := Verdict();
        ConfFixed(Fresh(conf), run);
        Follow(InitAct(ok), Step(world, InitAct(ok)).value);
      }
      LogIsPrefix(conf, run);
    }

    /** init's wait for a reader: it goes on, is killed, or waits for ever. */
    method AwaitReader() returns (alive: Option<bool>)
      requires Valid() && self.TheInit? && world.k.init.Alive? && world.k.init.pc.InFifoOpen?
      modifies this
      ensures Valid() && old(run) <= run && world.k.log == old(world.k.log)
      ensures verdicts == old(verdicts) && |schedule| <= old(|schedule|)
      ensures old(schedule) == [] ==> world.k.fifo == old(world.k.fifo) && alive != Some(false)
      ensures old(schedule) == [] ==> (alive.None? <==> old(world.k.fifo.rcount == world.k.init.pc.seen))
      ensures match alive
              case None => world.k.init == old(world.k.init) && Blocked()
              case Some(false) => Dead(world.k.init)
              case Some(true) => world.k.init == Alive(AtWrite)
    {
      Others();
      while schedule != [] && world.k.init.Alive? && Step(world, InitAct(true)).None?
        invariant Valid() && old(run) <= run && InitSpared(old(world.k), world.k)
        invariant verdicts == old(verdicts) && |schedule| <= old(|schedule|)
        invariant old(schedule) == [] ==> world == old(world)
        decreases |schedule|
      {
        Others();
      }
      if !world.k.init.Alive? { return Some(false); }
      if Step(world, InitAct(true)).None? { return None; }
      ConfFixed(Fresh(conf), run);
      Follow(InitAct(true), Step(world, InitAct(true)).value);
      return Some(true);
    }

    /** A call that blocks until the others have done something; it may never return. */
    method Await() returns (returned: bool, ok: bool, seen: World)
      requires Valid() && self.Command? && (Me().pc.Opening? || Me().pc.Reading?)
      modifies this
      ensures Valid() && old(run) <= run && |schedule| <= old(|schedule|)
      ensures !returned ==> Blocked() && Me() == old(Me())
      ensures returned ==> ProcStep(seen.k, self.p, old(Me()), ok) == Some(Move(world.k, Me()))
      ensures ProcOk(world.k, Me())
    {
      returned, seen := false, world;
      Others();
      ok := Verdict();
      while schedule != [] && ProcStep(world.k, self.p, Me(), ok).None?
        invariant Valid() && old(run) <= run && |schedule| <= old(|schedule|) && Me() == old(Me())
        decreases |schedule|
      {
        Others();
      }
      if ProcStep(world.k, self.p, Me(), ok).Some? {
        returned, seen := true, world;
        Follow(Act(self.p, ok), Step(world, Act(self.p, ok)).value);
      }
      ProcOkAfter(conf, run, self.p);
    }
  }

  predicate SameInit(k: Kernel, v: Kernel) {
    v.init == k.init && v.initPid == k.initPid
  }

  /** Where init is not blocked. */
  predicate InitMoves(pc: InitPc) {
    !pc.InFifoOpen? && !pc.InPause? && !pc.InUser?
  }

  /** A born init has not moved, but may have died. */
  predicate InitSpared(k: Kernel, v: Kernel) {
    k.init.Alive? || Dead(k.init) ==> (v.init == k.init || Dead(v.init)) && v.log == k.log
  }

  /** What init has called is a beginning of its program. */
  lemma LogIsPrefix(conf: Config, ls: seq<Label>)
    requires IsRun(conf, ls)
    ensures After(conf, ls).k.log <= Program(conf)
  {
    RunInv(conf, ls);
    ConfFixed(Fresh(conf), ls);
  }

  lemma ExecSparesInit(k: Kernel, p: ProcId, me: Proc, ok: bool)
    requires InExec(me.pc) && ExecStep(k, p, me, ok).Some?
    ensures InitSpared(k, ExecStep(k, p, me, ok).value.k)
  {
  }

  lemma CommandSparesInit(k: Kernel, p: ProcId, me: Proc, ok: bool)
    requires ProcStep(k, p, me, ok).Some?
    ensures InitSpared(k, ProcStep(k, p, me, ok).value.k)
  {
    if InExec(me.pc) { ExecSparesInit(k, p, me, ok); }
  }

  lemma CreatorSparesInit(conf: Config, k: Kernel, c: Creator, ok: bool, pid: nat)
    requires CreatorOk(conf, k, c) && CreatorStep(conf, k, c, ok, pid).Some?
    ensures InitSpared(k, CreatorStep(conf, k, c, ok, pid).value.k)
  {
  }

  /** No other process moves init; the most they do is kill and reap it. */
  lemma OthersSpareInit(conf: Config, ls: seq<Label>, l: Label)
    requires IsRun(conf, ls) && Step(After(conf, ls), l).Some? && !l.InitAct?
    ensures InitSpared(After(conf, ls).k, Step(After(conf, ls), l).value.k)
  {
    var w := After(conf, ls);
    match l
    case Act(p, ok) => CommandSparesInit(w.k, p, w.procs[p], ok);
    case Create(ok, pid) =>
      RunInv(conf, ls);
      CreatorSparesInit(w.conf, w.k, w.creator, ok, pid);
    case _ =>
  }

  /** Everything but the wait for init, which is only reached with init killed, returns at once. */
  lemma CreatorMoves(conf: Config, ls: seq<Label>, ok: bool, pid: nat)
    requires IsRun(conf, ls) && !CreatorEnded(After(conf, ls).creator)
    ensures CreatorStep(After(conf, ls).conf, After(conf, ls).k, After(conf, ls).creator, ok, pid).Some?
    ensures After(conf, ls).conf == conf
  {
    RunInv(conf, ls);
    ConfFixed(Fresh(conf), ls);
  }

  lemma CreatorOkAfter(conf: Config, ls: seq<Label>)
    requires IsRun(conf, ls)
    ensures CreatorOk(conf, After(conf, ls).k, After(conf, ls).creator)
  {
    RunInv(conf, ls);
    ConfFixed(Fresh(conf), ls);
  }

  lemma GoneStays(conf: Config, a: seq<Label>, b: seq<Label>)
    requires IsRun(conf, a) && IsRun(conf, b) && a <= b && After(conf, a).k.init.Gone?
    ensures After(conf, b).k.init.Gone?
  {
    RunInv(conf, a);
    RunPrefix(conf, b, |a|);
    assert b[..|a|] == a;
    RunKeepsGone(After(conf, a), b[|a|..]);
  }

  /**
   A start has left its mark: the byte was read, the FIFO is gone, and state.json, if it is there, says
   Running, or Stopped once init has gone.
   */
  predicate IsStarted(k: Kernel) {
    && !k.fifo.linked && k.fifo.consumed == 1
    && (k.file.Some? ==> k.file.value.status == Running || k.file.value.status == Stopped)
  }

  lemma StartIsMarked(conf: Config, ls: seq<Label>, p: ProcId)
    requires IsRun(conf, ls) && p in After(conf, ls).procs && After(conf, ls).procs[p].pc == Done(Started)
    ensures IsStarted(After(conf, ls).k)
  {
    CommandsTakeEffect(conf, ls, p);
    ProcOkAfter(conf, ls, p);
  }

  predicate NonBlocking(pc: Pc) {
    !pc.Opening? && !pc.Reading? && !pc.Done? && !pc.Crashed?
  }

  /** The destroy handlers called when this one fails, or all of them when none does. */
  function DestroyedUpTo(failed: Option<Handler>): seq<Handler> {
    match failed
    case Some(ExecH) => [ExecH]
    case Some(FsH) => [ExecH, FsH]
    case _ => [ExecH, FsH, NetH]
  }

  /** The container object of one command process. */
  class NablaContainer {
    const os: Machine
    var state: Snapshot

    ghost predicate Valid()
      reads this, os
    {
      os.Valid() && os.self.Command? && state == os.Me().mem
    }

    /** `Load`: the container of a state.json. */
    constructor (os: Machine)
      requires os.Valid() && os.self.Command? && os.Me().pc == Probe(0)
      ensures Valid() && this.os == os
    {
      this.os := os;
      this.state := os.world.procs[os.self.p].mem;
    }

    /** `currentState`: probe the pid, and record Stopped when nobody answers. */
    method CurrentStatus(nth: nat) returns (s: Status)
      requires Valid() && os.Me().pc == Probe(nth)
      modifies this, os
      ensures Valid() && s == state.status && old(os.run) <= os.run
      ensures os.Me() == old(os.Me()).(pc := AfterProbe(old(os.Me().kind), nth, s), mem := state)
      ensures state == old(state) || state == old(state).(status := Stopped)
      ensures old(os.schedule) == [] ==> os.schedule == [] && SameInit(old(os.world.k), os.world.k)
      ensures old(os.schedule) == [] ==> s == if PidLive(old(os.world.k), old(state.pid)) then old(state.status) else Stopped
    {
      var _, seen := os.Sys();
      if !PidLive(seen.k, state.pid) {
        state := state.(status := Stopped);
        var _, _ := os.Sys();
      }
      s := state.status;
    }

    /** Open the FIFO for reading; `None` while no writer comes. */
    method OpenFifo() returns (ok: Option<bool>)
      requires Valid() && os.Me().pc == Arrive
      modifies os
      ensures Valid() && old(os.run) <= os.run
      ensures ok == Some(true) ==> os.Me() == old(os.Me()).(pc := Reading(0))
      ensures ok == Some(false) ==> os.Me() == old(os.Me()).(pc := Done(OpenFailed))
      ensures ok.None? ==> os.Me().pc.Opening? && os.Blocked()
    {
      var fine, seen := os.Sys();
      if !fine || !seen.k.fifo.linked { return Some(false); }
      if os.world.procs[os.self.p].pc.Opening? {
        var came, _, _ := os.Await();
        if !came { return None; }
      }
      return Some(true);
    }

    /** Read the FIFO until its end: how many bytes, or a failure, or nothing while blocked. */
    method ReadAll() returns (data: Option<Result<nat, ()>>)
      requires Valid() && os.Me().pc == Reading(0)
      modifies os
      ensures data.None? ==> Valid() && os.Me().pc.Reading? && os.Blocked()
      ensures data.Some? && data.value.Err? ==> Valid() && os.Me() == old(os.Me()).(pc := Close(ReadFailed))
      ensures data == Some(Ok(0)) ==> Valid() && os.Me() == old(os.Me()).(pc := Close(AlreadyRunning))
      ensures data.Some? && data.value.Ok? && data.value.value > 0 ==>
                os.Valid() && os.Me() == old(os.Me()).(pc := SaveRunning, mem := state.(status := Running))
      ensures old(os.run) <= os.run
    {
      var got := 0;
      while true
        invariant Valid() && old(os.run) <= os.run && got <= 1
        invariant os.Me() == old(os.Me()).(pc := Reading(got))
        decreases 1 - got
      {
        var returned, ok, seen := os.Await();
        if !returned { return None; }
        if !ok { return Some(Err(())); }
        if seen.k.fifo.buffer == 0 { return Some(Ok(got)); }
        got := got + seen.k.fifo.buffer;
      }
    }

    /** Save Running, remove the FIFO and close it. */
    method RecordRunning()
      requires Valid() && os.Me().pc == SaveRunning
      modifies os
      ensures Valid() && old(os.run) <= os.run && os.Me() == old(os.Me()).(pc := Done(Started))
      ensures IsStarted(os.world.k)
    {
      var _, _ := os.Sys();
      var _, _ := os.Sys();
      var _ := CloseFifo();
      StartIsMarked(os.conf, os.run, os.self.p);
    }

    /** `exec`: read the FIFO to its end; a byte there makes the container Running. */
    method Exec() returns (o: Option<Outcome>)
      requires Valid() && os.Me().pc == Arrive
      modifies this, os
      ensures Valid() && old(os.run) <= os.run
      ensures o.Some? ==> os.Me().pc == Done(o.value) && o.value in {Started, AlreadyRunning, OpenFailed, ReadFailed}
      ensures o.None? ==> (os.Me().pc.Opening? || os.Me().pc.Reading?) && os.Blocked()
      ensures state == if o == Some(Started) then old(state).(status := Running) else old(state)
      ensures o == Some(Started) ==> IsStarted(os.world.k)
    {
      var open := OpenFifo();
      if open.None? { return None; }
      if !open.value { return Some(OpenFailed); }
      var data := ReadAll();
      if data.None? { return None; }
      if data.value.Ok? && data.value.value > 0 {
        state := state.(status := Running);
        RecordRunning();
        return Some(Started);
      }
      var end := CloseFifo();
      return Some(end);
    }

    /** The deferred close of the FIFO on the ways that did not find a byte. */
    method CloseFifo() returns (end: Outcome)
      requires Valid() && os.Me().pc.Close?
      modifies os
      ensures Valid() && old(os.run) <= os.run && os.Me() == old(os.Me()).(pc := Done(end))
      ensures end == old(os.Me().pc.ends)
    {
      end := os.Me().pc.ends;
      var _, _ := os.Sys();
    }

    /** One of the probes after the kill. */
    method InitGone(i: nat) returns (gone: bool)
      requires Valid() && os.Me().pc == KillProbe(i) && i < MAX_PROBES && os.Me().teardown == []
      modifies os
      ensures Valid() && old(os.run) <= os.run && os.Me().teardown == []
      ensures os.Me().pc == if gone then TearExec else KillProbe(i + 1)
    {
      var _, seen := os.Sys();
      return !PidLive(seen.k, state.pid);
    }

    /** `destroy`: Exec, Fs and Network in this order; the handler that fails is the last one called. */
    method Destroy() returns (failed: Option<Handler>)
      requires Valid() && os.Me().pc == TearExec && os.Me().teardown == []
      modifies this, os
      ensures Valid() && old(os.run) <= os.run && state == Snapshot(0, Stopped)
      ensures os.Me().pc == Done(Deleted) && os.world.k.init == Gone
      ensures failed in {None, Some(FsH), Some(NetH)} && os.Me().teardown == DestroyedUpTo(failed)
      ensures os.run != [] && os.run[|os.run| - 1] == Act(os.self.p, failed.None?)
    {
      state := Snapshot(0, Stopped);
      var removed := DestroyFs();
      if !removed { return Some(FsH); }
      var deleted, _ := os.Sys();
      return if deleted then None else Some(NetH);
    }

    /** The first two of the destroy handlers. */
    method DestroyFs() returns (removed: bool)
      requires os.Valid() && os.self.Command? && os.Me().pc == TearExec && os.Me().teardown == []
      modifies os
      ensures os.Valid() && old(os.run) <= os.run
      ensures os.Me().mem == Snapshot(0, Stopped) && os.Me().teardown == [ExecH, FsH] && os.world.k.init == Gone
      ensures os.Me().pc == if removed then TearNet else Done(Deleted)
      ensures os.run != [] && os.run[|os.run| - 1] == Act(os.self.p, removed)
    {
      var seen;
      removed, seen := os.Sys();
      removed, seen := os.Sys();
    }
  }

  /** `killContainer`: kill init, then probe until it is gone and destroy, or give up. */
  method KillContainer(c: NablaContainer) returns (o: Outcome, probes: nat)
    requires c.Valid() && c.os.Me().pc == Kill && c.os.Me().teardown == []
    modifies c, c.os
    ensures c.Valid() && old(c.os.run) <= c.os.run
    ensures c.os.Me().pc == Done(o)
    ensures o == Deleted || o == StillRunning
    ensures probes <= MAX_PROBES && (o == StillRunning ==> probes == MAX_PROBES)
    ensures o == Deleted ==> c.os.world.k.init == Gone && [ExecH, FsH] <= c.os.Me().teardown <= [ExecH, FsH, NetH]
    ensures o == StillRunning ==> c.os.Me().teardown == [] && c.state == old(c.state)
  {
    var _, _ := c.os.Sys();
    var gone;
    gone, probes := AwaitGone(c);
    if gone {
      var _ := c.Destroy();
      return Deleted, probes;
    }
    return StillRunning, probes;
  }

  /** The probe loop of `killContainer`, which ends at the first probe that fails. */
  method AwaitGone(c: NablaContainer) returns (gone: bool, probes: nat)
    requires c.Valid() && c.os.Me().pc == KillProbe(0) && c.os.Me().teardown == []
    modifies c.os
    ensures c.Valid() && old(c.os.run) <= c.os.run && c.os.Me().teardown == []
    ensures c.os.Me().pc == if gone then TearExec else Done(StillRunning)
    ensures probes <= MAX_PROBES && (!gone ==> probes == MAX_PROBES)
  {
    probes := 0;
    for i := 0 to MAX_PROBES
      invariant c.Valid() && old(c.os.run) <= c.os.run && probes == i
      invariant c.os.Me().pc == KillProbe(i) && c.os.Me().teardown == []
    {
      gone := c.InitGone(i);
      probes := probes + 1;
      if gone { return; }
    }
    var _, _ := c.os.Sys();
    gone := false;
  }

  /**
   The action of the delete command.  `told` is the container's status as it was learned in the run: from
   state.json, or Stopped from the probe.  It decides, with `force`, what the command does.
   */
  method DeleteAction(os: Machine, force: bool) returns (o: Outcome, told: Option<Status>)
    requires os.Valid() && os.self.Command?
    requires os.Me() == Proc(DeleteCmd(force), Load, Snapshot(0, Stopped), [])
    modifies os
    ensures os.Valid() && old(os.run) <= os.run
    ensures os.Me().pc == Done(o) && o in {Deleted, StillRunning, NotStopped, NotExists, LoadFailed}
    ensures o == LoadFailed <==> !Granted(old(os.verdicts))
    ensures told == None <==> o == LoadFailed || o == NotExists
    ensures told.Some? ==> Learned(os.conf, os.run, os.self.p, told.value) && Follows(DeleteCmd(force), told.value, Done(o))
    ensures o == NotStopped <==> !force && told.Some? && told.value != Stopped && told.value != Created
    ensures o == Deleted <==> os.Me().teardown != []
    ensures o == Deleted ==> os.world.k.init == Gone && [ExecH, FsH] <= os.Me().teardown <= [ExecH, FsH, NetH]
  {
    var ok, seen := os.Sys();
    if !ok { return LoadFailed, None; }
    if seen.k.file.None? {
      var _, _ := os.Sys();
      return NotExists, None;
    }
    var c := new NablaContainer(os);
    var s;
    o, s := DeleteContainer(c, force);
    return o, Some(s);
  }

  method DeleteContainer(c: NablaContainer, force: bool) returns (o: Outcome, told: Status)
    requires c.Valid() && c.os.Me().kind == DeleteCmd(force) && c.os.Me().pc == Probe(0) && c.os.Me().teardown == []
    modifies c, c.os
    ensures c.os.Valid() && old(c.os.run) <= c.os.run
    ensures c.os.Me().pc == Done(o) && o in {Deleted, StillRunning, NotStopped}
    ensures Learned(c.os.conf, c.os.run, c.os.self.p, told) && Follows(DeleteCmd(force), told, Done(o))
    ensures o == Deleted <==> c.os.Me().teardown != []
    ensures o == Deleted ==> c.os.world.k.init == Gone && [ExecH, FsH] <= c.os.Me().teardown <= [ExecH, FsH, NetH]
  {
    told := c.CurrentStatus(0);
    ghost var asked := c.os.run;
    StatusHasCause(c.os.conf, asked, c.os.self.p, told);
    var _, _ := c.os.Sys();
    if told == Stopped {
      var _ := c.Destroy();
      o := Deleted;
    } else if told == Created {
      var killed, _ := KillContainer(c);
      o := killed;
    } else if force {
      var killed, _ := KillContainer(c);
      o := killed;
    } else {
      o := NotStopped;
    }
    LearnedStays(c.os.conf, asked, c.os.run, c.os.self.p, told);
  }

  lemma LearnedStays(conf: Config, a: seq<Label>, b: seq<Label>, p: ProcId, s: Status)
    requires a <= b && Learned(conf, a, p, s)
    ensures Learned(conf, b, p, s)
  {
    assert b[..|a|] == a;
    LearnedBefore(conf, b, |a|, p, s);
  }

  /**
   The action of the start command; without a value it is still blocked on the FIFO.  `told` is the
   status it has learned, which must be Created for it to start anything.
   */
  method StartAction(os: Machine) returns (o: Option<Outcome>, told: Option<Status>)
    requires os.Valid() && os.self.Command?
    requires os.Me() == Proc(StartCmd, Load, Snapshot(0, Stopped), [])
    modifies os
    ensures os.Valid() && old(os.run) <= os.run
    ensures o.Some? ==> os.Me().pc == Done(o.value)
    ensures o.None? ==> (os.Me().pc.Opening? || os.Me().pc.Reading?) && os.Blocked()
    ensures o == Some(LoadFailed) <==> !Granted(old(os.verdicts))
    ensures told == None <==> o == Some(LoadFailed) || o == Some(NotExists)
    ensures told.Some? ==> Learned(os.conf, os.run, os.self.p, told.value) && Follows(StartCmd, told.value, os.Me().pc)
    ensures o == Some(Started) ==> told == Some(Created) && IsStarted(os.world.k)
    ensures o == Some(Started) ==> os.world.k.fifo.consumed == 1 && WroteFifo in os.world.k.log
  {
    var ok, seen := os.Sys();
    if !ok { return Some(LoadFailed), None; }
    if seen.k.file.None? { return Some(NotExists), None; }
    var c := new NablaContainer(os);
    var s;
    o, s := StartContainer(c);
    told := Some(s);
    if o == Some(Started) { RunInv(os.conf, os.run); }
  }

  method StartContainer(c: NablaContainer) returns (o: Option<Outcome>, told: Status)
    requires c.Valid() && c.os.Me().kind == StartCmd && c.os.Me().pc == Probe(0)
    modifies c, c.os
    ensures c.os.Valid() && old(c.os.run) <= c.os.run
    ensures o.Some? ==> c.os.Me().pc == Done(o.value) && o.value != LoadFailed && o.value != NotExists
    ensures o.None? ==> (c.os.Me().pc.Opening? || c.os.Me().pc.Reading?) && c.os.Blocked()
    ensures Learned(c.os.conf, c.os.run, c.os.self.p, told) && Follows(StartCmd, told, c.os.Me().pc)
    ensures o == Some(Started) ==> IsStarted(c.os.world.k)
  {
    told := c.CurrentStatus(0);
    ghost var asked := c.os.run;
    StatusHasCause(c.os.conf, asked, c.os.self.p, told);
    var _, _ := c.os.Sys();
    match told {
      case Created => o := c.Exec();
      case Stopped => o := Some(HasStopped);
      case Running => o := Some(AlreadyRunning);
      case _ => o := Some(WrongState);
    }
    LearnedStays(c.os.conf, asked, c.os.run, c.os.self.p, told);
  }

  /**
   The action of the state command, which probes twice and reports the second answer.  What it reports
   is what state.json said, or Stopped when init was gone; with nobody else about, exactly that.
   */
  method StateAction(os: Machine) returns (o: Outcome)
    requires os.Valid() && os.self.Command?
    requires os.Me() == Proc(StateCmd, Load, Snapshot(0, Stopped), [])
    modifies os
    ensures os.Valid() && old(os.run) <= os.run
    ensures os.Me().pc == Done(o) && (o in {NotExists, LoadFailed} || o.Report?)
    ensures o == LoadFailed <==> !Granted(old(os.verdicts))
    ensures o.Report? ==> Learned(os.conf, os.run, os.self.p, o.status)
    ensures o.Report? ==> o.status in {Created, Running, Stopped} && (o.status == Stopped ==> os.world.k.init == Gone)
    ensures old(os.schedule) == [] && Granted(old(os.verdicts)) ==> o == Alone(old(os.world.k))
  {
    var ok, seen := os.Sys();
    if !ok { return LoadFailed; }
    if seen.k.file.None? { return NotExists; }
    var c := new NablaContainer(os);
    var _ := c.CurrentStatus(0);
    var s := c.CurrentStatus(1);
    ProcOkAfter(os.conf, os.run, os.self.p);
    ReportIsDue(os.conf, os.run, os.self.p, s);
    return Report(s);
  }

  /** What `state` has to say of a container that nobody touches. */
  function Alone(k: Kernel): Outcome {
    if k.file.None? then NotExists
    else Report(if PidLive(k, k.file.value.pid) then k.file.value.status else Stopped)
  }

  // ---------------------------------------------------------------- the create command

  /** Where `Create` failed: at the directory and its FIFO, or at a handler. */
  datatype CreateStage = AtRoot | AtHandler(h: Handler)

  /** The create handlers called when it fails there, or all of them when it does not; none for the file system of `/pause`. */
  function CreatedUpTo(failed: Option<CreateStage>, pause: bool): seq<Handler> {
    var fs := if pause then [] else [FsH];
    match failed
    case Some(AtRoot) => []
    case Some(AtHandler(FsH)) => fs
    case Some(AtHandler(NetH)) => fs + [NetH]
    case _ => fs + [NetH, ExecH]
  }

  datatype CreateError = FactoryFailed | StartFailed | StartTimeUnknown | PostStartFailed

  /** `create`: the factory's Create followed by the runner. */
  class Runner {
    const os: Machine
    const pid: nat
    const pause: bool

    ghost predicate Valid()
      reads this, os
    {
      os.Valid() && os.self.TheCreator? && pid > 0 && os.conf.SkipsFs() == pause
    }

    constructor (os: Machine, pid: nat, pause: bool)
      requires os.Valid() && os.self.TheCreator? && pid > 0 && os.conf.SkipsFs() == pause
      ensures Valid() && this.os == os
    {
      this.os, this.pid, this.pause := os, pid, pause;
    }

    /** The directory and its FIFO. */
    method MakeRoot() returns (ok: bool)
      requires Valid() && os.world.creator.pc == Mkdir
      modifies os
      ensures Valid() && old(os.run) <= os.run
      ensures os.world.creator == old(os.world.creator).(
                pc := if !ok then Finished(false) else if pause then NetCreate else FsCreate)
      ensures os.world.creator.created == [] && os.world.creator.teardown == []
      ensures old(os.Quiet() && !os.world.k.dir) ==> ok && os.Quiet() && os.world.k.dir
    {
      var fine, seen := os.Make(pid);
      if !fine || seen.dir { return false; }
      fine, seen := os.Make(pid);
      return fine && seen.dir;
    }

    /**
     `Create` of the factory: directory, FIFO and the three create handlers.  The handler that fails is
     the last one called, and nothing is cleaned up.  If nothing fails and nobody interferes, it succeeds
     unless the directory is there.
     */
    method FactoryCreate() returns (failed: Option<CreateStage>)
      requires Valid() && os.world.creator.pc == Mkdir
      modifies os
      ensures Valid() && old(os.run) <= os.run && os.world.creator.teardown == []
      ensures os.world.creator.pc == if failed.None? then OpenRoot else Finished(false)
      ensures os.world.creator.created == CreatedUpTo(failed, pause)
      ensures failed != Some(AtHandler(FsH)) || !pause
      ensures old(os.Quiet() && !os.world.k.dir) ==> failed.None?
    {
      var fine := MakeRoot();
      if !fine { return Some(AtRoot); }
      failed := MakeHandlers();
    }

    /** The create handlers, without that of the file system for `/pause`. */
    method MakeHandlers() returns (failed: Option<CreateStage>)
      requires Valid() && os.world.creator.pc == (if pause then NetCreate else FsCreate)
      requires os.world.creator.created == [] && os.world.creator.teardown == []
      modifies os
      ensures Valid() && old(os.run) <= os.run && os.world.creator.teardown == []
      ensures os.world.creator.pc == if failed.None? then OpenRoot else Finished(false)
      ensures os.world.creator.created == CreatedUpTo(failed, pause) && failed != Some(AtRoot)
      ensures failed != Some(AtHandler(FsH)) || !pause
      ensures old(os.Quiet() && os.world.k.dir) ==> failed.None?
    {
      if !pause {
        var written, seen := os.Make(pid);
        if !written || !seen.dir { return Some(AtHandler(FsH)); }
      }
      var tapped, _ := os.Make(pid);
      if !tapped { return Some(AtHandler(NetH)); }
      var made, _ := os.Make(pid);
      return if made then None else Some(AtHandler(ExecH));
    }

    /** `start`: open the root, spawn init, note its start time, save Created. */
    method Start() returns (e: Option<CreateError>)
      requires Valid() && os.world.creator.pc == OpenRoot
      modifies os
      ensures Valid() && old(os.run) <= os.run && os.world.creator.teardown == []
      ensures e.None? ==> os.world.creator.pc == PostStart
      ensures e == Some(StartFailed) ==> os.world.creator.pc == DropExec(false) && os.world.k.init.Unborn?
      ensures e == Some(StartTimeUnknown) ==> os.world.creator.pc == DropExec(true)
      ensures e.Some? ==> e.value == StartFailed || e.value == StartTimeUnknown
      ensures old(os.Quiet() && os.world.k.dir) ==> e.None? && os.Quiet()
    {
      var ok, seen := os.Make(pid);
      if !ok || !seen.dir { return Some(StartFailed); }
      ok, seen := os.Make(pid);
      if !ok { return Some(StartFailed); }
      ok, seen := os.Make(pid);
      if !ok { return Some(StartTimeUnknown); }
      ok, seen := os.Make(pid);
      return None;
    }

    /** `destroy` of the runner, whose own errors are only logged. */
    method Destroy() returns (failed: Option<Handler>)
      requires Valid() && os.world.creator.pc.DropExec? && os.world.creator.teardown == []
      modifies os
      ensures Valid() && old(os.run) <= os.run && os.world.creator.pc == Finished(false)
      ensures failed in {None, Some(FsH), Some(NetH)} && os.world.creator.teardown == DestroyedUpTo(failed)
      ensures !old(os.world.creator.pc.unkilled) ==> os.world.k.init.Unborn? || os.world.k.init.Gone?
    {
      var removed := DestroyFs();
      if !removed { return Some(FsH); }
      var ok, seen := os.Make(pid);
      return if ok then None else Some(NetH);
    }

    /** The first two of the destroy handlers. */
    method DestroyFs() returns (removed: bool)
      requires Valid() && os.world.creator.pc.DropExec? && os.world.creator.teardown == []
      modifies os
      ensures Valid() && old(os.run) <= os.run && os.world.creator.teardown == [ExecH, FsH]
      ensures os.world.creator.pc == if removed then DropNet(old(os.world.creator.pc.unkilled)) else Finished(false)
      ensures !old(os.world.creator.pc.unkilled) ==> os.world.k.init.Unborn? || os.world.k.init.Gone?
    {
      var seen;
      removed, seen := os.Make(pid);
      removed, seen := os.Make(pid);
    }

    /**
     `run` in create mode.  Every error after a successful start has killed init and waited for it
     before it destroys; on success no step of `create` has signalled init, and nothing is destroyed.
     If nothing fails and nobody interferes, it succeeds.
     */
    method Run() returns (e: Option<CreateError>)
      requires Valid() && os.world.creator.pc == OpenRoot
      modifies os
      ensures Valid() && old(os.run) <= os.run && os.world.creator.pc == Finished(e.None?)
      ensures e.None? <==> os.world.creator.teardown == []
      ensures e.Some? ==> [ExecH, FsH] <= os.world.creator.teardown <= [ExecH, FsH, NetH]
      ensures e == Some(PostStartFailed) ==> os.world.k.init == Gone
      ensures e == Some(StartFailed) ==> os.world.k.init == Unborn || os.world.k.init == Gone
      ensures e.None? ==> os.world.k.init != Unborn && InitLeftAlone(os.conf, os.run)
      ensures old(os.Quiet() && os.world.k.dir) ==> e.None?
    {
      e := Start();
      if e.Some? {
        var _ := Destroy();
        return;
      }
      var ok, _ := os.Make(pid);
      if !ok {
        Abandon();
        return Some(PostStartFailed);
      }
      CreateSuccessLeavesInitAlone(os.conf, os.run);
    }

    /** The way back after a failed poststart hook: kill init, wait for it and destroy. */
    method Abandon()
      requires Valid() && os.world.creator.pc == Terminate && os.world.creator.teardown == []
      modifies os
      ensures Valid() && old(os.run) <= os.run && os.world.creator.pc == Finished(false)
      ensures os.world.k.init == Gone && [ExecH, FsH] <= os.world.creator.teardown <= [ExecH, FsH, NetH]
    {
      var _, _ := os.Make(pid);
      var _, _ := os.Make(pid);
      ghost var reaped := os.run;
      var _ := Destroy();
      GoneStays(os.conf, reaped, os.run);
    }
  }
}

/** What state.json and the `state` command say about a container, despite lost updates. */
module LifecycleStatus {
  import opened Lifecycle
  import opened LifecycleInvariant
  import opened LifecycleTheorems

  /**
   The saved status is Created, Running or Stopped.  Stopped means init is gone; Running means init
   got through all it does before the rendezvous and its byte was read; the pid is that of init.
   */
  lemma SavedStatusIsSound(conf: Config, ls: seq<Label>)
    requires IsRun(conf, ls) && After(conf, ls).k.file.Some?
    ensures var k := After(conf, ls).k;
            var s := k.file.value;
            && s.status in {Created, Running, Stopped}
            && s.pid == k.initPid && s.pid > 0
            && (s.status == Stopped ==> k.init == Gone)
            && (s.status == Running ==>
                  k.fifo.consumed == 1 && [CallFs] + HookCalls(conf.hooks) + [CallNet, WroteFifo] <= k.log)
  {
    RunInv(conf, ls);
    ConfFixed(Fresh(conf), ls);
    var k := After(conf, ls).k;
    if k.file.value.status == Running { WrittenLog(conf, k); }
  }

  // ---------------------------------------------------------------- how the saved status changes

  /** How one step may change the saved status. */
  predicate StatusMove(a: Status, b: Status, gone: bool) {
    a == b || (a == Created && b == Running) || (gone && b != Created)
  }

  lemma StepMovesStatus(w: World, l: Label)
    requires Inv(w) && Step(w, l).Some? && w.k.file.Some? && Step(w, l).value.k.file.Some?
    ensures StatusMove(w.k.file.value.status, Step(w, l).value.k.file.value.status, Step(w, l).value.k.init.Gone?)
  {
    match l
    case Act(p, ok) =>
      ProcFootprint(w.k, p, w.procs[p], ok);
      ProcStepOk(w.conf, w.k, p, w.procs[p], ok);
      assert ProcOk(w.k, w.procs[p]);
    case InitAct(ok) => InitFootprint(w.conf, w.k, ok);
    case Create(ok, pid) => CreatorFootprint(w.conf, w.k, w.creator, ok, pid);
    case _ =>
  }

  /** An update is lost, Stopped overwritten by Running, exactly when a late `start` makes its save. */
  lemma StoppedTurnsRunningExactly(conf: Config, ls: seq<Label>, l: Label)
    requires IsRun(conf, ls) && Step(After(conf, ls), l).Some?
    requires After(conf, ls).k.file.Some? && After(conf, ls).k.file.value.status == Stopped
    ensures var w := After(conf, ls);
            var f := Step(w, l).value.k.file;
            f.Some? && f.value.status == Running <==> l.Act? && l.p in w.procs && w.procs[l.p].pc == SaveRunning
  {
    var w := After(conf, ls);
    RunInv(conf, ls);
    match l
    case Act(p, ok) =>
      ProcFootprint(w.k, p, w.procs[p], ok);
      assert ProcOk(w.k, w.procs[p]);
    case InitAct(ok) => InitFootprint(w.conf, w.k, ok);
    case Create(ok, pid) => CreatorFootprint(w.conf, w.k, w.creator, ok, pid);
    case _ =>
  }

  /** Once `create` has made the directory, it is never made again in this generation. */
  lemma StepKeepsDirAway(w: World, l: Label)
    requires Step(w, l).Some? && !w.creator.pc.Mkdir?
    ensures !Step(w, l).value.creator.pc.Mkdir?
    ensures !w.k.dir ==> !Step(w, l).value.k.dir
  {
    match l
    case Act(p, ok) => ProcFootprint(w.k, p, w.procs[p], ok);
    case InitAct(ok) => InitFootprint(w.conf, w.k, ok);
    case Create(ok, pid) => CreatorFootprint(w.conf, w.k, w.creator, ok, pid);
    case _ =>
  }

  lemma StepKeepsGone(w: World, l: Label)
    requires Inv(w) && Step(w, l).Some? && w.k.init.Gone?
    ensures Step(w, l).value.k.init.Gone?
  {
    match l
    case Act(p, ok) => ProcStepOk(w.conf, w.k, p, w.procs[p], ok);
    case Create(ok, pid) => CreatorStepOk(w.conf, w.k, w.creator, ok, pid);
    case _ =>
  }

  lemma {:induction false} RunKeepsGone(w: World, ls: seq<Label>)
    requires Inv(w) && Exec(w, ls).Some? && w.k.init.Gone?
    ensures Exec(w, ls).value.k.init.Gone?
    decreases |ls|
  {
    if ls != [] {
      StepKeepsInv(w, ls[0]);
      StepKeepsGone(w, ls[0]);
      RunKeepsGone(Step(w, ls[0]).value, ls[1..]);
    }
  }

  lemma {:induction false} RunKeepsDirAway(w: World, ls: seq<Label>)
    requires Exec(w, ls).Some? && !w.creator.pc.Mkdir? && !w.k.dir
    ensures !Exec(w, ls).value.k.dir
    decreases |ls|
  {
    if ls != [] {
      StepKeepsDirAway(w, ls[0]);
      RunKeepsDirAway(Step(w, ls[0]).value, ls[1..]);
    }
  }

  lemma {:induction false} RunMovesStatus(w: World, ls: seq<Label>)
    requires Inv(w) && Exec(w, ls).Some? && w.k.file.Some? && Exec(w, ls).value.k.file.Some?
    ensures StatusMove(w.k.file.value.status, Exec(w, ls).value.k.file.value.status, Exec(w, ls).value.k.init.Gone?)
    decreases |ls|
  {
    if ls != [] {
      var v := Step(w, ls[0]).value;
      StepKeepsInv(w, ls[0]);
      StepKeepsDirAway(w, ls[0]);
      if v.k.init.Gone? { RunKeepsGone(v, ls[1..]); }
      if v.k.file.Some? {
        StepMovesStatus(w, ls[0]);
        RunMovesStatus(v, ls[1..]);
      } else {
        FileLeavesWithDir(w, ls[0]);
        RunKeepsDirAway(v, ls[1..]);
        RunKeepsInv(v, ls[1..]);
      }
    }
  }

  lemma FileLeavesWithDir(w: World, l: Label)
    requires Inv(w) && Step(w, l).Some? && w.k.file.Some? && Step(w, l).value.k.file.None?
    ensures !Step(w, l).value.k.dir
  {
    match l
    case Act(p, ok) => ProcFootprint(w.k, p, w.procs[p], ok);
    case InitAct(ok) => InitFootprint(w.conf, w.k, ok);
    case Create(ok, pid) => CreatorFootprint(w.conf, w.k, w.creator, ok, pid);
    case _ =>
  }

  /**
   Between any two points of any run, no save ever brings Created back, and until init is gone the
   saved status moves at most from Created to Running.
   */
  lemma SavedStatusNeverGoesBack(conf: Config, before: seq<Label>, after: seq<Label>)
    requires IsRun(conf, before + after) && IsRun(conf, before)
    requires After(conf, before).k.file.Some? && After(conf, before + after).k.file.Some?
    ensures var a := After(conf, before).k.file.value.status;
            var b := After(conf, before + after).k.file.value.status;
            && (b == Created ==> a == Created)
            && (!After(conf, before + after).k.init.Gone? ==> a == b || (a == Created && b == Running))
  {
    RunInv(conf, before);
    ExecAppend(Fresh(conf), before, after);
    RunMovesStatus(After(conf, before), after);
  }

  // ---------------------------------------------------------------- what the state command reports

  /** Process `p` of the state command has made its last probe, which told it `s`. */
  predicate Settled(w: World, p: ProcId, s: Status) {
    && p in w.procs && w.procs[p].kind == StateCmd
    && var me := w.procs[p];
       (me.pc == SaveStopped(1) && me.mem.status == s) || me.pc == Done(Report(s)) || me.pc == Crashed
  }

  lemma StepKeepsSettled(w: World, l: Label, p: ProcId, s: Status)
    requires Settled(w, p, s) && Step(w, l).Some?
    ensures Settled(Step(w, l).value, p, s)
  {
  }

  lemma {:induction false} RunKeepsSettled(w: World, ls: seq<Label>, p: ProcId, s: Status)
    requires Settled(w, p, s) && Exec(w, ls).Some?
    ensures Settled(Exec(w, ls).value, p, s)
    decreases |ls|
  {
    if ls != [] {
      StepKeepsSettled(w, ls[0], p, s);
      RunKeepsSettled(Step(w, ls[0]).value, ls[1..], p, s);
    }
  }

  lemma LastProbe(w: World, p: ProcId, ok: bool)
    requires Inv(w) && p in w.procs && w.procs[p].kind == StateCmd && w.procs[p].pc == Probe(1)
    ensures var s := if w.k.init.Gone? then Stopped else w.procs[p].mem.status;
            Step(w, Act(p, ok)).Some? && Settled(Step(w, Act(p, ok)).value, p, s) && (s == Stopped <==> w.k.init.Gone?)
  {
    assert ProcOk(w.k, w.procs[p]);
  }

  /** The state command reports Stopped exactly when init was gone at its last probe. */
  lemma ReportTellsProbe(conf: Config, before: seq<Label>, p: ProcId, ok: bool, after: seq<Label>, s: Status)
    requires IsRun(conf, before) && IsRun(conf, before + [Act(p, ok)] + after)
    requires p in After(conf, before).procs
    requires After(conf, before).procs[p].kind == StateCmd && After(conf, before).procs[p].pc == Probe(1)
    requires p in After(conf, before + [Act(p, ok)] + after).procs
    requires After(conf, before + [Act(p, ok)] + after).procs[p].pc == Done(Report(s))
    ensures s == Stopped <==> After(conf, before).k.init == Gone
    ensures s in {Created, Running, Stopped}
  {
    var w := After(conf, before);
    var l := Act(p, ok);
    RunInv(conf, before);
    LastProbe(w, p, ok);
    ExecAppend(Fresh(conf), before, [l] + after);
    assert before + [l] + after == before + ([l] + after);
    assert ([l] + after)[1..] == after;
    var t := if w.k.init.Gone? then Stopped else w.procs[p].mem.status;
    RunKeepsSettled(Step(w, l).value, after, p, t);
    assert ProcOk(w.k, w.procs[p]);
  }

  // ---------------------------------------------------------------- a start that waits for a dead init

  predicate Dead(i: Init) {
    i.Zombie? || i.Gone?
  }

  /** Process `p` waits in its open of the FIFO for a writer that will never come. */
  predicate BlockedForever(w: World, p: ProcId) {
    && p in w.procs && w.procs[p].pc.Opening? && Dead(w.k.init)
    && w.k.fifo.wcount == w.procs[p].pc.seen
  }

  lemma ExecLeavesWriters(k: Kernel, p: ProcId, me: Proc, ok: bool)
    requires InExec(me.pc) && ExecStep(k, p, me, ok).Some?
    ensures ExecStep(k, p, me, ok).value.k.fifo.wcount == k.fifo.wcount
  {
  }

  lemma CommandLeavesWriters(k: Kernel, p: ProcId, me: Proc, ok: bool)
    requires ProcStep(k, p, me, ok).Some?
    ensures ProcStep(k, p, me, ok).value.k.fifo.wcount == k.fifo.wcount
    ensures Dead(k.init) ==> Dead(ProcStep(k, p, me, ok).value.k.init)
  {
    if InExec(me.pc) { ExecLeavesWriters(k, p, me, ok); }
  }

  lemma CreatorLeavesWriters(conf: Config, k: Kernel, c: Creator, ok: bool, pid: nat)
    requires CreatorOk(conf, k, c) && CreatorStep(conf, k, c, ok, pid).Some? && Dead(k.init)
    ensures CreatorStep(conf, k, c, ok, pid).value.k.fifo.wcount == k.fifo.wcount
    ensures Dead(CreatorStep(conf, k, c, ok, pid).value.k.init)
  {
  }

  /** Nobody else opens the FIFO for writing, and no other step gets the process out of its open. */
  lemma StepKeepsBlocked(w: World, l: Label, p: ProcId)
    requires Inv(w) && BlockedForever(w, p) && Step(w, l).Some?
    ensures var v := Step(w, l).value;
            BlockedForever(v, p) || (l == Crash(p) && v.procs[p].pc == Crashed)
  {
    match l
    case Act(q, ok) => CommandLeavesWriters(w.k, q, w.procs[q], ok);
    case Create(ok, pid) => CreatorLeavesWriters(w.conf, w.k, w.creator, ok, pid);
    case _ =>
  }

  predicate BlockedOrKilled(w: World, p: ProcId) {
    BlockedForever(w, p) || (p in w.procs && w.procs[p].pc == Crashed)
  }

  lemma StepKeepsKilled(w: World, l: Label, p: ProcId)
    requires p in w.procs && w.procs[p].pc == Crashed && Step(w, l).Some?
    ensures p in Step(w, l).value.procs && Step(w, l).value.procs[p].pc == Crashed
  {
  }

  lemma {:induction false} RunKeepsBlocked(w: World, ls: seq<Label>, p: ProcId)
    requires Inv(w) && BlockedOrKilled(w, p) && Exec(w, ls).Some?
    ensures BlockedOrKilled(Exec(w, ls).value, p)
    decreases |ls|
  {
    if ls != [] {
      if BlockedForever(w, p) { StepKeepsBlocked(w, ls[0], p); } else { StepKeepsKilled(w, ls[0], p); }
      StepKeepsInv(w, ls[0]);
      RunKeepsBlocked(Step(w, ls[0]).value, ls[1..], p);
    }
  }

  /**
   A `start` that comes to the FIFO after init has died: if the FIFO is still there and can be opened
   it never ends, however the run goes on, unless it is killed; otherwise it fails at once.
   */
  lemma LateStart(conf: Config, before: seq<Label>, p: ProcId, ok: bool, after: seq<Label>)
    requires IsRun(conf, before) && IsRun(conf, before + [Act(p, ok)]) && IsRun(conf, before + [Act(p, ok)] + after)
    requires p in After(conf, before).procs && After(conf, before).procs[p].pc == Arrive
    requires Dead(After(conf, before).k.init)
    ensures if ok && After(conf, before).k.fifo.linked then BlockedOrKilled(After(conf, before + [Act(p, ok)] + after), p)
            else p in After(conf, before + [Act(p, ok)]).procs
                 && After(conf, before + [Act(p, ok)]).procs[p].pc == Done(OpenFailed)
  {
    var mid := before + [Act(p, ok)];
    RunInv(conf, before);
    RunInv(conf, mid);
    LastStep(conf, mid);
    assert mid[..|mid| - 1] == before;
    if ok && After(conf, before).k.fifo.linked {
      assert BlockedForever(After(conf, mid), p);
      ExecAppend(Fresh(conf), mid, after);
      RunKeepsBlocked(After(conf, mid), after, p);
    }
  }

  /** A `start` that is waiting when init dies goes on if init had opened its end, and otherwise waits for ever. */
  lemma AbandonedStart(conf: Config, before: seq<Label>, p: ProcId, ok: bool, after: seq<Label>)
    requires IsRun(conf, before) && IsRun(conf, before + after)
    requires p in After(conf, before).procs && After(conf, before).procs[p].pc.Opening? && Dead(After(conf, before).k.init)
    ensures var w := After(conf, before);
            if w.k.fifo.wcount == w.procs[p].pc.seen then BlockedOrKilled(After(conf, before + after), p)
            else Step(w, Act(p, ok)).Some? && Step(w, Act(p, ok)).value.procs[p].pc == Reading(0)
  {
    RunInv(conf, before);
    ExecAppend(Fresh(conf), before, after);
    if BlockedForever(After(conf, before), p) { RunKeepsBlocked(After(conf, before), after, p); }
  }
}

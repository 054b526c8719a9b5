/** Why a command answers as it does: what it loaded, what its probe found, and what it did then. */
module LifecycleAnswers {
  import opened Common
  import opened Lifecycle
  import opened LifecycleInvariant
  import opened LifecycleTheorems

  // ---------------------------------------------------------------- the moments a command decides at

  /** Step `i` of the run is the load of process `p`, and state.json says `s`. */
  ghost predicate Loads(conf: Config, ls: seq<Label>, i: nat, p: ProcId, s: Status)
    requires i < |ls|
  {
    && ls[i] == Act(p, true) && IsRun(conf, ls[..i])
    && var w := After(conf, ls[..i]);
       p in w.procs && w.procs[p].pc == Load && w.k.file.Some? && w.k.file.value.status == s
  }

  /** Step `i` of the run is the last probe of process `p`, which turns the status into Stopped exactly when init is gone. */
  ghost predicate Probes(conf: Config, ls: seq<Label>, i: nat, p: ProcId, s: Status)
    requires i < |ls|
  {
    && ls[i].Act? && ls[i].p == p && IsRun(conf, ls[..i])
    && var w := After(conf, ls[..i]);
       p in w.procs && w.procs[p].pc == Probe(LastProbe(w.procs[p].kind)) && (s == Stopped <==> w.k.init == Gone)
  }

  /** At step `i` of the run process `p` chooses what to do, with `s` as the container's status. */
  ghost predicate Chooses(conf: Config, ls: seq<Label>, i: nat, p: ProcId, s: Status)
    requires i < |ls|
  {
    && ls[i].Act? && ls[i].p == p && IsRun(conf, ls[..i])
    && var w := After(conf, ls[..i]);
       p in w.procs && w.procs[p].pc == Dispatch && w.procs[p].mem.status == s
  }

  // ---------------------------------------------------------------- where the status comes from

  /** The process takes the container's status to be `s`, and has not changed it itself. */
  predicate Holds(me: Proc, s: Status) {
    match me.pc
    case Probe(_) => me.mem.status == s
    case SaveStopped(_) => me.mem.status == s
    case Dispatch => me.mem.status == s
    case Arrive => me.mem.status == s
    case Opening(_) => me.mem.status == s
    case Reading(_) => me.mem.status == s
    case Close(e) => e != Started && me.mem.status == s
    case Kill => me.mem.status == s
    case KillProbe(_) => me.mem.status == s
    case Done(Report(t)) => t == s
    case Done(o) => me.mem.status == s && !o.Started? && !o.Deleted? && !o.NotExists? && !o.LoadFailed?
    case _ => false
  }

  /** The process has made its last probe. */
  predicate Probed(me: Proc) {
    match me.pc
    case Probe(_) => false
    case SaveStopped(n) => n == LastProbe(me.kind)
    case _ => true
  }

  lemma StatusMoveHolds(k: Kernel, me: Proc, ok: bool, s: Status)
    requires InStatus(me.pc) && Holds(StatusStep(k, me, ok).value.me, s) && s != Stopped
    ensures Holds(me, s) || (ok && me.pc == Load && k.file.Some? && k.file.value.status == s)
  {
  }

  lemma ExecMoveHolds(k: Kernel, p: ProcId, me: Proc, ok: bool, s: Status)
    requires ProcOk(k, me) && InExec(me.pc) && ExecStep(k, p, me, ok).Some? && Holds(ExecStep(k, p, me, ok).value.me, s)
    ensures Holds(me, s)
  {
  }

  lemma DeleteMoveHolds(k: Kernel, me: Proc, ok: bool, s: Status)
    requires InDelete(me.pc) && Holds(DeleteStep(k, me, ok).value.me, s)
    ensures Holds(me, s)
  {
  }

  /** A status other than Stopped is held because it has been held, or has just been loaded. */
  lemma EntersHolding(w: World, l: Label, p: ProcId, s: Status)
    requires Inv(w) && Step(w, l).Some? && p in Step(w, l).value.procs && Holds(Step(w, l).value.procs[p], s) && s != Stopped
    ensures p in w.procs
    ensures || Holds(w.procs[p], s)
            || (l == Act(p, true) && w.procs[p].pc == Load && w.k.file.Some? && w.k.file.value.status == s)
  {
    if l.Act? && l.p == p {
      var me := w.procs[p];
      assert ProcOk(w.k, me);
      if InStatus(me.pc) { StatusMoveHolds(w.k, me, l.ok, s); }
      else if InExec(me.pc) { ExecMoveHolds(w.k, p, me, l.ok, s); }
      else { DeleteMoveHolds(w.k, me, l.ok, s); }
    }
  }

  lemma {:induction false} HeldWasLoaded(conf: Config, ls: seq<Label>, p: ProcId, s: Status)
    requires IsRun(conf, ls) && p in After(conf, ls).procs && Holds(After(conf, ls).procs[p], s) && s != Stopped
    ensures exists i :: 0 <= i < |ls| && Loads(conf, ls, i, p, s)
    decreases |ls|
  {
    var n := |ls| - 1;
    LastStep(conf, ls);
    RunInv(conf, ls[..n]);
    var w := After(conf, ls[..n]);
    EntersHolding(w, ls[n], p, s);
    if Holds(w.procs[p], s) {
      HeldWasLoaded(conf, ls[..n], p, s);
      var i :| 0 <= i < n && Loads(conf, ls[..n], i, p, s);
      assert ls[..n][..i] == ls[..i];
      assert Loads(conf, ls, i, p, s);
    } else {
      assert Loads(conf, ls, n, p, s);
    }
  }

  lemma StatusMoveProbed(k: Kernel, me: Proc, ok: bool, s: Status)
    requires ProcOk(k, me) && InStatus(me.pc)
    requires var v := StatusStep(k, me, ok).value.me; Holds(v, s) && Probed(v)
    ensures (Holds(me, s) && Probed(me)) || (me.pc == Probe(LastProbe(me.kind)) && (s == Stopped <==> k.init == Gone))
  {
  }

  /** What is held after the last probe was held before the step, or the step is that probe. */
  lemma EntersProbed(w: World, l: Label, p: ProcId, s: Status)
    requires Inv(w) && Step(w, l).Some? && p in Step(w, l).value.procs
    requires var v := Step(w, l).value.procs[p]; Holds(v, s) && Probed(v)
    ensures p in w.procs
    ensures || (Holds(w.procs[p], s) && Probed(w.procs[p]))
            || (l.Act? && l.p == p && w.procs[p].pc == Probe(LastProbe(w.procs[p].kind))
                && (s == Stopped <==> w.k.init == Gone))
  {
    if l.Act? && l.p == p {
      var me := w.procs[p];
      assert ProcOk(w.k, me);
      if InStatus(me.pc) { StatusMoveProbed(w.k, me, l.ok, s); }
      else if InExec(me.pc) { ExecMoveHolds(w.k, p, me, l.ok, s); }
      else { DeleteMoveHolds(w.k, me, l.ok, s); }
    }
  }

  lemma {:induction false} HeldWasProbed(conf: Config, ls: seq<Label>, p: ProcId, s: Status)
    requires IsRun(conf, ls) && p in After(conf, ls).procs
    requires Holds(After(conf, ls).procs[p], s) && Probed(After(conf, ls).procs[p])
    ensures exists i :: 0 <= i < |ls| && Probes(conf, ls, i, p, s)
    decreases |ls|
  {
    var n := |ls| - 1;
    LastStep(conf, ls);
    RunInv(conf, ls[..n]);
    var w := After(conf, ls[..n]);
    EntersProbed(w, ls[n], p, s);
    if Holds(w.procs[p], s) && Probed(w.procs[p]) {
      HeldWasProbed(conf, ls[..n], p, s);
      var i :| 0 <= i < n && Probes(conf, ls[..n], i, p, s);
      assert ls[..n][..i] == ls[..i];
      assert Probes(conf, ls, i, p, s);
    } else {
      assert Probes(conf, ls, n, p, s);
    }
  }

  /**
   The status a command acts on, or reports, is Stopped exactly if init was gone at its last probe,
   and otherwise what state.json said when it loaded it.
   */
  lemma StatusHasCause(conf: Config, ls: seq<Label>, p: ProcId, s: Status)
    requires IsRun(conf, ls) && p in After(conf, ls).procs
    requires Holds(After(conf, ls).procs[p], s) && Probed(After(conf, ls).procs[p])
    ensures exists i :: 0 <= i < |ls| && Probes(conf, ls, i, p, s)
    ensures s != Stopped ==> exists i :: 0 <= i < |ls| && Loads(conf, ls, i, p, s)
  {
    HeldWasProbed(conf, ls, p, s);
    if s != Stopped { HeldWasLoaded(conf, ls, p, s); }
  }

  /** The status was learned in this run: from state.json at the load, or Stopped from the last probe. */
  ghost predicate Learned(conf: Config, ls: seq<Label>, p: ProcId, s: Status) {
    && (exists i :: 0 <= i < |ls| && Probes(conf, ls, i, p, s))
    && (s != Stopped ==> exists i :: 0 <= i < |ls| && Loads(conf, ls, i, p, s))
  }

  lemma LearnedBefore(conf: Config, ls: seq<Label>, n: nat, p: ProcId, s: Status)
    requires n <= |ls| && Learned(conf, ls[..n], p, s)
    ensures Learned(conf, ls, p, s)
  {
    var i :| 0 <= i < n && Probes(conf, ls[..n], i, p, s);
    assert ls[..n][..i] == ls[..i];
    assert Probes(conf, ls, i, p, s);
    if s != Stopped {
      var j :| 0 <= j < n && Loads(conf, ls[..n], j, p, s);
      assert ls[..n][..j] == ls[..j];
      assert Loads(conf, ls, j, p, s);
    }
  }

  // ---------------------------------------------------------------- what a command does with the status

  predicate Tears(pc: Pc) {
    pc.TearExec? || pc.TearFs? || pc.TearNet? || pc == Done(Deleted)
  }

  predicate Starts(pc: Pc) {
    || pc.Arrive? || pc.Opening? || pc.Reading? || pc.SaveRunning? || pc.Unlink?
    || pc == Close(Started) || pc == Close(AlreadyRunning) || pc == Close(ReadFailed)
    || pc == Done(Started) || pc == Done(AlreadyRunning) || pc == Done(OpenFailed) || pc == Done(ReadFailed)
  }

  /**
   Where a command can be, and how it can end, with the status `s`.  Only a created container is
   started.  A delete destroys a stopped container, kills a created one first, kills any other only
   with force and otherwise refuses.
   */
  predicate Follows(kind: Kind, s: Status, pc: Pc) {
    match kind
    case StartCmd =>
      if s == Created then Starts(pc)
      else pc == Done(if s == Stopped then HasStopped else if s == Running then AlreadyRunning else WrongState)
    case DeleteCmd(force) =>
      if s == Stopped then Tears(pc)
      else if s == Created || force then pc.Kill? || pc.KillProbe? || pc == Done(StillRunning) || Tears(pc)
      else pc == Done(NotStopped)
    case StateCmd => false
  }

  /** The process has chosen. */
  predicate Chose(me: Proc) {
    && !me.kind.StateCmd?
    && (InExec(me.pc) || (InDelete(me.pc) && !me.pc.RemoveOrphan?)
        || (me.pc.Done? && me.pc.outcome != NotExists && me.pc.outcome != LoadFailed))
  }

  lemma ExecMoveFollows(k: Kernel, p: ProcId, me: Proc, ok: bool, s: Status)
    requires InExec(me.pc) && ExecStep(k, p, me, ok).Some? && Follows(me.kind, s, me.pc)
    ensures Follows(me.kind, s, ExecStep(k, p, me, ok).value.me.pc) && ExecStep(k, p, me, ok).value.me.kind == me.kind
  {
  }

  lemma DeleteMoveFollows(k: Kernel, me: Proc, ok: bool, s: Status)
    requires InDelete(me.pc) && Follows(me.kind, s, me.pc)
    ensures Follows(me.kind, s, DeleteStep(k, me, ok).value.me.pc) && DeleteStep(k, me, ok).value.me.kind == me.kind
  {
  }

  lemma ChoiceMoveFollows(k: Kernel, me: Proc, ok: bool)
    requires me.pc == Dispatch && !me.kind.StateCmd?
    ensures Follows(me.kind, me.mem.status, StatusStep(k, me, ok).value.me.pc)
  {
  }

  /** A step keeps a process on its way, if it does not kill it. */
  lemma StepFollows(w: World, l: Label, p: ProcId, s: Status)
    requires Step(w, l).Some? && p in w.procs && Follows(w.procs[p].kind, s, w.procs[p].pc)
    ensures p in Step(w, l).value.procs
    ensures var v := Step(w, l).value.procs[p];
            v.kind == w.procs[p].kind && (v.pc.Crashed? || Follows(v.kind, s, v.pc))
  {
    if l.Act? && l.p == p {
      var me := w.procs[p];
      if InExec(me.pc) { ExecMoveFollows(w.k, p, me, l.ok, s); }
      else if InDelete(me.pc) { DeleteMoveFollows(w.k, me, l.ok, s); }
    }
  }

  lemma StatusMoveChoice(k: Kernel, me: Proc, ok: bool)
    requires ProcOk(k, me) && InStatus(me.pc) && Chose(StatusStep(k, me, ok).value.me)
    ensures me.pc == Dispatch
  {
  }

  lemma MoveChoice(k: Kernel, p: ProcId, me: Proc, ok: bool)
    requires ProcOk(k, me) && ProcStep(k, p, me, ok).Some? && Chose(ProcStep(k, p, me, ok).value.me)
    ensures me.kind == ProcStep(k, p, me, ok).value.me.kind && (Chose(me) || me.pc == Dispatch)
  {
    if InStatus(me.pc) { StatusMoveChoice(k, me, ok); }
  }

  /** The process has just chosen, or had chosen before. */
  lemma EntersChosen(w: World, l: Label, p: ProcId)
    requires Inv(w) && Step(w, l).Some? && p in Step(w, l).value.procs && Chose(Step(w, l).value.procs[p])
    ensures p in w.procs && Step(w, l).value.procs[p].kind == w.procs[p].kind
    ensures Chose(w.procs[p]) || (l.Act? && l.p == p && w.procs[p].pc == Dispatch)
  {
    if l.Act? && l.p == p {
      assert ProcOk(w.k, w.procs[p]);
      MoveChoice(w.k, p, w.procs[p], l.ok);
    }
  }

  /** A command that has chosen did so at some step of the run, and goes where the status leads. */
  lemma {:induction false} ChoiceWasMade(conf: Config, ls: seq<Label>, p: ProcId)
    requires IsRun(conf, ls) && p in After(conf, ls).procs && Chose(After(conf, ls).procs[p])
    ensures var me := After(conf, ls).procs[p];
            exists i, s :: 0 <= i < |ls| && Chooses(conf, ls, i, p, s) && Follows(me.kind, s, me.pc)
    decreases |ls|
  {
    var n := |ls| - 1;
    LastStep(conf, ls);
    RunInv(conf, ls[..n]);
    var w, me := After(conf, ls[..n]), After(conf, ls).procs[p];
    EntersChosen(w, ls[n], p);
    if Chose(w.procs[p]) {
      ChoiceWasMade(conf, ls[..n], p);
      var i, s :| 0 <= i < n && Chooses(conf, ls[..n], i, p, s) && Follows(w.procs[p].kind, s, w.procs[p].pc);
      assert ls[..n][..i] == ls[..i];
      StepFollows(w, ls[n], p, s);
      assert Chooses(conf, ls, i, p, s) && Follows(me.kind, s, me.pc);
    } else {
      var s := w.procs[p].mem.status;
      assert ProcOk(w.k, w.procs[p]);
      ChoiceMoveFollows(w.k, w.procs[p], ls[n].ok);
      assert Chooses(conf, ls, n, p, s) && Follows(me.kind, s, me.pc);
    }
  }

  lemma ChosenWasLearned(conf: Config, ls: seq<Label>, i: nat, p: ProcId, s: Status)
    requires i < |ls| && Chooses(conf, ls, i, p, s)
    ensures Learned(conf, ls, p, s) && (s == Created || s == Running || s == Stopped)
  {
    StatusHasCause(conf, ls[..i], p, s);
    LearnedBefore(conf, ls, i, p, s);
    RunInv(conf, ls[..i]);
    assert ProcOk(After(conf, ls[..i]).k, After(conf, ls[..i]).procs[p]);
  }

  /**
   Every start and delete acts on a status it has learned in the run, and does what is due for it:
   it starts, kills, destroys or refuses exactly as `Follows` says.
   */
  lemma AnswerIsDue(conf: Config, ls: seq<Label>, p: ProcId)
    requires IsRun(conf, ls) && p in After(conf, ls).procs && Chose(After(conf, ls).procs[p])
    ensures var me := After(conf, ls).procs[p];
            exists s :: Learned(conf, ls, p, s) && Follows(me.kind, s, me.pc)
                        && (s == Created || s == Running || s == Stopped)
  {
    ChoiceWasMade(conf, ls, p);
    var me := After(conf, ls).procs[p];
    var i, s :| 0 <= i < |ls| && Chooses(conf, ls, i, p, s) && Follows(me.kind, s, me.pc);
    ChosenWasLearned(conf, ls, i, p, s);
  }

  /** And `state` reports a status it has learned. */
  lemma ReportIsDue(conf: Config, ls: seq<Label>, p: ProcId, s: Status)
    requires IsRun(conf, ls) && p in After(conf, ls).procs && After(conf, ls).procs[p].pc == Done(Report(s))
    ensures Learned(conf, ls, p, s)
  {
    StatusHasCause(conf, ls, p, s);
  }

  /** A delete without force signals init only if state.json said Created and init was there at its probe. */
  lemma UnforcedKillNeedsCreated(conf: Config, ls: seq<Label>, p: ProcId)
    requires IsRun(conf, ls) && p in After(conf, ls).procs && After(conf, ls).procs[p].kind == DeleteCmd(false)
    requires After(conf, ls).procs[p].pc.Kill? || After(conf, ls).procs[p].pc.KillProbe?
    ensures Learned(conf, ls, p, Created)
  {
    AnswerIsDue(conf, ls, p);
  }

  /** A delete is refused only without force, and only if state.json said Running and init was there at its probe. */
  lemma RefusalNeedsRunning(conf: Config, ls: seq<Label>, p: ProcId)
    requires IsRun(conf, ls) && p in After(conf, ls).procs
    requires After(conf, ls).procs[p].kind.DeleteCmd? && After(conf, ls).procs[p].pc == Done(NotStopped)
    ensures After(conf, ls).procs[p].kind == DeleteCmd(false) && Learned(conf, ls, p, Running)
  {
    AnswerIsDue(conf, ls, p);
  }

  predicate OnItsWay(me: Proc, kind: Kind, s: Status) {
    me.kind == kind && ((me.pc == Dispatch && me.mem.status == s) || me.pc.Crashed? || Follows(kind, s, me.pc))
  }

  lemma StepKeepsOnItsWay(w: World, l: Label, p: ProcId, kind: Kind, s: Status)
    requires Step(w, l).Some? && p in w.procs && OnItsWay(w.procs[p], kind, s) && !kind.StateCmd?
    ensures p in Step(w, l).value.procs && OnItsWay(Step(w, l).value.procs[p], kind, s)
  {
    if Follows(kind, s, w.procs[p].pc) { StepFollows(w, l, p, s); }
    else if l.Act? && l.p == p && w.procs[p].pc == Dispatch { ChoiceMoveFollows(w.k, w.procs[p], l.ok); }
  }

  lemma {:induction false} RunKeepsOnItsWay(w: World, ls: seq<Label>, p: ProcId, kind: Kind, s: Status)
    requires Exec(w, ls).Some? && p in w.procs && OnItsWay(w.procs[p], kind, s) && !kind.StateCmd?
    ensures p in Exec(w, ls).value.procs && OnItsWay(Exec(w, ls).value.procs[p], kind, s)
    decreases |ls|
  {
    if ls != [] {
      StepKeepsOnItsWay(w, ls[0], p, kind, s);
      RunKeepsOnItsWay(Step(w, ls[0]).value, ls[1..], p, kind, s);
    }
  }

  /** In every continuation of a run, a command that is about to choose ends as its status demands, unless it is killed. */
  lemma ChoiceDecides(conf: Config, before: seq<Label>, p: ProcId, after: seq<Label>, o: Outcome)
    requires IsRun(conf, before) && IsRun(conf, before + after) && p in After(conf, before).procs
    requires After(conf, before).procs[p].pc == Dispatch && !After(conf, before).procs[p].kind.StateCmd?
    requires p in After(conf, before + after).procs && After(conf, before + after).procs[p].pc == Done(o)
    ensures var me := After(conf, before).procs[p];
            var s := me.mem.status;
            && Follows(me.kind, s, Done(o))
            && (o == NotStopped <==> me.kind == DeleteCmd(false) && s != Created && s != Stopped)
            && (o == HasStopped <==> me.kind == StartCmd && s == Stopped)
            && (o == Started ==> me.kind == StartCmd && s == Created)
  {
    var w, me := After(conf, before), After(conf, before).procs[p];
    ExecAppend(Fresh(conf), before, after);
    RunKeepsOnItsWay(w, after, p, me.kind, me.mem.status);
  }

  // ---------------------------------------------------------------- why a command fails

  /** The process ends `o`, or has nothing left to do but to clean up first. */
  predicate Heads(me: Proc, o: Outcome) {
    && (me.pc == Done(o) || me.pc == Close(o) || (o == NotExists && me.pc == RemoveOrphan))
    && match o
       case AlreadyRunning => me.mem.status == Created
       case LoadFailed => true
       case NotExists => true
       case OpenFailed => true
       case ReadFailed => true
       case StillRunning => true
       case _ => false
  }

  /** The call that decides it fails, or finds what it should not. */
  predicate Spoils(k: Kernel, me: Proc, ok: bool, o: Outcome) {
    match o
    case LoadFailed => me.pc == Load && !ok
    case NotExists => me.pc == Load && ok && k.file.None?
    case OpenFailed => me.pc == Arrive && (!ok || !k.fifo.linked)
    case ReadFailed => me.pc.Reading? && !ok
    case AlreadyRunning => me.pc == Reading(0) && ok && k.fifo.buffer == 0 && !k.fifo.writer
    case StillRunning => me.pc.KillProbe? && me.pc.i == 100
    case _ => false
  }

  /** Step `i` of the run is a call of process `p` that decides for `o`. */
  ghost predicate SpoilsAt(conf: Config, ls: seq<Label>, i: nat, p: ProcId, o: Outcome)
    requires i < |ls|
  {
    && ls[i].Act? && ls[i].p == p && IsRun(conf, ls[..i])
    && var w := After(conf, ls[..i]);
       p in w.procs && Spoils(w.k, w.procs[p], ls[i].ok, o)
  }

  lemma StatusMoveHeads(k: Kernel, me: Proc, ok: bool, o: Outcome)
    requires InStatus(me.pc) && Heads(StatusStep(k, me, ok).value.me, o)
    ensures Spoils(k, me, ok, o)
  {
  }

  lemma ExecMoveHeads(k: Kernel, p: ProcId, me: Proc, ok: bool, o: Outcome)
    requires InExec(me.pc) && ExecStep(k, p, me, ok).Some? && Heads(ExecStep(k, p, me, ok).value.me, o)
    ensures Heads(me, o) || Spoils(k, me, ok, o)
  {
  }

  lemma DeleteMoveHeads(k: Kernel, me: Proc, ok: bool, o: Outcome)
    requires ProcOk(k, me) && InDelete(me.pc) && Heads(DeleteStep(k, me, ok).value.me, o)
    ensures Heads(me, o) || Spoils(k, me, ok, o)
  {
  }

  lemma EntersHeading(w: World, l: Label, p: ProcId, o: Outcome)
    requires Inv(w) && Step(w, l).Some? && p in Step(w, l).value.procs && Heads(Step(w, l).value.procs[p], o)
    ensures p in w.procs
    ensures Heads(w.procs[p], o) || (l.Act? && l.p == p && Spoils(w.k, w.procs[p], l.ok, o))
  {
    if l.Act? && l.p == p {
      var me := w.procs[p];
      assert ProcOk(w.k, me);
      if InStatus(me.pc) { StatusMoveHeads(w.k, me, l.ok, o); }
      else if InExec(me.pc) { ExecMoveHeads(w.k, p, me, l.ok, o); }
      else { DeleteMoveHeads(w.k, me, l.ok, o); }
    }
  }

  /**
   A command that fails has met the failure: the load, the open or a read failed, there was no state.json
   or no FIFO, the FIFO ended without a byte, or init answered a hundred probes.
   */
  lemma {:induction false} FailureHasCause(conf: Config, ls: seq<Label>, p: ProcId, o: Outcome)
    requires IsRun(conf, ls) && p in After(conf, ls).procs && Heads(After(conf, ls).procs[p], o)
    ensures exists i :: 0 <= i < |ls| && SpoilsAt(conf, ls, i, p, o)
    decreases |ls|
  {
    var n := |ls| - 1;
    LastStep(conf, ls);
    RunInv(conf, ls[..n]);
    EntersHeading(After(conf, ls[..n]), ls[n], p, o);
    if Heads(After(conf, ls[..n]).procs[p], o) {
      FailureHasCause(conf, ls[..n], p, o);
      var i :| 0 <= i < n && SpoilsAt(conf, ls[..n], i, p, o);
      assert ls[..n][..i] == ls[..i];
      assert SpoilsAt(conf, ls, i, p, o);
    } else {
      assert SpoilsAt(conf, ls, n, p, o);
    }
  }
}

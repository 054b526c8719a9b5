/**
 Creates and destroys of different containers at the same time: every call that makes or removes a
 directory or a link is a step of its own, and what a command has in hand is held by its task.
 */
module Interleaving {
  import opened Common
  import opened State
  import opened Resources
  import opened Conservation

  type TaskId = nat

  /** How far a command has got; `over` is set when it has failed and left what it holds. */
  datatype Task =
    | Wants(id: string)
    | HasDir(p: Path, id: string, over: bool)
    | HasBoth(p: Path, tap: string, id: string, over: bool)
    | Starting(p: Path, tap: string)
    | Saving(p: Path, tap: string)
    | Loaded(p: Path, recorded: Option<string>)
    | HasTap(tap: string, over: bool)
    | Ended

  /** A directory that belongs to this task and to no container. */
  function DirOf(t: Task): Option<Path> {
    if t.HasDir? || t.HasBoth? then Some(t.p) else None
  }

  function TapHeld(t: Task): Option<string> {
    if t.HasBoth? || t.HasTap? then Some(t.tap) else None
  }

  /** The container directory a running task works on. */
  function Busy(root: Path, t: Task): Option<Path> {
    match t
    case Wants(id) => Some(ContainerRoot(root, id))
    case HasDir(p, _, over) => if over then None else Some(p)
    case HasBoth(p, _, _, over) => if over then None else Some(p)
    case Starting(p, _) => Some(p)
    case Saving(p, _) => Some(p)
    case Loaded(p, _) => Some(p)
    case _ => None
  }

  function DirsHeld(tasks: map<TaskId, Task>): (ds: set<Path>)
    ensures forall p :: p in ds <==> exists k :: k in tasks && DirOf(tasks[k]) == Some(p)
  {
    set k | k in tasks && DirOf(tasks[k]).Some? :: DirOf(tasks[k]).value
  }

  function TapsHeld(tasks: map<TaskId, Task>): (ts: set<string>)
    ensures forall t :: t in ts <==> exists k :: k in tasks && TapHeld(tasks[k]) == Some(t)
  {
    set k | k in tasks && TapHeld(tasks[k]).Some? :: TapHeld(tasks[k]).value
  }

  datatype Site = Site(s: Store, live: map<Path, string>, tasks: map<TaskId, Task>)

  /** What is not a container's is in some task's hands. */
  function BooksOf(w: Site): Books {
    Books(w.live, DirsHeld(w.tasks), TapsHeld(w.tasks))
  }

  predicate Idle(root: Path, tasks: map<TaskId, Task>, p: Path) {
    forall k | k in tasks :: Busy(root, tasks[k]) != Some(p)
  }

  // ---------------------------------------------------------------- steps

  /**
   A create makes its directory, then, with whatever else it needs in between, its link, brings the
   link up, starts init, and saves its state, which may fail unnoticed; when the start fails it goes
   on as a destroy, which removes the directory and then the link it has recorded.
   A move is what the next of these calls does to the store, the containers and the task.
   */
  datatype Move = Move(s: Store, live: map<Path, string>, task: Task)

  function Next(root: Path, s: Store, live: map<Path, string>, t: Task, ok: bool): Option<Move> {
    match t
    case Wants(id) =>
      var p := ContainerRoot(root, id);
      if ok && Available(s, root, id) then Some(Move(s.(dirs := s.dirs[p := None]), live, HasDir(p, id, false)))
      else Some(Move(s, live, Ended))
    case HasDir(p, id, over) =>
      var tap := TapName(id);
      if over then None
      else if ok && tap.Some? && tap.value !in s.taps then
        Some(Move(s.(taps := s.taps + {tap.value}), live, HasBoth(p, tap.value, id, false)))
      else Some(Move(s, live, HasDir(p, id, true)))
    case HasBoth(p, tap, id, over) =>
      if over then None
      else if ok then Some(Move(s, live[p := tap], Starting(p, tap)))
      else Some(Move(s, live, HasBoth(p, tap, id, true)))
    case Starting(p, tap) => Some(Move(s, live, if ok then Saving(p, tap) else Loaded(p, Some(tap))))
    case Saving(p, tap) => Some(Move(if ok then DoSave(s, p, NewRecord(p, tap, false)) else s, live, Ended))
    case Loaded(p, recorded) =>
      if !ok then Some(Move(s, live, Ended))
      else
        Some(Move(s.(dirs := s.dirs - Tree(s, p)), live - {p}, if recorded.Some? then HasTap(recorded.value, false) else Ended))
    case HasTap(tap, over) =>
      if over then None
      else if ok then Some(Move(s.(taps := s.taps - {tap}), live, Ended))
      else Some(Move(s, live, HasTap(tap, true)))
    case Ended => None
  }

  datatype Label =
    | Create(k: TaskId, id: string)      // a create command begins
    | Destroy(k: TaskId, p: Path)        // a destroy command has loaded the container
    | Act(k: TaskId, ok: bool)           // a command makes its next call
    | Sweep(k: TaskId)                   // a delete removes what a failed create has left
    | SweepLive(k: TaskId, p: Path)      // a delete removes a container's directory without state.json

  /** Commands on one directory do not overlap; commands on different ones do as they like. */
  function Step(root: Path, w: Site, l: Label): Option<Site> {
    match l
    case Create(k, id) =>
      if k in w.tasks || !Idle(root, w.tasks, ContainerRoot(root, id)) then None
      else Some(w.(tasks := w.tasks[k := Wants(id)]))
    case Destroy(k, p) =>
      if k in w.tasks || !Idle(root, w.tasks, p) || p !in w.live || !Loads(w.s, p) then None
      else Some(w.(tasks := w.tasks[k := Loaded(p, TapOf(w.s.dirs[p].value))]))
    case Act(k, ok) =>
      if k !in w.tasks then None else
        var m := Next(root, w.s, w.live, w.tasks[k], ok);
        if m.None? then None else Some(Site(m.value.s, m.value.live, w.tasks[k := m.value.task]))
    case Sweep(k) =>
      if k !in w.tasks then None else
        (match w.tasks[k]
        case HasDir(p, _, true) => Some(w.(s := w.s.(dirs := w.s.dirs - Tree(w.s, p)), tasks := w.tasks[k := Ended]))
        case HasBoth(p, tap, _, true) =>
          Some(w.(s := w.s.(dirs := w.s.dirs - Tree(w.s, p)), tasks := w.tasks[k := HasTap(tap, true)]))
        case _ => None)
    case SweepLive(k, p) =>
      if k in w.tasks || !Idle(root, w.tasks, p) || p !in w.live || Loads(w.s, p) then None
      else Some(Site(w.s.(dirs := w.s.dirs - Tree(w.s, p)), w.live - {p}, w.tasks[k := HasTap(w.live[p], true)]))
  }

  function Exec(root: Path, w: Site, ls: seq<Label>): Option<Site>
    decreases |ls|
  {
    if ls == [] then Some(w)
    else
      var v := Step(root, w, ls[0]);
      if v.None? then None else Exec(root, v.value, ls[1..])
  }

  // ---------------------------------------------------------------- the invariant

  predicate TaskOk(root: Path, live: map<Path, string>, t: Task) {
    match t
    case HasDir(p, id, _) => p != [] && p[|p| - 1] == id && p !in live
    case HasBoth(p, tap, id, _) => p != [] && p[|p| - 1] == id && TapName(id) == Some(tap) && p !in live
    case Starting(p, tap) => p in live && live[p] == tap
    case Saving(p, tap) => p in live && live[p] == tap
    case Loaded(p, recorded) => p in live && recorded == Some(live[p])
    case _ => true
  }

  /** No two tasks work on one directory, or hold one directory or link. */
  ghost predicate TasksApart(root: Path, tasks: map<TaskId, Task>) {
    && HandsApart(tasks)
    && forall j, k | j in tasks && k in tasks && j != k && Busy(root, tasks[j]).Some? ::
         Busy(root, tasks[j]) != Busy(root, tasks[k])
  }

  ghost predicate HandsApart(tasks: map<TaskId, Task>) {
    && (forall j, k | j in tasks && k in tasks && j != k && DirOf(tasks[j]).Some? :: DirOf(tasks[j]) != DirOf(tasks[k]))
    && (forall j, k | j in tasks && k in tasks && j != k && TapHeld(tasks[j]).Some? :: TapHeld(tasks[j]) != TapHeld(tasks[k]))
  }

  ghost predicate Inv(root: Path, w: Site, foreign: set<string>) {
    && Balanced(w.s, BooksOf(w), foreign) && Housed(root, w.s)
    && TasksApart(root, w.tasks)
    && forall k | k in w.tasks :: TaskOk(root, w.live, w.tasks[k])
  }

  function Was(tasks: map<TaskId, Task>, k: TaskId): Task {
    if k in tasks then tasks[k] else Ended
  }

  function Of<T>(x: Option<T>): set<T> {
    if x.Some? then {x.value} else {}
  }

  /** Which directories are held once one task has changed. */
  lemma DirsChange(tasks: map<TaskId, Task>, k: TaskId, t: Task)
    requires HandsApart(tasks)
    ensures DirsHeld(tasks[k := t]) == DirsHeld(tasks) - Of(DirOf(Was(tasks, k))) + Of(DirOf(t))
  {
    var more := tasks[k := t];
    forall p | p in DirsHeld(tasks) && DirOf(Was(tasks, k)) != Some(p) ensures p in DirsHeld(more) {
      var j :| j in tasks && DirOf(tasks[j]) == Some(p);
      assert j != k && more[j] == tasks[j];
    }
    forall p | p in DirsHeld(more) && DirOf(t) != Some(p)
      ensures p in DirsHeld(tasks) && DirOf(Was(tasks, k)) != Some(p)
    {
      var j :| j in more && DirOf(more[j]) == Some(p);
      assert j != k && tasks[j] == more[j];
    }
    assert more[k] == t;
  }

  lemma TapsChange(tasks: map<TaskId, Task>, k: TaskId, t: Task)
    requires HandsApart(tasks)
    ensures TapsHeld(tasks[k := t]) == TapsHeld(tasks) - Of(TapHeld(Was(tasks, k))) + Of(TapHeld(t))
  {
    var more := tasks[k := t];
    forall x | x in TapsHeld(tasks) && TapHeld(Was(tasks, k)) != Some(x) ensures x in TapsHeld(more) {
      var j :| j in tasks && TapHeld(tasks[j]) == Some(x);
      assert j != k && more[j] == tasks[j];
    }
    forall x | x in TapsHeld(more) && TapHeld(t) != Some(x)
      ensures x in TapsHeld(tasks) && TapHeld(Was(tasks, k)) != Some(x)
    {
      var j :| j in more && TapHeld(more[j]) == Some(x);
      assert j != k && tasks[j] == more[j];
    }
    assert more[k] == t;
  }

  // ---------------------------------------------------------------- the books after each call

  /** Books in which the task `t` has handed over what it held to what `u` holds. */
  function Handed(b: Books, live: map<Path, string>, t: Task, u: Task): Books {
    Books(live, b.strayDirs - Of(DirOf(t)) + Of(DirOf(u)), b.strayTaps - Of(TapHeld(t)) + Of(TapHeld(u)))
  }

  lemma BooksChange(w: Site, v: Site, k: TaskId, t: Task)
    requires HandsApart(w.tasks) && v.tasks == w.tasks[k := t]
    ensures BooksOf(v) == Handed(BooksOf(w), v.live, Was(w.tasks, k), t)
  {
    DirsChange(w.tasks, k, t);
    TapsChange(w.tasks, k, t);
  }

  predicate InHand(b: Books, t: Task) {
    Of(DirOf(t)) <= b.strayDirs && Of(TapHeld(t)) <= b.strayTaps
  }

  lemma CommitTaps(taps: set<string>, b: Books, foreign: set<string>, p: Path, tap: string)
    requires TapsBalance(taps, b, foreign) && p !in b.live && tap in b.strayTaps
    ensures TapsBalance(taps, Books(b.live[p := tap], b.strayDirs - {p}, b.strayTaps - {tap}), foreign)
  {
    TapsWith(b.live, p, tap);
    assert forall q | q in b.live :: b.live[q] in TapsOf(b.live);
  }

  /** A directory and a link in hand become a container's. */
  lemma CommitBalances(s: Store, b: Books, foreign: set<string>, p: Path, tap: string)
    requires Balanced(s, b, foreign) && p in b.strayDirs && tap in b.strayTaps
    requires p != [] && TapName(p[|p| - 1]) == Some(tap)
    ensures Balanced(s, Books(b.live[p := tap], b.strayDirs - {p}, b.strayTaps - {tap}), foreign)
  {
    CommitTaps(s.taps, b, foreign, p, tap);
    CommitDirs(s.dirs, b, p, tap);
  }

  lemma CommitDirs(dirs: map<Path, Option<Record>>, b: Books, p: Path, tap: string)
    requires DirsBalance(dirs, b) && NamesBalance(dirs, b) && p in b.strayDirs
    requires p != [] && TapName(p[|p| - 1]) == Some(tap)
    ensures var c := Books(b.live[p := tap], b.strayDirs - {p}, b.strayTaps - {tap});
            DirsBalance(dirs, c) && NamesBalance(dirs, c)
  {
  }

  /** A directory in hand is removed. */
  lemma DropDirBalances(s: Store, b: Books, foreign: set<string>, p: Path)
    requires Balanced(s, b, foreign) && p in b.strayDirs
    ensures Balanced(s.(dirs := s.dirs - {p}), b.(strayDirs := b.strayDirs - {p}), foreign)
  {
  }

  /** A container's directory is removed, and its link is in hand. */
  lemma UnhouseBalances(s: Store, b: Books, foreign: set<string>, p: Path)
    requires Balanced(s, b, foreign) && p in b.live
    ensures Balanced(s.(dirs := s.dirs - {p}), Books(b.live - {p}, b.strayDirs, b.strayTaps + {b.live[p]}), foreign)
  {
    StrikeBalances(s, b, foreign, {p});
    assert StrikeAll(b, {p}) == Books(b.live - {p}, b.strayDirs, b.strayTaps + {b.live[p]});
  }

  /** A container directory has no other below it. */
  lemma OwnTree(root: Path, s: Store, p: Path)
    requires Housed(root, s) && p in s.dirs
    ensures Tree(s, p) == {p}
  {
    TreeOfChild(root, s, p);
  }

  /** The books once the directory of `p` is gone and its link is in hand. */
  function Unhoused(b: Books, p: Path): Books
    requires p in b.live
  {
    Books(b.live - {p}, b.strayDirs, b.strayTaps + {b.live[p]})
  }

  lemma HandedUnhoused(b: Books, p: Path, t: Task, over: bool)
    requires p in b.live && DirOf(t).None? && TapHeld(t).None?
    ensures Handed(b, b.live - {p}, t, HasTap(b.live[p], over)) == Unhoused(b, p)
  {
  }

  lemma UnhouseTree(root: Path, s: Store, b: Books, foreign: set<string>, p: Path)
    requires Balanced(s, b, foreign) && Housed(root, s) && p in b.live
    ensures Balanced(s.(dirs := s.dirs - Tree(s, p)), Unhoused(b, p), foreign)
  {
    OwnTree(root, s, p);
    UnhouseBalances(s, b, foreign, p);
  }

  lemma SaveBalances(s: Store, b: Books, foreign: set<string>, p: Path, r: Record)
    requires Balanced(s, b, foreign) && p in b.live && TapOf(r) == Some(b.live[p])
    ensures Balanced(DoSave(s, p, r), b, foreign)
  {
  }

  lemma SameHands(b: Books, t: Task, u: Task)
    requires InHand(b, t) && DirOf(u) == DirOf(t) && TapHeld(u) == TapHeld(t)
    ensures Handed(b, b.live, t, u) == b
  {
  }

  lemma MakeDirBalances(root: Path, s: Store, b: Books, foreign: set<string>, t: Task, ok: bool)
    requires Balanced(s, b, foreign) && t.Wants? && InHand(b, t)
    ensures var m := Next(root, s, b.live, t, ok).value; Balanced(m.s, Handed(b, m.live, t, m.task), foreign)
  {
    var m := Next(root, s, b.live, t, ok).value;
    if m.task.HasDir? {
      StrayDirBalances(s, b, foreign, m.task.p);
      assert Handed(b, m.live, t, m.task) == b.(strayDirs := b.strayDirs + {m.task.p});
    } else {
      SameHands(b, t, m.task);
    }
  }

  lemma MakeTapBalances(root: Path, s: Store, b: Books, foreign: set<string>, t: Task, ok: bool)
    requires Balanced(s, b, foreign) && t.HasDir? && !t.over && InHand(b, t)
    ensures var m := Next(root, s, b.live, t, ok).value; Balanced(m.s, Handed(b, m.live, t, m.task), foreign)
  {
    var m := Next(root, s, b.live, t, ok).value;
    if m.task.HasBoth? {
      StrayTapBalances(s, b, foreign, m.task.tap);
      assert Handed(b, m.live, t, m.task) == b.(strayTaps := b.strayTaps + {m.task.tap});
    } else {
      SameHands(b, t, m.task);
    }
  }

  lemma HandedCommitted(b: Books, t: Task, u: Task)
    requires t.HasBoth? && DirOf(u).None? && TapHeld(u).None?
    ensures Handed(b, b.live[t.p := t.tap], t, u) ==
            Books(b.live[t.p := t.tap], b.strayDirs - {t.p}, b.strayTaps - {t.tap})
  {
  }

  lemma LinkUpBalances(root: Path, s: Store, b: Books, foreign: set<string>, t: Task, ok: bool)
    requires Balanced(s, b, foreign) && t.HasBoth? && !t.over && InHand(b, t) && TaskOk(root, b.live, t)
    ensures var m := Next(root, s, b.live, t, ok).value; Balanced(m.s, Handed(b, m.live, t, m.task), foreign)
  {
    var m := Next(root, s, b.live, t, ok).value;
    if m.task.Starting? {
      CommitBalances(s, b, foreign, t.p, t.tap);
      HandedCommitted(b, t, m.task);
    } else {
      SameHands(b, t, m.task);
    }
  }

  lemma SaveStepBalances(root: Path, s: Store, b: Books, foreign: set<string>, t: Task, ok: bool)
    requires Balanced(s, b, foreign) && (t.Starting? || t.Saving?) && InHand(b, t) && TaskOk(root, b.live, t)
    ensures var m := Next(root, s, b.live, t, ok).value; Balanced(m.s, Handed(b, m.live, t, m.task), foreign)
  {
    if t.Saving? && ok { SaveBalances(s, b, foreign, t.p, NewRecord(t.p, t.tap, false)); }
    SameHands(b, t, Next(root, s, b.live, t, ok).value.task);
  }

  lemma UnhouseStepBalances(root: Path, s: Store, b: Books, foreign: set<string>, t: Task, ok: bool)
    requires Balanced(s, b, foreign) && Housed(root, s) && t.Loaded? && InHand(b, t) && TaskOk(root, b.live, t)
    ensures var m := Next(root, s, b.live, t, ok).value; Balanced(m.s, Handed(b, m.live, t, m.task), foreign)
  {
    var m := Next(root, s, b.live, t, ok).value;
    if m.task.HasTap? {
      UnhouseTree(root, s, b, foreign, t.p);
      HandedUnhoused(b, t.p, t, false);
    } else {
      SameHands(b, t, m.task);
    }
  }

  lemma DeleteLinkBalances(root: Path, s: Store, b: Books, foreign: set<string>, t: Task, ok: bool)
    requires Balanced(s, b, foreign) && t.HasTap? && !t.over && InHand(b, t)
    ensures var m := Next(root, s, b.live, t, ok).value; Balanced(m.s, Handed(b, m.live, t, m.task), foreign)
  {
    var m := Next(root, s, b.live, t, ok).value;
    if ok {
      DropTapBalances(s, b, foreign, t.tap);
      assert Handed(b, m.live, t, m.task) == b.(strayTaps := b.strayTaps - {t.tap});
    } else {
      SameHands(b, t, m.task);
    }
  }

  lemma MoveBalances(root: Path, w: Site, foreign: set<string>, k: TaskId, ok: bool)
    requires Inv(root, w, foreign) && k in w.tasks && Next(root, w.s, w.live, w.tasks[k], ok).Some?
    ensures var m := Next(root, w.s, w.live, w.tasks[k], ok).value;
            Balanced(m.s, BooksOf(Site(m.s, m.live, w.tasks[k := m.task])), foreign)
  {
    var t, b := w.tasks[k], BooksOf(w);
    var m := Next(root, w.s, w.live, t, ok).value;
    BooksChange(w, Site(m.s, m.live, w.tasks[k := m.task]), k, m.task);
    Holding(w, k);
    assert TaskOk(root, w.live, t);
    match t
    case Wants(_) => MakeDirBalances(root, w.s, b, foreign, t, ok);
    case HasDir(_, _, _) => MakeTapBalances(root, w.s, b, foreign, t, ok);
    case HasBoth(_, _, _, _) => LinkUpBalances(root, w.s, b, foreign, t, ok);
    case Starting(_, _) => SaveStepBalances(root, w.s, b, foreign, t, ok);
    case Saving(_, _) => SaveStepBalances(root, w.s, b, foreign, t, ok);
    case Loaded(_, _) => UnhouseStepBalances(root, w.s, b, foreign, t, ok);
    case HasTap(_, _) => DeleteLinkBalances(root, w.s, b, foreign, t, ok);
  }

  // ---------------------------------------------------------------- tasks stay apart

  lemma DirHeldOnce(tasks: map<TaskId, Task>, k: TaskId, u: Task, j: TaskId)
    requires DirOf(u).Some? ==> DirOf(u) == DirOf(Was(tasks, k)) || DirOf(u).value !in DirsHeld(tasks)
    requires HandsApart(tasks) && j in tasks && j != k && DirOf(u).Some?
    ensures DirOf(u) != DirOf(tasks[j])
  {
    assert DirOf(tasks[j]).Some? ==> DirOf(tasks[j]).value in DirsHeld(tasks);
  }

  lemma TapHeldOnce(tasks: map<TaskId, Task>, k: TaskId, u: Task, j: TaskId)
    requires TapHeld(u).Some? ==> TapHeld(u) == TapHeld(Was(tasks, k)) || TapHeld(u).value !in TapsHeld(tasks)
    requires HandsApart(tasks) && j in tasks && j != k && TapHeld(u).Some?
    ensures TapHeld(u) != TapHeld(tasks[j])
  {
    assert TapHeld(tasks[j]).Some? ==> TapHeld(tasks[j]).value in TapsHeld(tasks);
  }

  /** A task that takes in hand only what nobody holds leaves all hands apart. */
  lemma HeldOnce(tasks: map<TaskId, Task>, k: TaskId, u: Task)
    requires HandsApart(tasks)
    requires DirOf(u).Some? ==> DirOf(u) == DirOf(Was(tasks, k)) || DirOf(u).value !in DirsHeld(tasks)
    requires TapHeld(u).Some? ==> TapHeld(u) == TapHeld(Was(tasks, k)) || TapHeld(u).value !in TapsHeld(tasks)
    ensures HandsApart(tasks[k := u])
  {
    forall j | j in tasks && j != k && DirOf(u).Some? ensures DirOf(u) != DirOf(tasks[j]) { DirHeldOnce(tasks, k, u, j); }
    forall j | j in tasks && j != k && TapHeld(u).Some? ensures TapHeld(u) != TapHeld(tasks[j]) { TapHeldOnce(tasks, k, u, j); }
  }

  lemma StaysApart(root: Path, tasks: map<TaskId, Task>, k: TaskId, u: Task)
    requires TasksApart(root, tasks) && HandsApart(tasks[k := u])
    requires Busy(root, u).None? || Busy(root, u) == Busy(root, Was(tasks, k)) || Idle(root, tasks, Busy(root, u).value)
    ensures TasksApart(root, tasks[k := u])
  {
  }

  /** What the next call of a task takes in hand is in nobody's hands, and it goes on with its own directory. */
  lemma MoveTakesFree(root: Path, s: Store, b: Books, foreign: set<string>, t: Task, ok: bool)
    requires DirsBalance(s.dirs, b) && TapsBalance(s.taps, b, foreign) && TaskOk(root, b.live, t)
    requires Next(root, s, b.live, t, ok).Some?
    ensures var u := Next(root, s, b.live, t, ok).value.task;
            && (DirOf(u).Some? ==> DirOf(u) == DirOf(t) || DirOf(u).value !in b.strayDirs)
            && (TapHeld(u).Some? ==> TapHeld(u) == TapHeld(t) || TapHeld(u).value !in b.strayTaps)
            && (Busy(root, u).None? || Busy(root, u) == Busy(root, t))
  {
    if t.Loaded? { assert b.live[t.p] in TapsOf(b.live); }
  }

  lemma MovedTaskOk(root: Path, s: Store, b: Books, t: Task, ok: bool)
    requires DirsBalance(s.dirs, b) && TaskOk(root, b.live, t) && Next(root, s, b.live, t, ok).Some?
    ensures var m := Next(root, s, b.live, t, ok).value; TaskOk(root, m.live, m.task)
  {
    if t.Wants? && ValidId(t.id) && !(ContainerRoot(root, t.id) <= root) { NameOfRoot(root, t.id); }
  }

  /** A container that a call makes or ends is no other task's business. */
  lemma OtherTaskOk(root: Path, s: Store, live: map<Path, string>, t: Task, ok: bool, other: Task)
    requires Next(root, s, live, t, ok).Some? && TaskOk(root, live, t) && TaskOk(root, live, other)
    requires DirOf(t).Some? ==> DirOf(t) != DirOf(other)
    requires Busy(root, t).Some? ==> Busy(root, t) != Busy(root, other)
    ensures TaskOk(root, Next(root, s, live, t, ok).value.live, other)
  {
  }

  lemma ActApart(root: Path, w: Site, foreign: set<string>, k: TaskId, ok: bool)
    requires Inv(root, w, foreign) && k in w.tasks && Next(root, w.s, w.live, w.tasks[k], ok).Some?
    ensures TasksApart(root, w.tasks[k := Next(root, w.s, w.live, w.tasks[k], ok).value.task])
  {
    var u := Next(root, w.s, w.live, w.tasks[k], ok).value.task;
    MoveTakesFree(root, w.s, BooksOf(w), foreign, w.tasks[k], ok);
    HeldOnce(w.tasks, k, u);
    StaysApart(root, w.tasks, k, u);
  }

  lemma ActTasksOk(root: Path, w: Site, k: TaskId, ok: bool)
    requires DirsBalance(w.s.dirs, BooksOf(w)) && TasksApart(root, w.tasks)
    requires forall j | j in w.tasks :: TaskOk(root, w.live, w.tasks[j])
    requires k in w.tasks && Next(root, w.s, w.live, w.tasks[k], ok).Some?
    ensures var m := Next(root, w.s, w.live, w.tasks[k], ok).value;
            TaskOk(root, m.live, m.task) && forall j | j in w.tasks && j != k :: TaskOk(root, m.live, w.tasks[j])
  {
    var m := Next(root, w.s, w.live, w.tasks[k], ok).value;
    MovedTaskOk(root, w.s, BooksOf(w), w.tasks[k], ok);
    forall j | j in w.tasks && j != k ensures TaskOk(root, m.live, w.tasks[j]) {
      OtherTaskOk(root, w.s, w.live, w.tasks[k], ok, w.tasks[j]);
    }
  }

  lemma MoveHouses(root: Path, s: Store, live: map<Path, string>, t: Task, ok: bool)
    requires Housed(root, s) && Next(root, s, live, t, ok).Some?
    ensures Housed(root, Next(root, s, live, t, ok).value.s)
  {
    if t.Wants? && ValidId(t.id) { RootOfId(root, t.id); }
  }

  lemma ActKeepsInv(root: Path, w: Site, foreign: set<string>, k: TaskId, ok: bool)
    requires Inv(root, w, foreign) && Step(root, w, Act(k, ok)).Some?
    ensures Inv(root, Step(root, w, Act(k, ok)).value, foreign)
  {
    MoveBalances(root, w, foreign, k, ok);
    MoveHouses(root, w.s, w.live, w.tasks[k], ok);
    ActApart(root, w, foreign, k, ok);
    ActTasksOk(root, w, k, ok);
  }

  lemma BeginKeepsInv(root: Path, w: Site, foreign: set<string>, k: TaskId, u: Task)
    requires Inv(root, w, foreign) && k !in w.tasks && DirOf(u).None? && TapHeld(u).None? && TaskOk(root, w.live, u)
    requires Busy(root, u).Some? && Idle(root, w.tasks, Busy(root, u).value)
    ensures Inv(root, w.(tasks := w.tasks[k := u]), foreign)
  {
    BooksChange(w, w.(tasks := w.tasks[k := u]), k, u);
    SameHands(BooksOf(w), Ended, u);
    HeldOnce(w.tasks, k, u);
    StaysApart(root, w.tasks, k, u);
  }

  /** What a swept task still holds. */
  function Left(t: Task): Task {
    if t.HasBoth? then HasTap(t.tap, true) else Ended
  }

  lemma SweepBalances(root: Path, s: Store, b: Books, foreign: set<string>, t: Task)
    requires Balanced(s, b, foreign) && Housed(root, s) && (t.HasDir? || t.HasBoth?) && InHand(b, t)
    ensures Balanced(s.(dirs := s.dirs - Tree(s, t.p)), Handed(b, b.live, t, Left(t)), foreign)
  {
    OwnTree(root, s, t.p);
    DropDirBalances(s, b, foreign, t.p);
    assert Handed(b, b.live, t, Left(t)) == b.(strayDirs := b.strayDirs - {t.p});
  }

  lemma SweepKeepsInv(root: Path, w: Site, foreign: set<string>, k: TaskId)
    requires Inv(root, w, foreign) && Step(root, w, Sweep(k)).Some?
    ensures Inv(root, Step(root, w, Sweep(k)).value, foreign)
  {
    var t := w.tasks[k];
    var v := Site(w.s.(dirs := w.s.dirs - Tree(w.s, t.p)), w.live, w.tasks[k := Left(t)]);
    assert Step(root, w, Sweep(k)) == Some(v);
    SweepApart(root, w, k, v);
    BooksChange(w, v, k, Left(t));
    Holding(w, k);
    SweepBalances(root, w.s, BooksOf(w), foreign, t);
  }

  lemma SweepApart(root: Path, w: Site, k: TaskId, v: Site)
    requires k in w.tasks && (w.tasks[k].HasDir? || w.tasks[k].HasBoth?) && TasksApart(root, w.tasks)
    requires v.live == w.live && v.tasks == w.tasks[k := Left(w.tasks[k])]
    requires forall j | j in w.tasks :: TaskOk(root, w.live, w.tasks[j])
    ensures TasksApart(root, v.tasks) && forall j | j in v.tasks :: TaskOk(root, v.live, v.tasks[j])
  {
    HeldOnce(w.tasks, k, Left(w.tasks[k]));
    StaysApart(root, w.tasks, k, Left(w.tasks[k]));
  }

  /** A task's hands are among the strays of the books. */
  lemma Holding(w: Site, k: TaskId)
    requires k in w.tasks
    ensures InHand(BooksOf(w), w.tasks[k])
  {
  }

  lemma SweepLiveApart(root: Path, w: Site, k: TaskId, p: Path)
    requires TasksApart(root, w.tasks) && k !in w.tasks && Idle(root, w.tasks, p) && p in w.live
    requires w.live[p] !in TapsHeld(w.tasks) && forall j | j in w.tasks :: TaskOk(root, w.live, w.tasks[j])
    ensures TasksApart(root, w.tasks[k := HasTap(w.live[p], true)])
    ensures forall j | j in w.tasks :: TaskOk(root, w.live - {p}, w.tasks[j])
  {
    HeldOnce(w.tasks, k, HasTap(w.live[p], true));
    StaysApart(root, w.tasks, k, HasTap(w.live[p], true));
    forall j | j in w.tasks ensures TaskOk(root, w.live - {p}, w.tasks[j]) {
      assert TaskOk(root, w.live, w.tasks[j]) && Busy(root, w.tasks[j]) != Some(p);
    }
  }

  lemma SweepLiveBooks(w: Site, v: Site, k: TaskId, p: Path)
    requires HandsApart(w.tasks) && k !in w.tasks && p in w.live
    requires v.live == w.live - {p} && v.tasks == w.tasks[k := HasTap(w.live[p], true)]
    ensures BooksOf(v) == Unhoused(BooksOf(w), p)
  {
    BooksChange(w, v, k, HasTap(w.live[p], true));
    HandedUnhoused(BooksOf(w), p, Ended, true);
  }

  lemma LiveTapNotHeld(taps: set<string>, b: Books, foreign: set<string>, p: Path)
    requires TapsBalance(taps, b, foreign) && p in b.live
    ensures b.live[p] !in b.strayTaps
  {
    assert b.live[p] in TapsOf(b.live);
  }

  /** The site after that delete. */
  function SweptLive(w: Site, k: TaskId, p: Path): Site
    requires p in w.live
  {
    Site(w.s.(dirs := w.s.dirs - Tree(w.s, p)), w.live - {p}, w.tasks[k := HasTap(w.live[p], true)])
  }

  lemma SweptLiveBalances(root: Path, w: Site, foreign: set<string>, k: TaskId, p: Path)
    requires Balanced(w.s, BooksOf(w), foreign) && Housed(root, w.s) && HandsApart(w.tasks) && k !in w.tasks && p in w.live
    ensures Balanced(SweptLive(w, k, p).s, BooksOf(SweptLive(w, k, p)), foreign) && Housed(root, SweptLive(w, k, p).s)
  {
    UnhouseTree(root, w.s, BooksOf(w), foreign, p);
    SweepLiveBooks(w, SweptLive(w, k, p), k, p);
  }

  lemma SweepLiveKeepsInv(root: Path, w: Site, foreign: set<string>, k: TaskId, p: Path)
    requires Inv(root, w, foreign) && k !in w.tasks && Idle(root, w.tasks, p) && p in w.live
    ensures Inv(root, SweptLive(w, k, p), foreign)
  {
    SweptLiveBalances(root, w, foreign, k, p);
    assert w.live[p] !in TapsHeld(w.tasks) by { LiveTapNotHeld(w.s.taps, BooksOf(w), foreign, p); }
    SweptLiveTasks(root, w, k, p);
  }

  lemma SweptLiveTasks(root: Path, w: Site, k: TaskId, p: Path)
    requires TasksApart(root, w.tasks) && k !in w.tasks && Idle(root, w.tasks, p) && p in w.live
    requires w.live[p] !in TapsHeld(w.tasks) && forall j | j in w.tasks :: TaskOk(root, w.live, w.tasks[j])
    ensures var v := SweptLive(w, k, p);
            TasksApart(root, v.tasks) && forall j | j in v.tasks :: TaskOk(root, v.live, v.tasks[j])
  {
    SweepLiveApart(root, w, k, p);
  }

  lemma DestroyKeepsInv(root: Path, w: Site, foreign: set<string>, k: TaskId, p: Path)
    requires Inv(root, w, foreign) && Step(root, w, Destroy(k, p)).Some?
    ensures Inv(root, Step(root, w, Destroy(k, p)).value, foreign)
  {
    BeginKeepsInv(root, w, foreign, k, Loaded(p, TapOf(w.s.dirs[p].value)));
  }

  /** Every call of every command keeps the books balanced. */
  lemma StepKeepsInv(root: Path, w: Site, foreign: set<string>, l: Label)
    requires Inv(root, w, foreign) && Step(root, w, l).Some?
    ensures Inv(root, Step(root, w, l).value, foreign)
  {
    match l
    case Create(k, id) => BeginKeepsInv(root, w, foreign, k, Wants(id));
    case Destroy(k, p) => DestroyKeepsInv(root, w, foreign, k, p);
    case Act(k, ok) => ActKeepsInv(root, w, foreign, k, ok);
    case Sweep(k) => SweepKeepsInv(root, w, foreign, k);
    case SweepLive(k, p) => SweepLiveKeepsInv(root, w, foreign, k, p);
  }

  lemma {:induction false} RunKeepsInv(root: Path, w: Site, foreign: set<string>, ls: seq<Label>)
    requires Inv(root, w, foreign) && Exec(root, w, ls).Some?
    ensures Inv(root, Exec(root, w, ls).value, foreign)
    decreases |ls|
  {
    if ls != [] {
      StepKeepsInv(root, w, foreign, ls[0]);
      RunKeepsInv(root, Step(root, w, ls[0]).value, foreign, ls[1..]);
    }
  }

  /**
   Conservation between calls: however creates and destroys of different containers interleave, and
   wherever they fail, each directory is a live container's or in the hands of exactly one command,
   each tap is the host's own, a live container's or in the hands of exactly one command, and no two
   containers share one.
   */
  lemma ConservedBetweenCalls(root: Path, foreign: set<string>, ls: seq<Label>)
    requires Exec(root, Site(Store(map[], foreign), map[], map[]), ls).Some?
    ensures var w := Exec(root, Site(Store(map[], foreign), map[], map[]), ls).value;
            && w.s.dirs.Keys == w.live.Keys + DirsHeld(w.tasks) && w.live.Keys !! DirsHeld(w.tasks)
            && w.s.taps == foreign + TapsOf(w.live) + TapsHeld(w.tasks)
            && foreign !! TapsHeld(w.tasks) && TapsOf(w.live) !! (foreign + TapsHeld(w.tasks))
            && HandsApart(w.tasks)
            && forall p, q | p in w.live && q in w.live && p != q :: w.live[p] != w.live[q]
  {
    var w := Site(Store(map[], foreign), map[], map[]);
    assert BooksOf(w) == NEW_BOOKS;
    RunKeepsInv(root, w, foreign, ls);
  }

  // ---------------------------------------------------------------- commands that are left to finish

  lemma {:induction false} ExecAppend(root: Path, w: Site, a: seq<Label>, b: seq<Label>)
    ensures Exec(root, w, a + b) == if Exec(root, w, a).None? then None else Exec(root, Exec(root, w, a).value, b)
    decreases |a|
  {
    if a == [] {
      assert a + b == b;
    } else {
      assert (a + b)[1..] == a[1..] + b;
      if Step(root, w, a[0]).Some? { ExecAppend(root, Step(root, w, a[0]).value, a[1..], b); }
    }
  }

  /** The site with task `k` at `t`. */
  function With(w: Site, k: TaskId, m: Move): Site {
    Site(m.s, m.live, w.tasks[k := m.task])
  }

  /** The next call of task `k` succeeds. */
  lemma ActOn(root: Path, w: Site, ls: seq<Label>, k: TaskId, m: Move) returns (more: seq<Label>, v: Move)
    requires Exec(root, w, ls) == Some(With(w, k, m)) && Next(root, m.s, m.live, m.task, true).Some?
    ensures v == Next(root, m.s, m.live, m.task, true).value && more == ls + [Act(k, true)]
    ensures Exec(root, w, more) == Some(With(w, k, v))
  {
    v, more := Next(root, m.s, m.live, m.task, true).value, ls + [Act(k, true)];
    ExecAppend(root, w, ls, [Act(k, true)]);
    assert w.tasks[k := m.task][k := v.task] == w.tasks[k := v.task];
    assert Exec(root, With(w, k, m), [Act(k, true)]) == Exec(root, With(w, k, v), []);
  }

  /** Directory and link are made. */
  lemma CreateMakes(root: Path, w: Site, k: TaskId, id: string) returns (ls: seq<Label>, m: Move)
    requires k !in w.tasks && Idle(root, w.tasks, ContainerRoot(root, id)) && Available(w.s, root, id) && TapFree(w.s, id)
    ensures ls == [Create(k, id), Act(k, true), Act(k, true)] && Exec(root, w, ls) == Some(With(w, k, m))
    ensures var p, tap := ContainerRoot(root, id), ("tap" + id)[..15];
            m == Move(Store(w.s.dirs[p := None], w.s.taps + {tap}), w.live, HasBoth(p, tap, id, false))
  {
    TapNameMeaning(id, id);
    ls, m := [Create(k, id)], Move(w.s, w.live, Wants(id));
    assert Exec(root, w, ls) == Exec(root, With(w, k, m), []);
    ls, m := ActOn(root, w, ls, k, m);
    ls, m := ActOn(root, w, ls, k, m);
  }

  /** And become a container's, with its state. */
  lemma CreateCommits(root: Path, w: Site, ls: seq<Label>, k: TaskId, m: Move) returns (more: seq<Label>, v: Move)
    requires Exec(root, w, ls) == Some(With(w, k, m)) && m.task.HasBoth? && !m.task.over && m.task.p in m.s.dirs
    ensures more == ls + [Act(k, true), Act(k, true), Act(k, true)] && Exec(root, w, more) == Some(With(w, k, v))
    ensures var p, tap := m.task.p, m.task.tap;
            v == Move(m.s.(dirs := m.s.dirs[p := Some(NewRecord(p, tap, false))]), m.live[p := tap], Ended)
  {
    more, v := ActOn(root, w, ls, k, m);
    more, v := ActOn(root, w, more, k, v);
    more, v := ActOn(root, w, more, k, v);
  }

  /**
   A create whose id, directory and tap name are free ends with its container live and saved, when its calls
   succeed and nobody comes in between, whatever other commands are in the middle of.
   */
  lemma CreateGoesThrough(root: Path, w: Site, k: TaskId, id: string)
    requires k !in w.tasks && Idle(root, w.tasks, ContainerRoot(root, id)) && Available(w.s, root, id) && TapFree(w.s, id)
    ensures var p, tap, a := ContainerRoot(root, id), ("tap" + id)[..15], Act(k, true);
            Exec(root, w, [Create(k, id), a, a, a, a, a]) ==
              Some(Site(Store(w.s.dirs[p := Some(NewRecord(p, tap, false))], w.s.taps + {tap}),
                        w.live[p := tap], w.tasks[k := Ended]))
  {
    var p, tap, a := ContainerRoot(root, id), ("tap" + id)[..15], Act(k, true);
    var ls, m := CreateMakes(root, w, k, id);
    ls, m := CreateCommits(root, w, ls, k, m);
    assert ls == [Create(k, id), a, a, a, a, a];
    assert w.s.dirs[p := None][p := Some(NewRecord(p, tap, false))] == w.s.dirs[p := Some(NewRecord(p, tap, false))];
  }

  lemma LiveOwns(root: Path, w: Site, foreign: set<string>, p: Path)
    requires Inv(root, w, foreign) && p in w.live && Loads(w.s, p)
    ensures Tree(w.s, p) == {p} && TapOf(w.s.dirs[p].value) == Some(w.live[p])
  {
    OwnTree(root, w.s, p);
  }

  lemma DestroyEnds(root: Path, w: Site, k: TaskId, p: Path)
    requires k !in w.tasks && Idle(root, w.tasks, p) && p in w.live && Loads(w.s, p)
    requires Tree(w.s, p) == {p} && TapOf(w.s.dirs[p].value) == Some(w.live[p])
    ensures Exec(root, w, [Destroy(k, p), Act(k, true), Act(k, true)]) ==
              Some(Site(Store(w.s.dirs - {p}, w.s.taps - {w.live[p]}), w.live - {p}, w.tasks[k := Ended]))
  {
    var ls, m := [Destroy(k, p)], Move(w.s, w.live, Loaded(p, TapOf(w.s.dirs[p].value)));
    assert Exec(root, w, ls) == Exec(root, With(w, k, m), []);
    ls, m := ActOn(root, w, ls, k, m);
    ls, m := ActOn(root, w, ls, k, m);
    assert ls == [Destroy(k, p), Act(k, true), Act(k, true)];
  }

  /** And a destroy of a container that is live and saved leaves neither its directory nor its tap. */
  lemma DestroyGoesThrough(root: Path, w: Site, foreign: set<string>, k: TaskId, p: Path)
    requires Inv(root, w, foreign) && k !in w.tasks && Idle(root, w.tasks, p) && p in w.live && Loads(w.s, p)
    ensures Exec(root, w, [Destroy(k, p), Act(k, true), Act(k, true)]) ==
              Some(Site(Store(w.s.dirs - {p}, w.s.taps - {w.live[p]}), w.live - {p}, w.tasks[k := Ended]))
  {
    LiveOwns(root, w, foreign, p);
    DestroyEnds(root, w, k, p);
  }
}

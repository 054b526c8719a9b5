/** Every directory and every tap device is accounted for, over all runs on one host. */
module Conservation {
  import opened Common
  import opened State
  import opened Resources
  import Pipeline

  /**
   The books of the host: the containers that were created and not destroyed, with their taps, and
   what failed commands have left lying about.
   */
  datatype Books = Books(live: map<Path, string>, strayDirs: set<Path>, strayTaps: set<string>)

  const NEW_BOOKS := Books(map[], {}, {})

  datatype Op =
    | CreateOp(id: string, pause: bool, create: Option<CreateCall>)
    | SaveOp(p: Path, record: Record)
    | DestroyOp(p: Path, record: Record, destroy: Option<DestroyCall>)
    | DeleteOp(id: string, destroy: Option<DestroyCall>)

  /** There is a state.json to load. */
  predicate Loads(s: Store, p: Path) {
    p in s.dirs && s.dirs[p].Some?
  }

  predicate RemovalFails(fault: Option<DestroyCall>) {
    fault.Some? && fault.value.RemoveAll?
  }

  /** The directories that a delete without state.json takes. */
  function Swept(s: Store, p: Path, fault: Option<DestroyCall>): set<Path> {
    if RemovalFails(fault) then Tree(s, p) * fault.value.gone else Tree(s, p)
  }

  /**
   The delete command takes any id: it refuses the empty one, destroys the container it can load, and
   otherwise removes whatever the id's path names.
   */
  function Do(s: Store, root: Path, op: Op): Store {
    match op
    case CreateOp(id, pause, fault) => DoCreate(s, root, id, pause, fault).0
    case SaveOp(p, r) => DoSave(s, p, r)
    case DestroyOp(p, r, fault) => DoDestroy(s, p, r, fault).0
    case DeleteOp(id, fault) =>
      var p := ContainerRoot(root, id);
      if id == "" then s
      else if Loads(s, p) then DoDestroy(s, p, s.dirs[p].value, fault).0
      else s.(dirs := s.dirs - Swept(s, p, fault))
  }

  /** The entries of some directories struck out, their taps handed over to the strays. */
  function StrikeAll(b: Books, ps: set<Path>): Books {
    Books(b.live - ps, b.strayDirs - ps, b.strayTaps + set p | p in b.live && p in ps :: b.live[p])
  }

  /** The same where the tap of `p` is gone as well. */
  function Strike(b: Books, ps: set<Path>, p: Path, tapKept: bool): Books {
    var c := StrikeAll(b, ps);
    if tapKept || p !in b.live then c else c.(strayTaps := c.strayTaps - {b.live[p]})
  }

  function BookCreate(b: Books, p: Path, tap: Option<string>, r: Created): Books {
    match r
    case Refused => b
    case DirLeft => b.(strayDirs := b.strayDirs + {p})
    case TapLeft => Books(b.live, b.strayDirs + {p}, if tap.Some? then b.strayTaps + {tap.value} else b.strayTaps)
    case Made(_) => if tap.Some? then b.(live := b.live[p := tap.value]) else b
  }

  function BookDestroy(b: Books, s: Store, p: Path, d: Destroyed): Books {
    if d.Kept? then b else Strike(b, Tree(s, p), p, d.TapKept?)
  }

  function Keep(b: Books, s: Store, root: Path, op: Op): Books {
    match op
    case CreateOp(id, pause, fault) =>
      BookCreate(b, ContainerRoot(root, id), TapName(id), DoCreate(s, root, id, pause, fault).1)
    case SaveOp(_, _) => b
    case DestroyOp(p, r, fault) => BookDestroy(b, s, p, DoDestroy(s, p, r, fault).1)
    case DeleteOp(id, fault) =>
      var p := ContainerRoot(root, id);
      if id == "" then b
      else if Loads(s, p) then BookDestroy(b, s, p, DoDestroy(s, p, s.dirs[p].value, fault).1)
      else StrikeAll(b, Swept(s, p, fault))
  }

  /** Container objects are used while their container is live. */
  predicate Owns(b: Books, op: Op) {
    match op
    case CreateOp(_, _, _) => true
    case SaveOp(p, r) => p in b.live && TapOf(r) == Some(b.live[p])
    case DestroyOp(p, r, _) => p in b.live && TapOf(r) == Some(b.live[p])
    case DeleteOp(_, _) => true
  }

  function TapsOf(live: map<Path, string>): (taps: set<string>)
    ensures forall t :: t in taps <==> exists p :: p in live && live[p] == t
  {
    set p | p in live :: live[p]
  }

  /** The container directories are those of the live containers and the strays, which have no state.json. */
  ghost predicate DirsBalance(dirs: map<Path, Option<Record>>, b: Books) {
    && dirs.Keys == b.live.Keys + b.strayDirs && b.live.Keys !! b.strayDirs
    && forall p | p in b.strayDirs :: dirs[p].None?
  }

  /** The taps are the host's own, the live containers' and the strays, and no two of these share one. */
  ghost predicate TapsBalance(taps: set<string>, b: Books, foreign: set<string>) {
    && taps == foreign + TapsOf(b.live) + b.strayTaps
    && foreign !! b.strayTaps && TapsOf(b.live) !! (foreign + b.strayTaps)
    && forall p, q | p in b.live && q in b.live && p != q :: b.live[p] != b.live[q]
  }

  /** A container's tap is that of its id, and its state.json names it. */
  ghost predicate NamesBalance(dirs: map<Path, Option<Record>>, b: Books) {
    && (forall p | p in b.live :: p != [] && TapName(p[|p| - 1]) == Some(b.live[p]))
    && (forall p | p in b.live && p in dirs && dirs[p].Some? :: TapOf(dirs[p].value) == Some(b.live[p]))
  }

  /** The host and its books agree. */
  ghost predicate Balanced(s: Store, b: Books, foreign: set<string>) {
    DirsBalance(s.dirs, b) && TapsBalance(s.taps, b, foreign) && NamesBalance(s.dirs, b)
  }

  // ---------------------------------------------------------------- one operation

  lemma TapsWith(live: map<Path, string>, p: Path, tap: string)
    requires p !in live
    ensures TapsOf(live[p := tap]) == TapsOf(live) + {tap}
  {
    var more := live[p := tap];
    assert more[p] == tap;
    forall t | t in TapsOf(live) ensures t in TapsOf(more) {
      var q :| q in live && live[q] == t;
      assert more[q] == t;
    }
  }

  ghost predicate OneEach(live: map<Path, string>) {
    forall p, q | p in live && q in live && p != q :: live[p] != live[q]
  }

  lemma TapsWithoutAll(live: map<Path, string>, ps: set<Path>)
    requires OneEach(live)
    ensures TapsOf(live - ps) == TapsOf(live) - set p | p in live && p in ps :: live[p]
  {
    var less := live - ps;
    var taken := set p | p in live && p in ps :: live[p];
    forall t | t in TapsOf(live) - taken ensures t in TapsOf(less) {
      var q :| q in live && live[q] == t;
      assert less[q] == t;
    }
    forall t | t in TapsOf(less) ensures t in TapsOf(live) - taken {
      var q :| q in less && less[q] == t;
      assert q in live && q !in ps;
    }
  }

  lemma StrayDirBalances(s: Store, b: Books, foreign: set<string>, p: Path)
    requires Balanced(s, b, foreign) && p !in s.dirs
    ensures Balanced(s.(dirs := s.dirs[p := None]), b.(strayDirs := b.strayDirs + {p}), foreign)
  {
  }

  lemma StrayTapBalances(s: Store, b: Books, foreign: set<string>, tap: string)
    requires Balanced(s, b, foreign) && tap !in s.taps
    ensures Balanced(s.(taps := s.taps + {tap}), b.(strayTaps := b.strayTaps + {tap}), foreign)
  {
  }

  lemma LiveTapBalances(taps: set<string>, b: Books, foreign: set<string>, p: Path, tap: string)
    requires TapsBalance(taps, b, foreign) && p !in b.live && tap !in taps
    ensures TapsBalance(taps + {tap}, b.(live := b.live[p := tap]), foreign)
  {
    TapsWith(b.live, p, tap);
    assert forall q | q in b.live :: b.live[q] in TapsOf(b.live);
  }

  lemma LiveBalances(s: Store, b: Books, foreign: set<string>, p: Path, tap: string)
    requires Balanced(s, b, foreign) && p !in s.dirs && tap !in s.taps && p != [] && TapName(p[|p| - 1]) == Some(tap)
    ensures Balanced(Store(s.dirs[p := None], s.taps + {tap}), b.(live := b.live[p := tap]), foreign)
  {
    LiveTapBalances(s.taps, b, foreign, p, tap);
  }

  /** What `Create` has changed, by its outcome. */
  lemma CreateChanges(s: Store, root: Path, id: string, pause: bool, fault: Option<CreateCall>)
    ensures var (t, r) := DoCreate(s, root, id, pause, fault);
            var p, tap := ContainerRoot(root, id), TapName(id);
            && (r.Refused? ==> t == s)
            && (!r.Refused? ==> p !in s.dirs && t.dirs == s.dirs[p := None] && ValidId(id) && !(p <= root))
            && (r.DirLeft? ==> t.taps == s.taps)
            && (r.TapLeft? || r.Made? ==> tap.Some? && tap.value !in s.taps && t.taps == s.taps + {tap.value})
  {
  }

  lemma CreateBalances(s: Store, b: Books, foreign: set<string>, root: Path, id: string, pause: bool,
                       fault: Option<CreateCall>)
    requires Balanced(s, b, foreign)
    ensures var (t, r) := DoCreate(s, root, id, pause, fault);
            Balanced(t, BookCreate(b, ContainerRoot(root, id), TapName(id), r), foreign)
  {
    CreateChanges(s, root, id, pause, fault);
    MadeBalances(s, b, foreign, root, id, DoCreate(s, root, id, pause, fault).0, DoCreate(s, root, id, pause, fault).1);
  }

  lemma MadeBalances(s: Store, b: Books, foreign: set<string>, root: Path, id: string, t: Store, r: Created)
    requires Balanced(s, b, foreign)
    requires r.Refused? ==> t == s
    requires var p := ContainerRoot(root, id);
             !r.Refused? ==> p !in s.dirs && t.dirs == s.dirs[p := None] && ValidId(id) && !(p <= root)
    requires r.DirLeft? ==> t.taps == s.taps
    requires var tap := TapName(id);
             r.TapLeft? || r.Made? ==> tap.Some? && tap.value !in s.taps && t.taps == s.taps + {tap.value}
    ensures Balanced(t, BookCreate(b, ContainerRoot(root, id), TapName(id), r), foreign)
  {
    var p, tap := ContainerRoot(root, id), TapName(id);
    match r {
      case Refused =>
      case DirLeft =>
        StrayDirBalances(s, b, foreign, p);
        assert t == s.(dirs := s.dirs[p := None]);
      case TapLeft =>
        StrayDirBalances(s, b, foreign, p);
        StrayTapBalances(s.(dirs := s.dirs[p := None]), b.(strayDirs := b.strayDirs + {p}), foreign, tap.value);
        assert t == Store(s.dirs[p := None], s.taps + {tap.value});
      case Made(_) =>
        NameOfRoot(root, id);
        LiveBalances(s, b, foreign, p, tap.value);
        assert t == Store(s.dirs[p := None], s.taps + {tap.value});
    }
  }

  lemma NameOfRoot(root: Path, id: string)
    requires ValidId(id) && !(ContainerRoot(root, id) <= root)
    ensures var p := ContainerRoot(root, id); p != [] && p[|p| - 1] == id
  {
    RootOfId(root, id);
  }

  lemma StrikeTaps(taps: set<string>, b: Books, foreign: set<string>, ps: set<Path>)
    requires TapsBalance(taps, b, foreign)
    ensures TapsBalance(taps, StrikeAll(b, ps), foreign)
  {
    TapsWithoutAll(b.live, ps);
    assert forall p | p in b.live :: b.live[p] in TapsOf(b.live);
  }

  lemma StrikeDirs(dirs: map<Path, Option<Record>>, b: Books, ps: set<Path>)
    requires DirsBalance(dirs, b) && NamesBalance(dirs, b)
    ensures DirsBalance(dirs - ps, StrikeAll(b, ps)) && NamesBalance(dirs - ps, StrikeAll(b, ps))
  {
  }

  /** Directories are removed, and the taps of their containers become strays. */
  lemma StrikeBalances(s: Store, b: Books, foreign: set<string>, ps: set<Path>)
    requires Balanced(s, b, foreign)
    ensures Balanced(s.(dirs := s.dirs - ps), StrikeAll(b, ps), foreign)
  {
    StrikeTaps(s.taps, b, foreign, ps);
    StrikeDirs(s.dirs, b, ps);
  }

  /** A stray tap is deleted. */
  lemma DropTapBalances(s: Store, b: Books, foreign: set<string>, tap: string)
    requires Balanced(s, b, foreign) && tap in b.strayTaps
    ensures Balanced(s.(taps := s.taps - {tap}), b.(strayTaps := b.strayTaps - {tap}), foreign)
  {
  }

  lemma DestroyBalances(s: Store, b: Books, foreign: set<string>, p: Path, r: Record, fault: Option<DestroyCall>)
    requires Balanced(s, b, foreign) && p in b.live && TapOf(r) == Some(b.live[p])
    ensures Balanced(DoDestroy(s, p, r, fault).0, BookDestroy(b, s, p, DoDestroy(s, p, r, fault).1), foreign)
  {
    var d := DoDestroy(s, p, r, fault).1;
    if !d.Kept? {
      StrikeBalances(s, b, foreign, Tree(s, p));
      LiveDir(s, b, p);
      if d.Done? {
        DropTapBalances(s.(dirs := s.dirs - Tree(s, p)), StrikeAll(b, Tree(s, p)), foreign, b.live[p]);
      }
    }
  }

  lemma LiveDir(s: Store, b: Books, p: Path)
    requires DirsBalance(s.dirs, b) && p in b.live
    ensures p in Tree(s, p) && b.live[p] in StrikeAll(b, Tree(s, p)).strayTaps && b.live[p] in TapsOf(b.live)
  {
  }

  /** Whatever an operation does, and wherever it fails, the books still balance. */
  lemma OpBalances(s: Store, b: Books, foreign: set<string>, root: Path, op: Op)
    requires Balanced(s, b, foreign) && Owns(b, op)
    ensures Balanced(Do(s, root, op), Keep(b, s, root, op), foreign)
  {
    match op
    case CreateOp(id, pause, fault) => CreateBalances(s, b, foreign, root, id, pause, fault);
    case SaveOp(p, r) =>
    case DestroyOp(p, r, fault) => DestroyBalances(s, b, foreign, p, r, fault);
    case DeleteOp(id, fault) =>
      var p := ContainerRoot(root, id);
      if id != "" {
        if Loads(s, p) {
          DestroyBalances(s, b, foreign, p, s.dirs[p].value, fault);
        } else {
          StrikeBalances(s, b, foreign, Swept(s, p, fault));
        }
      }
  }

  /** And the containers stay children of the root. */
  lemma OpHouses(s: Store, root: Path, op: Op)
    requires Housed(root, s)
    ensures Housed(root, Do(s, root, op))
  {
    if op.CreateOp? && ValidId(op.id) { RootOfId(root, op.id); }
  }

  // ---------------------------------------------------------------- runs

  function After(s: Store, root: Path, ops: seq<Op>): Store
    decreases |ops|
  {
    if ops == [] then s else After(Do(s, root, ops[0]), root, ops[1..])
  }

  function BooksAfter(b: Books, s: Store, root: Path, ops: seq<Op>): Books
    decreases |ops|
  {
    if ops == [] then b else BooksAfter(Keep(b, s, root, ops[0]), Do(s, root, ops[0]), root, ops[1..])
  }

  predicate OwnsAll(b: Books, s: Store, root: Path, ops: seq<Op>)
    decreases |ops|
  {
    ops == [] || (Owns(b, ops[0]) && OwnsAll(Keep(b, s, root, ops[0]), Do(s, root, ops[0]), root, ops[1..]))
  }

  lemma {:induction false} RunBalances(s: Store, b: Books, foreign: set<string>, root: Path, ops: seq<Op>)
    requires Balanced(s, b, foreign) && OwnsAll(b, s, root, ops)
    ensures Balanced(After(s, root, ops), BooksAfter(b, s, root, ops), foreign)
    decreases |ops|
  {
    if ops != [] {
      OpBalances(s, b, foreign, root, ops[0]);
      RunBalances(Do(s, root, ops[0]), Keep(b, s, root, ops[0]), foreign, root, ops[1..]);
    }
  }

  /** The id is accepted and its directory is not there. */
  predicate Available(s: Store, root: Path, id: string) {
    var p := ContainerRoot(root, id);
    ValidId(id) && p !in s.dirs && !(p <= root)
  }

  /** The tap that `Create` would make for this id can be made. */
  predicate TapFree(s: Store, id: string) {
    |id| >= 12 && ("tap" + id)[..15] !in s.taps
  }

  /**
   What to look at before an operation to know that nothing will be left lying about: a create that
   makes its directory must be able to make the rest, a destroy must be able to delete its link, and
   a delete that finds no state.json must not find a live container at or below its path.
   */
  predicate Tidy(b: Books, s: Store, root: Path, op: Op) {
    match op
    case CreateOp(id, pause, fault) =>
      || !Available(s, root, id) || fault == Some(Mkdir)
      || (TapFree(s, id) && (fault.None? || (fault == Some(MakeIso) && pause)))
    case SaveOp(_, _) => true
    case DestroyOp(p, r, fault) => fault != Some(DelLink)
    case DeleteOp(id, fault) =>
      var p := ContainerRoot(root, id);
      id == "" || if Loads(s, p) then fault != Some(DelLink) else Swept(s, p, fault) !! b.live.Keys
  }

  predicate NoStrays(b: Books) {
    b.strayDirs == {} && b.strayTaps == {}
  }

  lemma TidyCreate(s: Store, b: Books, root: Path, op: Op)
    requires op.CreateOp? && NoStrays(b)
    ensures Tidy(b, s, root, op) <==> NoStrays(Keep(b, s, root, op))
  {
    TapNameMeaning(op.id, op.id);
    var p, r := ContainerRoot(root, op.id), DoCreate(s, root, op.id, op.pause, op.create).1;
    if r.DirLeft? || r.TapLeft? { assert p in Keep(b, s, root, op).strayDirs; }
    if op.create.Some? {
      match op.create.value
      case Mkdir | ChownRoot | MkFifo | ChownFifo =>
      case MakeIso | SetupTun | AddLink | LinkUp =>
    }
  }

  lemma TidyDestroy(s: Store, b: Books, foreign: set<string>, root: Path, p: Path, r: Record, fault: Option<DestroyCall>)
    requires Balanced(s, b, foreign) && Housed(root, s) && NoStrays(b) && p in b.live && TapOf(r) == Some(b.live[p])
    ensures fault != Some(DelLink) <==> NoStrays(BookDestroy(b, s, p, DoDestroy(s, p, r, fault).1))
  {
    LiveDir(s, b, p);
    TreeOfChild(root, s, p);
    assert b.live[p] in s.taps;
    var c := StrikeAll(b, Tree(s, p));
    assert c.strayTaps == {b.live[p]};
  }

  lemma TidySweep(s: Store, b: Books, p: Path, fault: Option<DestroyCall>)
    requires NoStrays(b)
    ensures Swept(s, p, fault) !! b.live.Keys <==> NoStrays(StrikeAll(b, Swept(s, p, fault)))
  {
    var ps := Swept(s, p, fault);
    forall q | q in ps && q in b.live ensures b.live[q] in StrikeAll(b, ps).strayTaps { }
  }

  /** On a host without strays, an operation leaves none exactly when it is tidy. */
  lemma TidyExactly(s: Store, b: Books, foreign: set<string>, root: Path, op: Op)
    requires Balanced(s, b, foreign) && Housed(root, s) && Owns(b, op) && NoStrays(b)
    ensures Tidy(b, s, root, op) <==> NoStrays(Keep(b, s, root, op))
  {
    match op
    case CreateOp(_, _, _) => TidyCreate(s, b, root, op);
    case SaveOp(_, _) =>
    case DestroyOp(p, r, fault) => TidyDestroy(s, b, foreign, root, p, r, fault);
    case DeleteOp(id, fault) =>
      var p := ContainerRoot(root, id);
      if Loads(s, p) {
        TidyDestroy(s, b, foreign, root, p, s.dirs[p].value, fault);
      } else {
        TidySweep(s, b, p, fault);
      }
  }

  predicate TidyAll(b: Books, s: Store, root: Path, ops: seq<Op>)
    decreases |ops|
  {
    ops == [] || (Tidy(b, s, root, ops[0]) && TidyAll(Keep(b, s, root, ops[0]), Do(s, root, ops[0]), root, ops[1..]))
  }

  /** The directories are exactly the live containers', and the taps exactly the host's own and theirs. */
  predicate Exact(s: Store, b: Books, foreign: set<string>) {
    s.dirs.Keys == b.live.Keys && s.taps == foreign + TapsOf(b.live)
  }

  lemma ExactMeansNoStrays(s: Store, b: Books, foreign: set<string>)
    requires Balanced(s, b, foreign)
    ensures Exact(s, b, foreign) <==> NoStrays(b)
  {
    if Exact(s, b, foreign) {
      assert forall p | p in b.strayDirs :: p in s.dirs;
      assert forall t | t in b.strayTaps :: t in s.taps;
    }
  }

  /** At every point of the run. */
  predicate ExactThroughout(s: Store, b: Books, foreign: set<string>, root: Path, ops: seq<Op>)
    decreases |ops|
  {
    && Exact(s, b, foreign)
    && (ops == [] || ExactThroughout(Do(s, root, ops[0]), Keep(b, s, root, ops[0]), foreign, root, ops[1..]))
  }

  lemma {:induction false} TidyRunExactly(s: Store, b: Books, foreign: set<string>, root: Path, ops: seq<Op>)
    requires Balanced(s, b, foreign) && Housed(root, s) && OwnsAll(b, s, root, ops) && NoStrays(b)
    ensures TidyAll(b, s, root, ops) <==> ExactThroughout(s, b, foreign, root, ops)
    decreases |ops|
  {
    ExactMeansNoStrays(s, b, foreign);
    if ops != [] {
      var t, c := Do(s, root, ops[0]), Keep(b, s, root, ops[0]);
      OpBalances(s, b, foreign, root, ops[0]);
      OpHouses(s, root, ops[0]);
      TidyExactly(s, b, foreign, root, ops[0]);
      if NoStrays(c) {
        TidyRunExactly(t, c, foreign, root, ops[1..]);
      } else {
        ExactMeansNoStrays(t, c, foreign);
      }
    }
  }

  /**
   Conservation: a run from a host without containers keeps directories and taps exactly those of the
   live containers, at every point, if and only if all its operations are tidy; and tidy or not, no
   two live containers share a tap.
   */
  lemma Conserved(foreign: set<string>, root: Path, ops: seq<Op>)
    requires OwnsAll(NEW_BOOKS, Store(map[], foreign), root, ops)
    ensures var s := Store(map[], foreign);
            TidyAll(NEW_BOOKS, s, root, ops) <==> ExactThroughout(s, NEW_BOOKS, foreign, root, ops)
    ensures var live := BooksAfter(NEW_BOOKS, Store(map[], foreign), root, ops).live;
            foreign !! TapsOf(live) && forall p, q | p in live && q in live && p != q :: live[p] != live[q]
  {
    var s := Store(map[], foreign);
    assert Balanced(s, NEW_BOOKS, foreign);
    RunBalances(s, NEW_BOOKS, foreign, root, ops);
    TidyRunExactly(s, NEW_BOOKS, foreign, root, ops);
  }

  // ---------------------------------------------------------------- whose resources an operation touches

  lemma {:induction false} RunHouses(s: Store, root: Path, ops: seq<Op>)
    requires Housed(root, s)
    ensures Housed(root, After(s, root, ops))
    decreases |ops|
  {
    if ops != [] {
      OpHouses(s, root, ops[0]);
      RunHouses(Do(s, root, ops[0]), root, ops[1..]);
    }
  }

  /** From `s` to `t` nothing but the directory `p` and the tap of `p` changed. */
  ghost predicate OnlyOf(s: Store, t: Store, b: Books, p: Path) {
    && (forall q | q != p :: (q in t.dirs <==> q in s.dirs) && (q in s.dirs ==> t.dirs[q] == s.dirs[q]))
    && (forall tap | tap in s.taps && tap !in t.taps :: p in b.live && tap == b.live[p])
    && t.taps <= s.taps
  }

  lemma DestroysOnly(s: Store, b: Books, foreign: set<string>, root: Path, p: Path, r: Record, fault: Option<DestroyCall>)
    requires Balanced(s, b, foreign) && Housed(root, s) && p in b.live && TapOf(r) == Some(b.live[p])
    ensures OnlyOf(s, DoDestroy(s, p, r, fault).0, b, p)
  {
    LiveDir(s, b, p);
    TreeOfChild(root, s, p);
  }

  lemma AboveOrEqual(root: Path, p: Path, q: Path)
    requires root <= q && p <= q && |q| == |root| + 1
    ensures p <= root || p == q
  {
    if |p| <= |root| {
      assert root == q[..|root|] && p == q[..|p|];
      assert root[..|p|] == p;
    } else {
      assert q[..|p|] == q;
    }
  }

  /** A path that is not the root's and not above it is not above any directory but its own. */
  lemma TreeBelowRoot(root: Path, s: Store, p: Path)
    requires Housed(root, s)
    ensures if p <= root then Tree(s, p) == s.dirs.Keys && p !in s.dirs else Tree(s, p) <= {p}
  {
    if !(p <= root) {
      forall q | q in Tree(s, p) ensures q == p {
        AboveOrEqual(root, p, q);
      }
    }
  }

  /** What to look at before an operation to know that it will leave other containers alone. */
  predicate Spares(s: Store, root: Path, op: Op) {
    match op
    case DeleteOp(id, fault) =>
      var p := ContainerRoot(root, id);
      id == "" || !(p <= root) || Swept(s, p, fault) == {}
    case _ => true
  }

  /**
   Ending one container leaves every other directory, and every tap but its own, as they were, unless
   it is a delete whose id leads to the root of all containers or above it, and finds any there.
   */
  lemma EndsOnlyItself(s: Store, b: Books, foreign: set<string>, root: Path, op: Op, p: Path)
    requires Balanced(s, b, foreign) && Housed(root, s) && Owns(b, op)
    requires (op.DestroyOp? && op.p == p) || (op.DeleteOp? && ContainerRoot(root, op.id) == p)
    ensures Spares(s, root, op) <==> OnlyOf(s, Do(s, root, op), b, p)
    ensures Spares(s, root, op) ==>
              forall q | q in b.live && q != p :: q in Do(s, root, op).dirs && b.live[q] in Do(s, root, op).taps
  {
    var t := Do(s, root, op);
    if op.DestroyOp? {
      DestroysOnly(s, b, foreign, root, p, op.record, op.destroy);
    } else {
      TreeBelowRoot(root, s, p);
      if op.id != "" && Loads(s, p) {
        DestroysOnly(s, b, foreign, root, p, s.dirs[p].value, op.destroy);
      } else if op.id != "" && p <= root {
        SweepTakes(s, b, p, Swept(s, p, op.destroy));
      }
    }
    if OnlyOf(s, t, b, p) { OthersStay(s, t, b, foreign, p); }
  }

  lemma SweepTakes(s: Store, b: Books, p: Path, ps: set<Path>)
    requires ps <= s.dirs.Keys && p !in ps
    ensures OnlyOf(s, s.(dirs := s.dirs - ps), b, p) <==> ps == {}
  {
    if q :| q in ps { assert q in s.dirs && q !in s.dirs - ps; }
  }

  /** A delete spares all other containers' directories exactly when its path is not at or above the root, or there are none. */
  lemma DeleteSparesOthers(s: Store, root: Path, id: string)
    requires Housed(root, s)
    ensures (forall q | q in s.dirs && q != ContainerRoot(root, id) :: q in Do(s, root, DeleteOp(id, None)).dirs)
            <==> id == "" || !(ContainerRoot(root, id) <= root) || s.dirs == map[]
  {
    TreeBelowRoot(root, s, ContainerRoot(root, id));
    if id != "" && ContainerRoot(root, id) <= root {
      assert Do(s, root, DeleteOp(id, None)).dirs == map[];
      if q :| q in s.dirs { assert q != ContainerRoot(root, id); }
    }
  }

  /** The id `.` is such a one: every container directory goes, and every tap stays. */
  lemma DeleteOfDot(s: Store, root: Path)
    requires Housed(root, s)
    ensures Do(s, root, DeleteOp(".", None)) == s.(dirs := map[])
  {
    RootOfId(root, ".");
    TreeBelowRoot(root, s, root);
  }

  lemma OthersStay(s: Store, t: Store, b: Books, foreign: set<string>, p: Path)
    requires Balanced(s, b, foreign) && OnlyOf(s, t, b, p)
    ensures forall q | q in b.live && q != p :: q in t.dirs && b.live[q] in t.taps
  {
    forall q | q in b.live && q != p ensures q in t.dirs && b.live[q] in t.taps {
      assert b.live[q] in TapsOf(b.live);
    }
  }

  /** Without a failing call, a container is made exactly when its id, its directory and its tap are free to use. */
  lemma WhenCreated(s: Store, root: Path, id: string, pause: bool)
    ensures var r := DoCreate(s, root, id, pause, None).1;
            && (r.Made? <==> Available(s, root, id) && |id| >= 12 && ("tap" + id)[..15] !in s.taps)
            && (r.Refused? <==> !Available(s, root, id))
            && !r.TapLeft?
  {
    TapNameMeaning(id, id);
  }

  /**
   What a failed `Create` leaves: the directory, whenever it got as far as making one, and the tap
   exactly when only bringing it up failed.  It takes nothing away.
   */
  lemma FailedCreateLeaves(s: Store, root: Path, id: string, pause: bool, fault: Option<CreateCall>)
    requires !DoCreate(s, root, id, pause, fault).1.Made?
    ensures var p, t := ContainerRoot(root, id), DoCreate(s, root, id, pause, fault).0;
            && t.dirs == (if Available(s, root, id) && fault != Some(Mkdir) then s.dirs[p := None] else s.dirs)
            && (t.taps != s.taps <==>
                  Available(s, root, id) && fault == Some(LinkUp) && |id| >= 12 && ("tap" + id)[..15] !in s.taps)
            && (t.taps != s.taps ==> t.taps == s.taps + {("tap" + id)[..15]})
  {
    TapNameMeaning(id, id);
  }

  /**
   A live container's destroy: it is complete exactly when no call fails; without the removal of the
   directory nothing else is done, and without the removal of the tap the directory is gone all the same.
   */
  lemma WhenDestroyed(s: Store, b: Books, foreign: set<string>, p: Path, r: Record, fault: Option<DestroyCall>)
    requires Balanced(s, b, foreign) && p in b.live && TapOf(r) == Some(b.live[p])
    ensures var (t, d) := DoDestroy(s, p, r, fault);
            && (d.Done? <==> fault.None?) && (d.TapKept? <==> fault == Some(DelLink))
            && (t.taps == if d.Done? then s.taps - {b.live[p]} else s.taps)
            && (p in t.dirs <==> d.Kept?) && (d.Done? ==> b.live[p] in s.taps)
  {
    assert b.live[p] in TapsOf(b.live);
  }

  /** The new directory stands alone. */
  lemma NewTree(s: Store, root: Path, id: string, pause: bool, fault: Option<CreateCall>)
    requires Housed(root, s) && DoCreate(s, root, id, pause, fault).1.Made?
    ensures var (t, made) := DoCreate(s, root, id, pause, fault);
            var p := ContainerRoot(root, id);
            Tree(t, p) == {p} && Tree(DoSave(t, p, made.record), p) == {p}
  {
    var (t, made) := DoCreate(s, root, id, pause, fault);
    var p := ContainerRoot(root, id);
    RootOfId(root, id);
    OpHouses(s, root, CreateOp(id, pause, fault));
    TreeOfChild(root, t, p);
    TreeOfChild(root, DoSave(t, p, made.record), p);
  }

  /** Destroying what was created, saved or not, restores the host exactly. */
  lemma DestroyUndoesCreate(s: Store, root: Path, id: string, pause: bool, fault: Option<CreateCall>)
    requires Housed(root, s) && DoCreate(s, root, id, pause, fault).1.Made?
    ensures var (t, made) := DoCreate(s, root, id, pause, fault);
            var p := ContainerRoot(root, id);
            && DoDestroy(t, p, made.record, None) == (s, Done)
            && DoDestroy(DoSave(t, p, made.record), p, SavedRecord(made.record), None) == (s, Done)
  {
    var (t, made) := DoCreate(s, root, id, pause, fault);
    var p := ContainerRoot(root, id);
    NewTree(s, root, id, pause, fault);
    assert t.dirs - {p} == s.dirs && t.taps - {TapName(id).value} == s.taps;
    assert DoSave(t, p, made.record).dirs - {p} == s.dirs;
  }

  /**
   Deleting an id right after its creation: once its state is saved, nothing of it is left; before
   that, delete finds no state.json and leaves the tap behind.
   */
  lemma DeleteUndoesCreate(s: Store, root: Path, id: string, pause: bool, fault: Option<CreateCall>)
    requires Housed(root, s) && DoCreate(s, root, id, pause, fault).1.Made?
    ensures var (t, made) := DoCreate(s, root, id, pause, fault);
            && Do(DoSave(t, ContainerRoot(root, id), made.record), root, DeleteOp(id, None)) == s
            && Do(t, root, DeleteOp(id, None)) == s.(taps := s.taps + {("tap" + id)[..15]})
  {
    var (t, made) := DoCreate(s, root, id, pause, fault);
    DestroyUndoesCreate(s, root, id, pause, fault);
    NewTree(s, root, id, pause, fault);
    assert t.dirs - {ContainerRoot(root, id)} == s.dirs;
  }

  /** A second container whose id begins with the same twelve characters fails, and leaves its directory. */
  lemma SamePrefixCollides(s: Store, b: Books, foreign: set<string>, root: Path, id: string, other: string, pause: bool)
    requires Balanced(s, b, foreign) && ValidId(id) && |id| >= 12 && root + [id] !in s.dirs
    requires root + [other] in b.live && |other| >= 12 && id[..12] == other[..12]
    ensures DoCreate(s, root, id, pause, None) == (s.(dirs := s.dirs[root + [id] := None]), DirLeft)
  {
    RootOfId(root, id);
    TapNameMeaning(id, other);
    var q := root + [other];
    assert q[|q| - 1] == other;
    assert b.live[q] in TapsOf(b.live);
  }

  /**
   A destroy by an object whose container is gone leaves all live containers their taps exactly when
   it has none of their names.
   */
  lemma StaleDestroy(s: Store, b: Books, foreign: set<string>, root: Path, p: Path, r: Record)
    requires Balanced(s, b, foreign) && Housed(root, s) && |p| == |root| + 1 && p !in b.live
    ensures TapsOf(b.live) <= DoDestroy(s, p, r, None).0.taps <==> TapOf(r).None? || TapOf(r).value !in TapsOf(b.live)
    ensures b.live.Keys <= DoDestroy(s, p, r, None).0.dirs.Keys
  {
    TreeOfChild(root, s, p);
    if TapOf(r).Some? && TapOf(r).value in TapsOf(b.live) {
      assert TapOf(r).value in s.taps;
    }
  }

  /** And that happens to any two ids of one prefix, created one after the other, when the first is destroyed twice. */
  lemma StaleDestroyHappens(root: Path, id: string, other: string)
    requires ValidId(id) && ValidId(other) && id != other && |id| >= 12 && |other| >= 12 && id[..12] == other[..12]
    ensures var (s1, first) := DoCreate(Store(map[], {}), root, id, false, None);
            first.Made? &&
            var (s2, gone) := DoDestroy(s1, root + [id], first.record, None);
            var (s3, second) := DoCreate(s2, root, other, false, None);
            second.Made? && gone == Done &&
            var s4 := DoDestroy(s3, root + [id], first.record, None).0;
            root + [other] in s4.dirs && TapOf(second.record).Some? && TapOf(second.record).value !in s4.taps
  {
    RootOfId(root, id);
    RootOfId(root, other);
    TapNameMeaning(id, other);
    assert (root + [id])[|root|] != (root + [other])[|root|];
  }

  // ---------------------------------------------------------------- the resources reach the unikernel

  /**
   What a container was created with is what its program is started with: after any number of
   trips through state.json and the init pipe, the monitor's arguments name its tap and its disk.
   */
  lemma CreatedWithStartedWith(s: Store, root: Path, id: string, fault: Option<CreateCall>, trips: seq<Trip>,
                               p: Pipeline.Process, found: Pipeline.Plumbing, macOk: bool, host: Pipeline.Host)
    requires var r := DoCreate(s, root, id, false, fault).1;
             r.Made? && trips != [] && forall i | 0 <= i < |trips| :: Orders(trips[i].order, r.record)
    ensures var r := Travelled(DoCreate(s, root, id, false, fault).1.record, trips);
            r.Some? && r.value.net.options.Some? && r.value.fs.options.Some? &&
            var argv := Pipeline.Launch(p, r.value.net.options.value, Some(found), r.value.fs.options.value, macOk, host);
            argv.Ok? ==> |argv.value| == 7 && argv.value[3] == "--net=" + ("tap" + id)[..15]
                         && argv.value[4] == "--disk=" + PathText(ContainerRoot(root, id) + ["rootfs.iso"])
  {
    var record := DoCreate(s, root, id, false, fault).1.record;
    OptionsTravel(record, trips);
    TapNameMeaning(id, id);
    PathTextSomething(ContainerRoot(root, id), "rootfs.iso");
    Pipeline.LaunchResources(p, record.net.options.value, found, record.fs.options.value, macOk, host);
  }

  /** A path is written so that its names can be read back. */
  lemma {:induction false} PathTextReads(p: Path)
    requires forall i | 0 <= i < |p| :: '/' !in p[i]
    ensures Pipeline.Split(PathText(p), '/') == [""] + p
    decreases |p|
  {
    if p != [] {
      var n := |p| - 1;
      PathTextReads(p[..n]);
      Pipeline.SplitLast(PathText(p[..n]), '/', p[n]);
      assert PathText(p) == PathText(p[..n]) + ['/'] + p[n];
      assert [""] + p[..n] + [p[n]] == [""] + p;
    }
  }

  lemma PathTextSomething(p: Path, name: string)
    ensures PathText(p + [name]) != ""
  {
  }
}

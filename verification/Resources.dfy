/**
 The resources of many containers on one host: their directories, tap devices and state files, as
 the factory and the destroy handlers change them, with every call that can fail.
 */
module Resources {
  import opened Common
  import opened State
  import Pipeline

  // ---------------------------------------------------------------- ids and directories

  predicate IdChar(c: char) {
    'a' <= c <= 'z' || 'A' <= c <= 'Z' || '0' <= c <= '9' || c == '_' || '+' <= c <= '.'
  }

  const MAX_ID_LEN := 1024

  /** `validateID`.  The range from `+` to `.` also takes in the comma and the minus. */
  predicate ValidId(id: string) {
    id != "" && (forall i | 0 <= i < |id| :: IdChar(id[i])) && |id| <= MAX_ID_LEN
  }

  /** filepath.Join of a clean absolute directory and relative parts. */
  function Walk(dir: Path, parts: seq<string>): Path
    decreases |parts|
  {
    if parts == [] then dir
    else if parts[0] == "" || parts[0] == "." then Walk(dir, parts[1..])
    else if parts[0] == ".." then Walk(if dir == [] then [] else dir[..|dir| - 1], parts[1..])
    else Walk(dir + [parts[0]], parts[1..])
  }

  function ContainerRoot(root: Path, id: string): Path {
    Walk(root, Pipeline.Split(id, '/'))
  }

  lemma WalkOne(dir: Path, part: string)
    ensures Walk(dir, [part]) ==
            if part == "" || part == "." then dir
            else if part == ".." then (if dir == [] then [] else dir[..|dir| - 1])
            else dir + [part]
  {
    var parts := [part];
    assert parts[1..] == [] && parts[0] == part;
    assert Walk(dir, parts[1..]) == dir;
    assert Walk(dir + [part], parts[1..]) == dir + [part];
  }

  /** The accepted ids have no slash, so they name a child of the root, the root itself or what is above it. */
  lemma RootOfId(root: Path, id: string)
    requires ValidId(id)
    ensures ContainerRoot(root, id) ==
            if id == "." then root
            else if id == ".." then (if root == [] then [] else root[..|root| - 1])
            else root + [id]
  {
    Pipeline.SplitWord(id, '/', "");
    assert Pipeline.Split(id, '/') == [id];
    WalkOne(root, id);
  }

  /** Distinct accepted ids have distinct directories, but for `.` and `..` in the file system's root. */
  lemma DistinctRoots(root: Path, id: string, other: string)
    requires ValidId(id) && ValidId(other) && id !in {".", ".."}
    ensures ContainerRoot(root, id) == ContainerRoot(root, other) <==> id == other
  {
    RootOfId(root, id);
    RootOfId(root, other);
    assert (root + [id])[|root|] == id && (root + [other])[|root|] == other;
  }

  const IFNAMSIZ := 16

  /** `nablaTapName`; none when the code panics, for which its guard is four characters too low. */
  function TapName(id: string): Option<string> {
    if |id| < 8 || |"tap" + id| < IFNAMSIZ - 1 then None else Some(("tap" + id)[..IFNAMSIZ - 1])
  }

  /** There is a name exactly from 12 characters on, and it tells ids apart by the first 12. */
  lemma TapNameMeaning(id: string, other: string)
    ensures TapName(id).Some? <==> |id| >= 12
    ensures |id| >= 12 && |other| >= 12 ==> (TapName(id) == TapName(other) <==> id[..12] == other[..12])
  {
    if |id| >= 12 && |other| >= 12 {
      assert ("tap" + id)[..15] == "tap" + id[..12];
      assert ("tap" + other)[..15] == "tap" + other[..12];
      if "tap" + id[..12] == "tap" + other[..12] {
        assert ("tap" + id[..12])[3..] == id[..12] && ("tap" + other[..12])[3..] == other[..12];
      }
    }
  }

  // ---------------------------------------------------------------- the store

  /** The container directories with what their state.json holds, if there is one, and the host's links. */
  datatype Store = Store(dirs: map<Path, Option<Record>>, taps: set<string>)

  /** The calls of `Create` that can fail. */
  datatype CreateCall = Mkdir | ChownRoot | MkFifo | ChownFifo | MakeIso | SetupTun | AddLink | LinkUp

  /**
   The calls of `destroy` that can fail.  A failed removal may have taken state.json away already, and
   of several directories below the path some.
   */
  datatype DestroyCall = RemoveAll(stateGone: bool, gone: set<Path>) | DelLink

  datatype Created =
    | Refused              // nothing was made
    | DirLeft              // an error, or a panic, that leaves the directory
    | TapLeft              // an error that leaves the directory and the tap
    | Made(record: Record)

  datatype Destroyed = Kept | TapKept | Done

  function PathText(p: Path): string {
    if p == [] then "" else PathText(p[..|p| - 1]) + "/" + p[|p| - 1]
  }

  /** What a created container's handlers remember. */
  function NewRecord(p: Path, tap: string, pause: bool): Record {
    Record(if pause then EMPTY else LLState(Some(map["FsPath" := PathText(p + ["rootfs.iso"])]), map[]),
           LLState(Some(map["TapName" := tap]), map[]), EMPTY)
  }

  function TapOf(r: Record): Option<string> {
    if r.net.options.Some? && "TapName" in r.net.options.value then Some(r.net.options.value["TapName"]) else None
  }

  function DoCreate(s: Store, root: Path, id: string, pause: bool, fault: Option<CreateCall>): (Store, Created) {
    var p, tap := ContainerRoot(root, id), TapName(id);
    var s1 := s.(dirs := s.dirs[p := None]);
    if !ValidId(id) || p in s.dirs || p <= root || fault == Some(Mkdir) then (s, Refused)
    else if fault in {Some(ChownRoot), Some(MkFifo), Some(ChownFifo)} || (fault == Some(MakeIso) && !pause) then (s1, DirLeft)
    else if tap.None? || fault in {Some(SetupTun), Some(AddLink)} || tap.value in s.taps then (s1, DirLeft)
    else
      var s2 := s1.(taps := s.taps + {tap.value});
      if fault == Some(LinkUp) then (s2, TapLeft) else (s2, Made(NewRecord(p, tap.value, pause)))
  }

  function DoSave(s: Store, p: Path, r: Record): Store {
    if p in s.dirs then s.(dirs := s.dirs[p := Some(SavedRecord(r))]) else s
  }

  /** The directories that the removal of `p` takes: all at and below it. */
  function Tree(s: Store, p: Path): (ps: set<Path>)
    ensures forall q :: q in ps <==> q in s.dirs && p <= q
  {
    set q | q in s.dirs && p <= q
  }

  /** Every container directory is a child of the root. */
  ghost predicate Housed(root: Path, s: Store) {
    forall p | p in s.dirs :: |p| == |root| + 1 && root <= p
  }

  /** A child of the root has no container directory below it but itself. */
  lemma TreeOfChild(root: Path, s: Store, p: Path)
    requires Housed(root, s) && |p| == |root| + 1
    ensures Tree(s, p) <= {p}
  {
    forall q | q in Tree(s, p) ensures q == p { assert q[..|p|] == p; }
  }

  function DoDestroy(s: Store, p: Path, r: Record, fault: Option<DestroyCall>): (Store, Destroyed) {
    if fault.Some? && fault.value.RemoveAll? then
      (if fault.value.stateGone && p in s.dirs then s.(dirs := s.dirs[p := None]) else s, Kept)
    else
      var s1 := s.(dirs := s.dirs - Tree(s, p));
      var tap := TapOf(r);
      if tap.None? || fault == Some(DelLink) || tap.value !in s.taps then (s1, TapKept)
      else (s1.(taps := s.taps - {tap.value}), Done)
  }

  // ---------------------------------------------------------------- the programs

  class Host {
    var dirs: map<Path, Option<Record>>
    var taps: set<string>

    function View(): Store
      reads this
    {
      Store(dirs, taps)
    }

    constructor (s: Store)
      ensures View() == s
    {
      dirs, taps := s.dirs, s.taps;
    }
  }

  class NablaFactory {
    const root: Path
    const host: Host

    constructor (root: Path, host: Host)
      ensures this.root == root && this.host == host
    {
      this.root, this.host := root, host;
    }

    /** `CreateTapInterface`: a link that exists cannot be added; one that cannot be set up stays. */
    method CreateTap(tap: string, fault: Option<CreateCall>) returns (ok: bool)
      modifies host
      ensures host.dirs == old(host.dirs)
      ensures host.taps == if fault in {Some(SetupTun), Some(AddLink)} then old(host.taps) else old(host.taps) + {tap}
      ensures ok <==> fault !in {Some(SetupTun), Some(AddLink), Some(LinkUp)} && tap !in old(host.taps)
    {
      if fault == Some(SetupTun) { return false; }
      if fault == Some(AddLink) || tap in host.taps { return false; }
      host.taps := host.taps + {tap};
      return fault != Some(LinkUp);
    }

    /** `Create`: nothing it has made is taken back when a later call fails. */
    method Create(id: string, pause: bool, fault: Option<CreateCall>) returns (c: Option<Container>, r: Created)
      modifies host
      ensures (host.View(), r) == DoCreate(old(host.View()), root, id, pause, fault)
      ensures c.Some? <==> r.Made?
      ensures c.Some? ==> fresh(c.value) && c.value.host == host && c.value.root == ContainerRoot(root, id)
                          && c.value.record == r.record
    {
      if !ValidId(id) { return None, Refused; }
      var p := ContainerRoot(root, id);
      if p in host.dirs || p <= root { return None, Refused; }
      if fault == Some(Mkdir) { return None, Refused; }
      host.dirs := host.dirs[p := None];
      if fault == Some(ChownRoot) { return None, DirLeft; }
      if fault == Some(MkFifo) { return None, DirLeft; }
      if fault == Some(ChownFifo) { return None, DirLeft; }
      var fs := EMPTY;
      if !pause {
        if fault == Some(MakeIso) { return None, DirLeft; }
        fs := LLState(Some(map["FsPath" := PathText(p + ["rootfs.iso"])]), map[]);
      }
      var tap := TapName(id);
      if tap.None? { return None, DirLeft; }
      var before := host.taps;
      var ok := CreateTap(tap.value, fault);
      if !ok {
        return None, if host.taps == before then DirLeft else TapLeft;
      }
      var record := Record(fs, LLState(Some(map["TapName" := tap.value]), map[]), EMPTY);
      var container := new Container(host, p, record);
      return Some(container), Made(record);
    }

    /** `Load`: the container whose state.json is in the id's directory. */
    method Load(id: string) returns (c: Option<Container>)
      ensures var p := ContainerRoot(root, id);
              if p in host.dirs && host.dirs[p].Some? then
                c.Some? && fresh(c.value) && c.value.host == host && c.value.root == p && c.value.record == host.dirs[p].value
              else c.None?
    {
      var p := ContainerRoot(root, id);
      if p !in host.dirs || host.dirs[p].None? { return None; }
      var container := new Container(host, p, host.dirs[p].value);
      return Some(container);
    }
  }

  class Container {
    const host: Host
    const root: Path
    var record: Record

    constructor (host: Host, root: Path, record: Record)
      ensures this.host == host && this.root == root && this.record == record
    {
      this.host, this.root, this.record := host, root, record;
    }

    /** `saveState`; its error is ignored when the directory is gone. */
    method SaveState()
      modifies host
      ensures host.View() == DoSave(old(host.View()), root, record)
      ensures record == old(record)
    {
      if root in host.dirs {
        host.dirs := host.dirs[root := Some(SavedRecord(record))];
      }
    }

    /** `destroy`: the exec handler has nothing to do, then the directory goes, then the tap. */
    method Destroy(fault: Option<DestroyCall>) returns (d: Destroyed)
      modifies this, host
      ensures (host.View(), d) == DoDestroy(old(host.View()), root, old(record), fault)
      ensures record == old(record).(exec := EMPTY)
    {
      record := record.(exec := EMPTY);
      if fault.Some? && fault.value.RemoveAll? {
        if fault.value.stateGone && root in host.dirs {
          host.dirs := host.dirs[root := None];
        }
        return Kept;
      }
      host.dirs := host.dirs - Tree(host.View(), root);
      var tap := TapOf(record);
      if tap.None? { return TapKept; }
      if fault == Some(DelLink) || tap.value !in host.taps { return TapKept; }
      host.taps := host.taps - {tap.value};
      return Done;
    }
  }
}

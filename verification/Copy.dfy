/** The recursive copy, as it changes a file system step by step. */
module Copy {
  import opened Common
  import opened FileTree

  /** What a stat or a directory listing said about a file, perhaps some time ago. */
  datatype Info = Info(dir: bool, mode: nat)

  function InfoOf(n: Node): Info {
    Info(n.Dir?, n.mode)
  }

  function Names(t: Tree, src: Path): (names: set<string>)
    ensures forall e :: e in names <==> src + [e] in t
  {
    var names := set p | p in t && |p| == |src| + 1 && src <= p :: p[|src|];
    assert forall e :: src + [e] in t ==> (src + [e])[|src|] in names;
    assert forall p | p in t && |p| == |src| + 1 && src <= p :: p == src + [p[|src|]];
    names
  }

  // ---------------------------------------------------------------- what one call promises

  /** Nothing at or below `src` is deeper than `depth`. */
  ghost predicate Bounded(t: Tree, src: Path, depth: nat) {
    forall p | p in t && src <= p :: |p| <= depth
  }

  /**
   Whatever the two paths are: nothing goes away or changes between file and directory, and nothing
   outside `dst` changes but for directories made above it.
   */
  ghost predicate Confined(t: Tree, u: Tree, dst: Path) {
    && (forall p | p in t :: p in u && (u[p].Dir? <==> t[p].Dir?) && (!(dst <= p) ==> u[p] == t[p]))
    && (forall p | p in u && p !in t :: p <= dst || dst <= p)
  }

  /** What is new is no deeper below `dst` than the source was below `src`. */
  ghost predicate Shallow(t: Tree, u: Tree, dst: Path, src: Path, depth: nat) {
    forall p | p in u && p !in t && !(p <= dst) :: |p| - |dst| + |src| <= depth
  }

  /** A copy between separate places succeeds exactly when it can, and then makes the overlay. */
  ghost predicate Outcome(t: Tree, u: Tree, dst: Path, src: Path, ok: bool) {
    && (ok <==> CanCopy(t, dst, src))
    && (ok ==> IsOverlay(t, u, dst, src))
    && Between(t, u, dst, src)
  }

  /** There is room for a file where its directory is, unless a directory is there. */
  predicate Room(t: Tree, dst: Path) {
    dst != [] && IsDir(t, Parent(dst)) && !IsDir(t, dst) && Reachable(dst)
  }

  /** The file is opened before its copy is made, but read after: a copy onto itself finds it empty. */
  ghost predicate FileResult(t: Tree, u: Tree, dst: Path, src: Path, ok: bool)
    requires src in t && t[src].File?
  {
    && (ok <==> Room(t, dst) && Reachable(src))
    && u == if !ok then t else if dst == src then t[dst := t[src].(content := "")] else t[dst := t[src]]
  }

  /** What is at `q` once the directory `p` has been made with its parents. */
  function MadeAt(t: Tree, p: Path, mode: nat, q: Path): Option<Node> {
    if q <= p && q !in t then Some(Dir(mode)) else At(t, q)
  }

  ghost predicate IsMade(t: Tree, u: Tree, p: Path, mode: nat) {
    forall q :: At(u, q) == MadeAt(t, p, mode, q)
  }

  /** Each path holds what it did, or the directory that was to be made there. */
  ghost predicate PartlyMade(t: Tree, u: Tree, p: Path, mode: nat) {
    forall q :: At(u, q) == At(t, q) || At(u, q) == MadeAt(t, p, mode, q)
  }

  ghost predicate CanMake(t: Tree, p: Path) {
    Reachable(p) && forall a | a in t && a <= p :: t[a].Dir?
  }

  /** Of the entries listed in `infos`, those in `left` are still to be copied. */
  ghost predicate Halfway(t: Tree, u: Tree, dst: Path, src: Path, infos: map<string, Info>, left: set<string>) {
    && infos.Keys == Names(t, src)
    && (forall e | e in left :: e in infos && src + [e] in t && infos[e] == InfoOf(t[src + [e]]))
    && IsPart(t, u, dst, src, infos.Keys - left)
    && forall e | e in infos.Keys - left :: Fits(t, dst + [e], src + [e])
  }

  /** What is at `p` once `src` has been copied onto itself: every file is there and empty. */
  function EmptiedAt(t: Tree, src: Path, p: Path): Option<Node> {
    if src <= p && p in t && t[p].File? then Some(t[p].(content := "")) else At(t, p)
  }

  /** A copy onto itself succeeds exactly when all its names can be used, and empties every file. */
  ghost predicate SelfOutcome(t: Tree, u: Tree, src: Path, ok: bool) {
    && (ok <==> Fits(t, src, src))
    && (ok ==> forall p :: At(u, p) == EmptiedAt(t, src, p))
    && forall p :: At(u, p) == At(t, p) || At(u, p) == EmptiedAt(t, src, p)
  }

  /** What is at `p` when of the entries of `src` those named in `done` have been copied onto themselves. */
  function HalfEmptiedAt(t: Tree, src: Path, done: set<string>, p: Path): Option<Node> {
    if src <= p && |p| > |src| && p[|src|] in done then EmptiedAt(t, src, p) else At(t, p)
  }

  ghost predicate HalfEmptied(t: Tree, u: Tree, src: Path, infos: map<string, Info>, left: set<string>) {
    && infos.Keys == Names(t, src)
    && (forall e | e in left :: e in infos && src + [e] in t && infos[e] == InfoOf(t[src + [e]]))
    && IsHalfEmptied(t, u, src, infos.Keys - left)
    && forall e | e in infos.Keys - left :: Fits(t, src + [e], src + [e])
  }

  ghost predicate IsHalfEmptied(t: Tree, u: Tree, src: Path, done: set<string>) {
    forall p :: At(u, p) == HalfEmptiedAt(t, src, done, p)
  }

  /** `depth` bounds the source, unless that is above the destination and may grow. */
  ghost predicate Deep(t: Tree, u: Tree, dst: Path, src: Path, depth: nat) {
    !(src < dst) ==> Bounded(t, src, depth) && Shallow(t, u, dst, src, depth)
  }

  ghost predicate Progress(t: Tree, u: Tree, dst: Path, src: Path, info: Info, infos: map<string, Info>,
                           left: set<string>, depth: nat)
  {
    && WellFormed(t) && IsDir(t, src) && CanMake(t, dst) && Reachable(src)
    && WellFormed(u) && IsDir(u, src) && IsDir(u, dst) && Confined(t, u, dst) && Deep(t, u, dst, src, depth)
    && (forall e | e in left :: e in infos && src + [e] in u && infos[e].dir == u[src + [e]].Dir?)
    && (src < dst ==> dst[|src|] in left)
    && (Separate(t, dst, src) && info == InfoOf(t[src]) ==> Halfway(t, u, dst, src, infos, left))
    && (dst == src && info == InfoOf(t[src]) ==> HalfEmptied(t, u, src, infos, left))
  }

  /** How far the names below `dst` can still grow. */
  function NamesLeft(dst: Path): nat {
    if Reachable(dst) then PATH_MAX - Length(dst) else 0
  }

  class FileSystem {
    var nodes: Tree

    ghost predicate Valid()
      reads this
    {
      WellFormed(nodes)
    }

    /** os.MkdirAll: missing directories are made, from the top down, and existing ones are left alone. */
    method MkdirAll(p: Path, mode: nat) returns (ok: bool)
      requires Valid()
      modifies this
      ensures Valid()
      ensures ok <==> CanMake(old(nodes), p)
      ensures ok ==> IsMade(old(nodes), nodes, p, mode)
      ensures PartlyMade(old(nodes), nodes, p, mode)
      ensures Reachable(p) && !ok ==> nodes == old(nodes)
      decreases |p|
    {
      if p in nodes && Reachable(p) {
        ExistingDirs(nodes, p, mode);
        return nodes[p].Dir?;
      }
      ghost var t := nodes;
      ok := MkdirAll(Parent(p), mode);
      CanMakeParent(t, p);
      ParentPartlyMade(t, nodes, p, mode);
      if !ok { return; }
      if !Reachable(p) { return false; }
      ParentMade(t, nodes, p, mode);
      nodes := nodes[p := Dir(mode)];
    }

    /** os.Create: a new file, or an existing one with its content gone. */
    method Create(p: Path) returns (ok: bool)
      requires Valid()
      modifies this
      ensures Valid()
      ensures ok <==> Room(old(nodes), p)
      ensures nodes == if ok then old(nodes)[p := File(if p in old(nodes) then old(nodes)[p].mode else 438, "")]
                       else old(nodes)
    {
      if !Room(nodes, p) { return false; }
      nodes := nodes[p := File(if p in nodes then nodes[p].mode else 438, "")];
      return true;
    }

    /**
     `Copy`, of anything to anywhere.  Between separate places it is the overlay or fails; what is
     copied onto itself loses the content of all files; a directory copied below itself always fails, since the
     recursion follows its own traces until a name is too long or something else is in its way.
     */
    method Copy(dst: Path, src: Path) returns (ok: bool)
      requires Valid()
      modifies this
      ensures Valid() && Confined(old(nodes), nodes, dst)
      ensures !(src < dst) ==> Shallow(old(nodes), nodes, dst, src, Deepest(old(nodes)))
      ensures src !in old(nodes) ==> !ok && nodes == old(nodes)
      ensures Separate(old(nodes), dst, src) && src in old(nodes) ==> Outcome(old(nodes), nodes, dst, src, ok)
      ensures src in old(nodes) && old(nodes)[src].File? ==> FileResult(old(nodes), nodes, dst, src, ok)
      ensures src in old(nodes) && dst == src ==> SelfOutcome(old(nodes), nodes, src, ok)
      ensures IsDir(old(nodes), src) && src < dst ==> !ok
    {
      ghost var depth := Deepest(nodes);
      if src !in nodes || !Reachable(src) {
        if src in nodes {
          UnreachableSource(nodes, dst, src);
          SelfUnreachable(nodes, nodes, src);
        }
        return false;
      }
      ok := PCopy(dst, src, InfoOf(nodes[src]), depth);
    }

    method PCopy(dst: Path, src: Path, info: Info, ghost depth: nat) returns (ok: bool)
      requires Valid() && src in nodes && info.dir == nodes[src].Dir? && (!(src < dst) ==> Bounded(nodes, src, depth))
      modifies this
      ensures Valid() && Confined(old(nodes), nodes, dst) && Deep(old(nodes), nodes, dst, src, depth)
      ensures Separate(old(nodes), dst, src) && info == InfoOf(old(nodes)[src]) ==>
                Outcome(old(nodes), nodes, dst, src, ok)
      ensures info == InfoOf(old(nodes)[src]) && !info.dir ==> FileResult(old(nodes), nodes, dst, src, ok)
      ensures info == InfoOf(old(nodes)[src]) && dst == src ==> SelfOutcome(old(nodes), nodes, src, ok)
      ensures info.dir && src < dst ==> !ok
      decreases if src < dst then 1 else 0, if src < dst then NamesLeft(dst) else depth - |src|, 1
    {
      if info.dir {
        ok := DCopy(dst, src, info, depth);
      } else {
        ok := FCopy(dst, src, info, depth);
      }
    }

    method FCopy(dst: Path, src: Path, info: Info, ghost depth: nat) returns (ok: bool)
      requires Valid() && src in nodes && nodes[src].File? && !info.dir && (!(src < dst) ==> Bounded(nodes, src, depth))
      modifies this
      ensures Valid() && Confined(old(nodes), nodes, dst) && Deep(old(nodes), nodes, dst, src, depth)
      ensures info == InfoOf(old(nodes)[src]) ==> FileResult(old(nodes), nodes, dst, src, ok)
      ensures info == InfoOf(old(nodes)[src]) && src != dst ==> Outcome(old(nodes), nodes, dst, src, ok)
      ensures info == InfoOf(old(nodes)[src]) && src == dst ==> SelfOutcome(old(nodes), nodes, src, ok)
    {
      ghost var t := nodes;
      FileOutcome(t, dst, src);
      FileEmptied(t, src);
      if !Reachable(src) { return false; }
      ok := Create(dst);
      if !ok { return; }
      nodes := nodes[dst := nodes[dst].(content := nodes[src].content)];
      nodes := nodes[dst := nodes[dst].(mode := info.mode)];
      FileWritten(t, nodes, dst, src, depth);
    }

    /**
     The entries come in any order.  Unless the source is above the destination, the recursion is
     bounded by the depth of the source, which the copy does not add to; if it is, by the names.
     */
    method DCopy(dst: Path, src: Path, info: Info, ghost depth: nat) returns (ok: bool)
      requires Valid() && IsDir(nodes, src) && info.dir && (!(src < dst) ==> Bounded(nodes, src, depth))
      modifies this
      ensures Valid() && Confined(old(nodes), nodes, dst) && Deep(old(nodes), nodes, dst, src, depth)
      ensures Separate(old(nodes), dst, src) && info == InfoOf(old(nodes)[src]) ==>
                Outcome(old(nodes), nodes, dst, src, ok)
      ensures dst == src && info == InfoOf(old(nodes)[src]) ==> SelfOutcome(old(nodes), nodes, src, ok)
      ensures src < dst ==> !ok
      decreases if src < dst then 1 else 0, if src < dst then NamesLeft(dst) else depth - |src|, 0
    {
      ghost var t := nodes;
      var made := MkdirAll(dst, info.mode);
      NoDirectory(t, nodes, dst, src, info, depth);
      if !made || !Reachable(src) {
        if dst == src { SelfNotListed(t, nodes, src, info); }
        return false;
      }
      var names := Names(nodes, src);
      var infos := map e | e in names :: InfoOf(nodes[src + [e]]);
      Begin(t, nodes, dst, src, info, infos, depth);
      var left := names;
      while left != {}
        invariant Progress(t, nodes, dst, src, info, infos, left, depth)
        decreases left
      {
        var e :| e in left;
        ghost var m := nodes;
        ghost var deeper := if src < dst then Deepest(nodes) else depth;
        Descend(t, m, dst, src, e, depth);
        ShorterNames(dst, e);
        var copied := PCopy(dst + [e], src + [e], infos[e], deeper);
        Advance(t, m, nodes, dst, src, info, infos, left, e, depth, copied);
        if !copied {
          return false;
        }
        left := left - {e};
      }
      Finish(t, nodes, dst, src, info, infos, depth);
      return true;
    }
  }

  // ---------------------------------------------------------------- the steps

  ghost function Deepest(t: Tree): (d: nat)
    ensures forall p | p in t :: |p| <= d
  {
    MaxLength(t.Keys)
  }

  ghost function MaxLength(ps: set<Path>): (d: nat)
    ensures forall p | p in ps :: |p| <= d
  {
    if ps == {} then 0
    else
      var p :| p in ps;
      var d := MaxLength(ps - {p});
      if |p| > d then |p| else d
  }

  lemma ExistingDirs(t: Tree, p: Path, mode: nat)
    requires WellFormed(t) && p in t && Reachable(p)
    ensures CanMake(t, p) <==> t[p].Dir?
    ensures IsMade(t, t, p, mode)
  {
    forall a | a <= p ensures a in t && (a != p ==> t[a].Dir?) { PrefixesExist(t, p, a); }
  }

  lemma CanMakeParent(t: Tree, p: Path)
    requires p != [] && (p !in t || !Reachable(p))
    ensures CanMake(t, p) <==> Reachable(p) && CanMake(t, Parent(p))
    ensures Reachable(p) ==> Reachable(Parent(p))
  {
    assert Parent(p) <= p;
    ReachableAbove(p, Parent(p));
    if Reachable(p) && CanMake(t, Parent(p)) {
      forall a | a in t && a <= p ensures t[a].Dir? {
        assert a != p;
        PrefixOfShorter(a, p, Parent(p));
      }
    }
    if CanMake(t, p) {
      forall a | a in t && a <= Parent(p) ensures t[a].Dir? { assert a <= p; }
    }
  }

  lemma ParentPartlyMade(t: Tree, u: Tree, p: Path, mode: nat)
    requires p != [] && PartlyMade(t, u, Parent(p), mode)
    ensures PartlyMade(t, u, p, mode)
  {
    forall q ensures At(u, q) == At(t, q) || At(u, q) == MadeAt(t, p, mode, q) {
      assert At(u, q) == At(t, q) || At(u, q) == MadeAt(t, Parent(p), mode, q);
      if q <= Parent(p) { assert q <= p; }
    }
  }

  lemma ParentMade(t: Tree, u: Tree, p: Path, mode: nat)
    requires p != [] && p !in t && WellFormed(u) && CanMake(t, Parent(p)) && IsMade(t, u, Parent(p), mode)
    ensures WellFormed(u[p := Dir(mode)]) && IsMade(t, u[p := Dir(mode)], p, mode)
  {
    var v := u[p := Dir(mode)];
    assert At(u, Parent(p)) == MadeAt(t, Parent(p), mode, Parent(p));
    forall q ensures At(v, q) == MadeAt(t, p, mode, q) {
      assert At(u, q) == MadeAt(t, Parent(p), mode, q);
      if q <= p && q != p { PrefixOfShorter(q, p, Parent(p)); }
    }
    forall q | q in v && q != [] ensures IsDir(v, Parent(q)) {
      if q != p { assert q in u; }
    }
  }

  lemma OnlyItself(t: Tree, src: Path, q: Path)
    requires WellFormed(t) && src in t && t[src].File? && q in t && src <= q
    ensures q == src
  {
    PrefixesExist(t, q, src);
  }

  lemma FileFits(t: Tree, dst: Path, src: Path)
    requires WellFormed(t) && src in t && t[src].File?
    ensures Fits(t, dst, src) <==> Matches(t, dst, src)
  {
    assert dst + src[|src|..] == dst;
    forall q | q in t && src <= q ensures q == src { OnlyItself(t, src, q); }
  }

  lemma FileOverlay(t: Tree, dst: Path, src: Path)
    requires WellFormed(t) && src in t && t[src].File?
    ensures IsOverlay(t, t[dst := t[src]], dst, src)
  {
    forall p ensures At(t[dst := t[src]], p) == OverlayAt(t, dst, src, p) {
      if dst <= p {
        var q := src + p[|dst|..];
        if q in t { OnlyItself(t, src, q); }
        if p == dst { assert q == src; }
      }
    }
  }

  lemma RoomToCopy(t: Tree, dst: Path, src: Path)
    requires WellFormed(t) && src in t && t[src].File?
    ensures Room(t, dst) && Reachable(src) <==> CanCopy(t, dst, src)
  {
    FileFits(t, dst, src);
    if Room(t, dst) {
      forall a | a in t && a < dst ensures t[a].Dir? {
        PrefixOfShorter(a, dst, Parent(dst));
        PrefixesExist(t, Parent(dst), a);
      }
    } else if dst != [] && Parent(dst) in t {
      assert Parent(dst) < dst;
    }
  }

  /** Writing a file: possible exactly when a copy is, and then it makes the overlay. */
  lemma FileOutcome(t: Tree, dst: Path, src: Path)
    requires WellFormed(t) && src in t && t[src].File?
    ensures if Room(t, dst) && Reachable(src) then Outcome(t, t[dst := t[src]], dst, src, true)
            else Outcome(t, t, dst, src, false)
  {
    RoomToCopy(t, dst, src);
    FileOverlay(t, dst, src);
  }

  lemma FileWritten(t: Tree, u: Tree, dst: Path, src: Path, depth: nat)
    requires WellFormed(t) && Room(t, dst) && u.Keys == t.Keys + {dst} && u[dst].File?
    requires forall p | p in t && p != dst :: u[p] == t[p]
    ensures WellFormed(u) && Confined(t, u, dst) && Shallow(t, u, dst, src, depth)
    ensures u == t[dst := u[dst]]
  {
    assert Parent(dst) != dst;
  }

  lemma UnreachableSource(t: Tree, dst: Path, src: Path)
    requires src in t && !Reachable(src)
    ensures Outcome(t, t, dst, src, false)
  {
    assert !Matches(t, dst + src[|src|..], src);
  }

  /** Without its directory, or when the source cannot be listed, nothing of a directory can be copied. */
  lemma NoDirectory(t: Tree, u: Tree, dst: Path, src: Path, info: Info, depth: nat)
    requires IsDir(t, src) && PartlyMade(t, u, dst, info.mode)
    ensures Confined(t, u, dst) && Shallow(t, u, dst, src, depth)
    ensures info == InfoOf(t[src]) && (!CanMake(t, dst) || !Reachable(src)) ==> Outcome(t, u, dst, src, false)
  {
    forall p ensures p in t ==> p in u && u[p] == t[p]
             ensures p in u && p !in t ==> p <= dst
    {
      assert At(u, p) == At(t, p) || At(u, p) == MadeAt(t, dst, info.mode, p);
    }
    if CanCopy(t, dst, src) {
      assert Matches(t, dst + src[|src|..], src);
      assert dst + src[|src|..] == dst;
      forall a | a in t && a <= dst ensures t[a].Dir? {
        if a != dst { assert a < dst; }
      }
    }
    if info == InfoOf(t[src]) { PartlyMadeBetween(t, u, dst, src); }
  }

  lemma PartlyMadeBetween(t: Tree, u: Tree, dst: Path, src: Path)
    requires IsDir(t, src) && PartlyMade(t, u, dst, t[src].mode)
    ensures Between(t, u, dst, src)
  {
    forall p ensures At(u, p) == At(t, p) || At(u, p) == OverlayAt(t, dst, src, p) {
      assert At(u, p) == At(t, p) || At(u, p) == MadeAt(t, dst, t[src].mode, p);
      if p == dst { assert src + p[|dst|..] == src; }
    }
  }

  lemma DirectoryMade(t: Tree, u: Tree, dst: Path, src: Path, info: Info)
    requires IsDir(t, src) && CanMake(t, dst) && IsMade(t, u, dst, info.mode)
    ensures IsDir(u, src) && IsDir(u, dst)
    ensures info == InfoOf(t[src]) ==> IsPart(t, u, dst, src, {})
  {
    assert At(u, src) == MadeAt(t, dst, info.mode, src);
    assert At(u, dst) == MadeAt(t, dst, info.mode, dst);
    if info == InfoOf(t[src]) {
      forall p ensures At(u, p) == PartAt(t, dst, src, {}, p) {
        assert At(u, p) == MadeAt(t, dst, info.mode, p);
        if p == dst { assert src + p[|dst|..] == src; }
      }
    }
  }

  lemma ListedAsBefore(t: Tree, u: Tree, dst: Path, src: Path)
    requires WellFormed(t) && IsDir(t, src) && Separate(t, dst, src) && IsPart(t, u, dst, src, {})
    ensures Names(u, src) == Names(t, src)
    ensures forall e | e in Names(u, src) :: src + [e] in u && src + [e] in t && u[src + [e]] == t[src + [e]]
  {
    forall e ensures At(u, src + [e]) == At(t, src + [e]) { PartKeeps(t, u, dst, src, {}, src + [e]); }
    forall e ensures e in Names(u, src) <==> e in Names(t, src) { assert At(u, src + [e]) == At(t, src + [e]); }
  }

  /** A directory entry is one step nearer to the deepest file, unless the source is above the destination. */
  lemma Descend(t: Tree, m: Tree, dst: Path, src: Path, e: string, depth: nat)
    requires Deep(t, m, dst, src, depth) && Confined(t, m, dst) && src in t && src + [e] in m
    ensures !(src < dst) ==> Bounded(m, src + [e], depth) && |src| + 1 <= depth && !(src + [e] < dst + [e])
  {
    if !(src < dst) {
      forall p | p in m && src <= p ensures |p| <= depth {
        if p !in t {
          if p <= dst { assert src <= dst; }
          if dst <= p && |dst| > |src| { PrefixOfShorter(src, p, dst); }
        }
      }
      assert src <= src + [e];
      if src + [e] < dst + [e] { PrefixOfShorter(src, dst + [e], dst); }
      forall p | p in m && src + [e] <= p ensures |p| <= depth { assert src <= p; }
    }
  }

  lemma ShorterNames(dst: Path, e: string)
    requires Reachable(dst)
    ensures NamesLeft(dst + [e]) < NamesLeft(dst)
  {
    LengthOfChild(dst, e);
  }

  lemma StillConfined(t: Tree, m: Tree, n: Tree, dst: Path, src: Path, e: string, depth: nat)
    requires Confined(t, m, dst) && Confined(m, n, dst + [e]) && IsDir(m, dst)
    ensures Confined(t, n, dst)
    ensures |src| + 1 <= depth && Shallow(t, m, dst, src, depth) && Shallow(m, n, dst + [e], src + [e], depth) ==>
              Shallow(t, n, dst, src, depth)
  {
    forall p | p in t ensures p in n && (n[p].Dir? <==> t[p].Dir?) && (!(dst <= p) ==> n[p] == t[p]) {
      if dst + [e] <= p { assert dst <= p; }
    }
    forall p | p in n && p !in t ensures p <= dst || dst <= p {
      if p !in m {
        if p <= dst + [e] && p != dst + [e] { PrefixOfShorter(p, dst + [e], dst); }
        if dst + [e] <= p { assert dst <= p; }
      }
    }
    if |src| + 1 <= depth && Shallow(t, m, dst, src, depth) && Shallow(m, n, dst + [e], src + [e], depth) {
      forall p | p in n && p !in t && !(p <= dst) ensures |p| - |dst| + |src| <= depth {
        if p !in m && p <= dst + [e] && p != dst + [e] { PrefixOfShorter(p, dst + [e], dst); }
      }
    }
  }

  /** The listing still tells the truth about an entry that is its turn. */
  lemma EntryReady(t: Tree, m: Tree, dst: Path, src: Path, done: set<string>, e: string)
    requires IsPart(t, m, dst, src, done) && WellFormed(t) && Separate(t, dst, src) && IsDir(t, src) && src + [e] in t
    ensures Separate(m, dst + [e], src + [e]) && At(m, src + [e]) == At(t, src + [e])
  {
    ChildrenApart(t, dst, src, e);
    PartKeeps(t, m, dst, src, done, src + [e]);
  }

  lemma EntryDone(t: Tree, m: Tree, n: Tree, dst: Path, src: Path, done: set<string>, e: string, ok: bool)
    requires IsPart(t, m, dst, src, done) && Separate(t, dst, src) && IsDir(t, src) && e !in done && src + [e] in t
    requires WellFormed(t) && WellFormed(m) && IsDir(m, dst) && Outcome(m, n, dst + [e], src + [e], ok)
    ensures ok ==> IsPart(t, n, dst, src, done + {e}) && Fits(t, dst + [e], src + [e])
    ensures !ok ==> Outcome(t, n, dst, src, false)
  {
    EntryCanCopy(t, m, dst, src, done, e);
    if ok {
      NextPart(t, m, n, dst, src, done, e);
    } else {
      NextBetween(t, m, n, dst, src, done, e);
      FitsByEntries(t, dst, src);
    }
  }

  lemma AllDone(t: Tree, u: Tree, dst: Path, src: Path, names: set<string>)
    requires WellFormed(t) && IsDir(t, src) && CanMake(t, dst) && IsPart(t, u, dst, src, names) && names == Names(t, src)
    requires Reachable(src) && forall e | e in names :: Fits(t, dst + [e], src + [e])
    ensures Outcome(t, u, dst, src, true)
  {
    LastPart(t, u, dst, src, names);
    PartIsBetween(t, u, dst, src, names);
    FitsByEntries(t, dst, src);
  }

  lemma Begin(t: Tree, u: Tree, dst: Path, src: Path, info: Info, infos: map<string, Info>, depth: nat)
    requires WellFormed(t) && WellFormed(u) && IsDir(t, src) && CanMake(t, dst) && IsMade(t, u, dst, info.mode)
    requires Reachable(src) && Confined(t, u, dst) && Deep(t, u, dst, src, depth)
    requires infos.Keys == Names(u, src) && forall e | e in infos :: infos[e] == InfoOf(u[src + [e]])
    ensures Progress(t, u, dst, src, info, infos, infos.Keys, depth)
  {
    DirectoryMade(t, u, dst, src, info);
    if src < dst { BelowItselfRecurses(t, u, dst, src, info.mode); }
    if Separate(t, dst, src) && info == InfoOf(t[src]) {
      ListedAsBefore(t, u, dst, src);
      assert infos.Keys - infos.Keys == {};
    }
    if dst == src { BeginEmptied(t, u, src, info.mode, infos); }
  }

  lemma AdvanceHalf(t: Tree, m: Tree, n: Tree, dst: Path, src: Path, infos: map<string, Info>,
                    left: set<string>, e: string, ok: bool)
    requires Separate(t, dst, src) && WellFormed(t) && IsDir(t, src) && WellFormed(m) && IsDir(m, dst)
    requires Halfway(t, m, dst, src, infos, left) && e in left && src + [e] in m
    requires Separate(m, dst + [e], src + [e]) && infos[e] == InfoOf(m[src + [e]]) ==>
               Outcome(m, n, dst + [e], src + [e], ok)
    ensures ok ==> Halfway(t, n, dst, src, infos, left - {e})
    ensures !ok ==> Outcome(t, n, dst, src, false)
  {
    var done := infos.Keys - left;
    EntryReady(t, m, dst, src, done, e);
    EntryDone(t, m, n, dst, src, done, e, ok);
    assert infos.Keys - (left - {e}) == done + {e};
  }

  lemma Advance(t: Tree, m: Tree, n: Tree, dst: Path, src: Path, info: Info, infos: map<string, Info>,
                left: set<string>, e: string, depth: nat, ok: bool)
    requires Progress(t, m, dst, src, info, infos, left, depth) && e in left
    requires WellFormed(n) && Confined(m, n, dst + [e])
    requires !(src < dst) ==> |src| + 1 <= depth && Shallow(m, n, dst + [e], src + [e], depth)
    requires infos[e].dir && src + [e] < dst + [e] ==> !ok
    requires Separate(m, dst + [e], src + [e]) && infos[e] == InfoOf(m[src + [e]]) ==>
               Outcome(m, n, dst + [e], src + [e], ok)
    requires dst == src && infos[e] == InfoOf(m[src + [e]]) ==> SelfOutcome(m, n, src + [e], ok)
    ensures Confined(t, n, dst) && Deep(t, n, dst, src, depth)
    ensures ok ==> Progress(t, n, dst, src, info, infos, left - {e}, depth)
    ensures !ok && Separate(t, dst, src) && info == InfoOf(t[src]) ==> Outcome(t, n, dst, src, false)
    ensures !ok && dst == src && info == InfoOf(t[src]) ==> SelfOutcome(t, n, src, false)
  {
    StillConfined(t, m, n, dst, src, e, depth);
    if src < dst && e == dst[|src|] { TraceFails(m, dst, src, e); }
    if Separate(t, dst, src) && info == InfoOf(t[src]) {
      AdvanceHalf(t, m, n, dst, src, infos, left, e, ok);
    }
    if dst == src && info == InfoOf(t[src]) { AdvanceEmptied(t, m, n, src, infos, left, e, ok); }
  }

  /** The entry of the source that leads to the destination is a directory above where it would go. */
  lemma TraceFails(m: Tree, dst: Path, src: Path, e: string)
    requires WellFormed(m) && src < dst && IsDir(m, dst) && e == dst[|src|]
    ensures IsDir(m, src + [e]) && src + [e] < dst + [e]
  {
    assert src + [e] == dst[..|src| + 1];
    PrefixesExist(m, dst, src + [e]);
    assert src + [e] <= dst < dst + [e];
  }

  lemma Finish(t: Tree, u: Tree, dst: Path, src: Path, info: Info, infos: map<string, Info>, depth: nat)
    requires Progress(t, u, dst, src, info, infos, {}, depth)
    ensures Separate(t, dst, src) && info == InfoOf(t[src]) ==> Outcome(t, u, dst, src, true)
    ensures dst == src && info == InfoOf(t[src]) ==> SelfOutcome(t, u, src, true)
  {
    if dst == src && info == InfoOf(t[src]) { AllEmptied(t, u, src, infos); }
    if Separate(t, dst, src) && info == InfoOf(t[src]) {
      assert infos.Keys - {} == infos.Keys;
      AllDone(t, u, dst, src, infos.Keys);
    }
  }

  // ---------------------------------------------------------------- a copy onto itself

  lemma OwnOrigin(src: Path, q: Path)
    requires src <= q
    ensures src + q[|src|..] == q
  {
  }

  /** Something fits itself when all its names can be used. */
  lemma SelfFits(t: Tree, src: Path)
    ensures Fits(t, src, src) <==> forall q | q in t && src <= q :: Reachable(q)
  {
    forall q | q in t && src <= q ensures Matches(t, src + q[|src|..], q) <==> Reachable(q) { OwnOrigin(src, q); }
  }

  lemma SelfUnreachable(t: Tree, u: Tree, src: Path)
    requires src in t && !Reachable(src) && forall p :: At(u, p) == At(t, p)
    ensures SelfOutcome(t, u, src, false)
  {
    SelfFits(t, src);
  }

  lemma NothingMade(t: Tree, u: Tree, src: Path, mode: nat)
    requires WellFormed(t) && src in t && PartlyMade(t, u, src, mode)
    ensures forall p :: At(u, p) == At(t, p)
  {
    forall p ensures At(u, p) == At(t, p) {
      assert At(u, p) == At(t, p) || At(u, p) == MadeAt(t, src, mode, p);
      if p <= src { PrefixesExist(t, src, p); }
    }
  }

  lemma BeginEmptied(t: Tree, u: Tree, src: Path, mode: nat, infos: map<string, Info>)
    requires WellFormed(t) && src in t && IsMade(t, u, src, mode)
    requires infos.Keys == Names(u, src) && forall e | e in infos :: infos[e] == InfoOf(u[src + [e]])
    ensures HalfEmptied(t, u, src, infos, infos.Keys)
  {
    assert PartlyMade(t, u, src, mode);
    NothingMade(t, u, src, mode);
    assert infos.Keys - infos.Keys == {};
    forall p ensures At(u, p) == HalfEmptiedAt(t, src, {}, p) { assert At(u, p) == At(t, p); }
    forall e ensures src + [e] in u <==> src + [e] in t { assert At(u, src + [e]) == At(t, src + [e]); }
    forall e | e in infos ensures infos[e] == InfoOf(t[src + [e]]) { assert At(u, src + [e]) == At(t, src + [e]); }
  }

  lemma SelfNotListed(t: Tree, u: Tree, src: Path, info: Info)
    requires WellFormed(t) && IsDir(t, src) && PartlyMade(t, u, src, info.mode) && (!CanMake(t, src) || !Reachable(src))
    ensures SelfOutcome(t, u, src, false)
  {
    NothingMade(t, u, src, info.mode);
    forall a | a in t && a <= src ensures t[a].Dir? { PrefixesExist(t, src, a); }
    SelfUnreachable(t, u, src);
  }

  lemma FileEmptied(t: Tree, src: Path)
    requires WellFormed(t) && src in t && t[src].File?
    ensures Room(t, src) <==> Reachable(src)
    ensures if Reachable(src) then SelfOutcome(t, t[src := t[src].(content := "")], src, true)
            else SelfOutcome(t, t, src, false)
  {
    SelfFits(t, src);
    forall q | q in t && src <= q ensures q == src { OnlyItself(t, src, q); }
    assert IsDir(t, Parent(src));
  }

  lemma HalfEmptiedNext(t: Tree, m: Tree, src: Path, done: set<string>, e: string, p: Path)
    requires At(m, p) == HalfEmptiedAt(t, src, done, p) && e !in done
    ensures EmptiedAt(m, src + [e], p) == HalfEmptiedAt(t, src, done + {e}, p)
  {
    if src + [e] <= p { assert src <= p && p[|src|] == e; }
    if src <= p && |p| > |src| && p[|src|] == e { BelowChild(src, p); }
  }

  lemma SameKeysFit(t: Tree, m: Tree, src: Path)
    requires t.Keys == m.Keys
    ensures Fits(m, src, src) <==> Fits(t, src, src)
  {
    SelfFits(t, src);
    SelfFits(m, src);
  }

  lemma HalfEmptiedKeys(t: Tree, m: Tree, src: Path, done: set<string>)
    requires IsHalfEmptied(t, m, src, done)
    ensures m.Keys == t.Keys
    ensures forall e | e !in done && src + [e] in t :: m[src + [e]] == t[src + [e]]
  {
    forall p ensures p in m <==> p in t { assert At(m, p) == HalfEmptiedAt(t, src, done, p); }
    forall e | e !in done && src + [e] in t ensures m[src + [e]] == t[src + [e]] {
      assert At(m, src + [e]) == HalfEmptiedAt(t, src, done, src + [e]);
    }
  }

  lemma EntryEmptied(t: Tree, m: Tree, n: Tree, src: Path, done: set<string>, e: string)
    requires IsHalfEmptied(t, m, src, done) && e !in done && forall p :: At(n, p) == EmptiedAt(m, src + [e], p)
    ensures IsHalfEmptied(t, n, src, done + {e})
  {
    forall p ensures At(n, p) == HalfEmptiedAt(t, src, done + {e}, p) {
      assert At(m, p) == HalfEmptiedAt(t, src, done, p);
      HalfEmptiedNext(t, m, src, done, e, p);
    }
  }

  lemma EntryPartlyEmptied(t: Tree, m: Tree, n: Tree, src: Path, done: set<string>, e: string, p: Path)
    requires IsHalfEmptied(t, m, src, done) && e !in done
    requires At(n, p) == At(m, p) || At(n, p) == EmptiedAt(m, src + [e], p)
    ensures At(n, p) == At(t, p) || At(n, p) == EmptiedAt(t, src, p)
  {
    assert At(m, p) == HalfEmptiedAt(t, src, done, p);
    HalfEmptiedNext(t, m, src, done, e, p);
  }

  lemma EntryNotEmptied(t: Tree, m: Tree, n: Tree, src: Path, done: set<string>, e: string)
    requires WellFormed(t) && src in t && src + [e] in t && e !in done && IsHalfEmptied(t, m, src, done)
    requires SelfOutcome(m, n, src + [e], false) && !Fits(t, src + [e], src + [e])
    ensures SelfOutcome(t, n, src, false)
  {
    FitsByEntries(t, src, src);
    forall p ensures At(n, p) == At(t, p) || At(n, p) == EmptiedAt(t, src, p) {
      EntryPartlyEmptied(t, m, n, src, done, e, p);
    }
  }

  lemma AdvanceEmptied(t: Tree, m: Tree, n: Tree, src: Path, infos: map<string, Info>,
                       left: set<string>, e: string, ok: bool)
    requires WellFormed(t) && IsDir(t, src) && HalfEmptied(t, m, src, infos, left) && e in left && src + [e] in m
    requires infos[e] == InfoOf(m[src + [e]]) ==> SelfOutcome(m, n, src + [e], ok)
    ensures ok ==> HalfEmptied(t, n, src, infos, left - {e})
    ensures !ok ==> SelfOutcome(t, n, src, false)
  {
    var done := infos.Keys - left;
    HalfEmptiedKeys(t, m, src, done);
    SameKeysFit(t, m, src + [e]);
    if ok {
      EntryEmptied(t, m, n, src, done, e);
      assert infos.Keys - (left - {e}) == done + {e};
    } else {
      EntryNotEmptied(t, m, n, src, done, e);
    }
  }

  lemma EmptiedWhenDone(t: Tree, src: Path, done: set<string>, p: Path)
    requires WellFormed(t) && IsDir(t, src) && done == Names(t, src)
    ensures HalfEmptiedAt(t, src, done, p) == EmptiedAt(t, src, p)
  {
    if src <= p && p in t {
      if |p| > |src| {
        BelowChild(src, p);
        PrefixesExist(t, p, src + [p[|src|]]);
      } else {
        assert p == src;
      }
    }
  }

  lemma SelfFitsByEntries(t: Tree, src: Path, done: set<string>)
    requires WellFormed(t) && src in t && Reachable(src) && done == Names(t, src)
    requires forall e | e in done :: Fits(t, src + [e], src + [e])
    ensures Fits(t, src, src)
  {
    FitsByEntries(t, src, src);
  }

  lemma AllEmptied(t: Tree, u: Tree, src: Path, infos: map<string, Info>)
    requires WellFormed(t) && IsDir(t, src) && Reachable(src) && HalfEmptied(t, u, src, infos, {})
    ensures SelfOutcome(t, u, src, true)
  {
    var done := infos.Keys;
    assert infos.Keys - {} == done;
    SelfFitsByEntries(t, src, done);
    forall p ensures At(u, p) == EmptiedAt(t, src, p) {
      assert At(u, p) == HalfEmptiedAt(t, src, done, p);
      EmptiedWhenDone(t, src, done, p);
    }
  }

  // ---------------------------------------------------------------- what an overlay is

  /** A copy leaves its source alone, and everything that is neither below nor above its destination. */
  lemma OverlayKeeps(t: Tree, u: Tree, dst: Path, src: Path, p: Path)
    requires WellFormed(t) && Separate(t, dst, src) && IsOverlay(t, u, dst, src)
    ensures src <= p ==> At(u, p) == At(t, p)
    ensures Apart(dst, p) ==> At(u, p) == At(t, p)
    ensures p in t && !(dst <= p) ==> At(u, p) == At(t, p)
  {
    assert At(u, p) == OverlayAt(t, dst, src, p);
    if src <= p { SourceStays(t, dst, src, p); }
  }

  /** Every file of the source is found at the destination, and every file found there was in one of the two. */
  lemma OverlayContents(t: Tree, u: Tree, dst: Path, src: Path, r: Path)
    requires CanCopy(t, dst, src) && Separate(t, dst, src) && IsOverlay(t, u, dst, src)
    ensures var p, q := dst + r, src + r;
            && (q in t && t[q].File? ==> At(u, p) == At(t, q))
            && (q in t && t[q].Dir? ==> IsDir(u, p) && (p in t ==> u[p] == t[p]))
            && (q !in t ==> At(u, p) == At(t, p))
  {
    var p, q := dst + r, src + r;
    assert At(u, p) == OverlayAt(t, dst, src, p);
    assert p[|dst|..] == r && q[|src|..] == r;
    if q in t { assert Matches(t, dst + q[|src|..], q); }
  }

  /** What is above the destination of a copy, and at it, is there afterwards. */
  lemma OverlayReaches(t: Tree, u: Tree, dst: Path, src: Path)
    requires WellFormed(u) && src in t && IsOverlay(t, u, dst, src)
    ensures dst in u && forall a | a <= dst :: a in u && (a != dst ==> u[a].Dir?)
  {
    assert At(u, dst) == OverlayAt(t, dst, src, dst) && src + dst[|dst|..] == src;
    forall a | a <= dst ensures a in u && (a != dst ==> u[a].Dir?) { PrefixesExist(u, dst, a); }
  }

  lemma FitsAgain(t: Tree, u: Tree, dst: Path, src: Path)
    requires WellFormed(t) && CanCopy(t, dst, src) && Separate(t, dst, src) && IsOverlay(t, u, dst, src)
    ensures Fits(u, dst, src)
  {
    forall q | q in u && src <= q ensures Matches(u, dst + q[|src|..], q) {
      OverlayKeeps(t, u, dst, src, q);
      OverlayContents(t, u, dst, src, q[|src|..]);
      assert src + q[|src|..] == q;
    }
  }

  lemma SettledAt(t: Tree, u: Tree, dst: Path, src: Path, p: Path)
    requires WellFormed(t) && CanCopy(t, dst, src) && Separate(t, dst, src) && IsOverlay(t, u, dst, src) && dst <= p
    ensures At(u, p) == OverlayAt(u, dst, src, p)
  {
    var r := p[|dst|..];
    OverlayContents(t, u, dst, src, r);
    OverlayKeeps(t, u, dst, src, src + r);
    assert dst + r == p;
  }

  /** Copying again is possible and changes nothing. */
  lemma CopyTwice(t: Tree, u: Tree, dst: Path, src: Path)
    requires WellFormed(t) && WellFormed(u) && CanCopy(t, dst, src) && Separate(t, dst, src) && IsOverlay(t, u, dst, src)
    ensures CanCopy(u, dst, src) && IsOverlay(u, u, dst, src)
  {
    FitsAgain(t, u, dst, src);
    OverlayReaches(t, u, dst, src);
    OverlayKeeps(t, u, dst, src, src);
    forall p ensures At(u, p) == OverlayAt(u, dst, src, p) {
      if dst <= p { SettledAt(t, u, dst, src, p); }
    }
    if u[src].File? { assert Parent(dst) <= dst; }
  }

  /** A directory copied below itself lists its own copy, and so meets the same situation one level down. */
  lemma BelowItselfRecurses(t: Tree, u: Tree, dst: Path, src: Path, mode: nat)
    requires src < dst && IsDir(t, src) && CanMake(t, dst) && IsMade(t, u, dst, mode)
    ensures var e := dst[|src|];
            e in Names(u, src) && IsDir(u, src + [e]) && src + [e] < dst + [e]
  {
    var e := dst[|src|];
    assert src + [e] == dst[..|src| + 1];
    assert src + [e] <= dst;
    assert At(u, src + [e]) == MadeAt(t, dst, mode, src + [e]);
  }
}

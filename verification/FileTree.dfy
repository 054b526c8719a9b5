/** File trees as values, and what copying one subtree over another is meant to do to them. */
module FileTree {
  import opened Common

  datatype Node = Dir(mode: nat) | File(mode: nat, content: string)

  type Tree = map<Path, Node>

  function At(t: Tree, p: Path): Option<Node> {
    if p in t then Some(t[p]) else None
  }

  function Parent(p: Path): Path
    requires p != []
  {
    p[..|p| - 1]
  }

  predicate IsDir(t: Tree, p: Path) {
    p in t && t[p].Dir?
  }

  /** There is a root, and everything else is in a directory. */
  ghost predicate WellFormed(t: Tree) {
    IsDir(t, []) && forall p | p in t && p != [] :: IsDir(t, Parent(p))
  }

  /** Neither path is at or below the other. */
  predicate Apart(a: Path, b: Path) {
    !(a <= b) && !(b <= a)
  }

  /**
   What is copied from `src` to `dst` does not land in `src`: the two are apart, or `dst` is above
   `src` and nothing in `src` has the name that leads from `dst` to it.
   */
  predicate Separate(t: Tree, dst: Path, src: Path) {
    !(src <= dst) && (dst <= src ==> src + [src[|dst|]] !in t)
  }

  // ---------------------------------------------------------------- names the system accepts

  /** The system's limit on a path, with its terminating byte; every call refuses a longer one. */
  const PATH_MAX := 4096

  /** The length of the path's text, a slash before each name. */
  function Length(p: Path): (n: nat)
    ensures n >= |p|
  {
    if p == [] then 0 else Length(p[..|p| - 1]) + 1 + |p[|p| - 1]|
  }

  predicate Reachable(p: Path) {
    Length(p) < PATH_MAX
  }

  lemma LengthOfChild(p: Path, e: string)
    ensures Length(p + [e]) == Length(p) + 1 + |e|
  {
    assert (p + [e])[..|p|] == p;
  }

  lemma {:induction false} ReachableAbove(p: Path, a: Path)
    requires a <= p
    ensures Length(a) <= Length(p)
    decreases |p|
  {
    if a != p {
      assert a <= Parent(p);
      ReachableAbove(Parent(p), a);
    }
  }

  // ---------------------------------------------------------------- the overlay

  /**
   What is at `p` after `src` has been copied over `dst`.  Below `dst`, files of `src` win with
   content and mode, directories are added but keep their mode where they were, and everything
   else stays; missing directories above `dst` get the mode of `src`.
   */
  function OverlayAt(t: Tree, dst: Path, src: Path, p: Path): Option<Node> {
    if dst <= p then
      var q := src + p[|dst|..];
      if q !in t || (t[q].Dir? && p in t) then At(t, p) else Some(t[q])
    else if p <= dst && p !in t && IsDir(t, src) then Some(Dir(t[src].mode))
    else At(t, p)
  }

  ghost predicate IsOverlay(t: Tree, u: Tree, dst: Path, src: Path) {
    forall p :: At(u, p) == OverlayAt(t, dst, src, p)
  }

  /** Every path holds what it did or what it is meant to hold. */
  ghost predicate Between(t: Tree, u: Tree, dst: Path, src: Path) {
    forall p :: At(u, p) == At(t, p) || At(u, p) == OverlayAt(t, dst, src, p)
  }

  /** A file does not meet a directory, and both paths can be named. */
  predicate Matches(t: Tree, p: Path, q: Path) {
    (p in t && q in t ==> (t[p].Dir? <==> t[q].Dir?)) && Reachable(p) && Reachable(q)
  }

  ghost predicate Fits(t: Tree, dst: Path, src: Path) {
    forall q | q in t && src <= q :: Matches(t, dst + q[|src|..], q)
  }

  /** No file is where a directory above `dst` has to be. */
  ghost predicate DirsAbove(t: Tree, dst: Path) {
    forall a | a in t && a < dst :: t[a].Dir?
  }

  /** When a copy can succeed: a file needs the directory it goes to, a directory makes its own. */
  ghost predicate CanCopy(t: Tree, dst: Path, src: Path) {
    && src in t && Fits(t, dst, src) && DirsAbove(t, dst)
    && (t[src].File? ==> dst != [] && Parent(dst) in t)
  }

  // ---------------------------------------------------------------- paths

  lemma {:induction false} PrefixesExist(t: Tree, p: Path, a: Path)
    requires WellFormed(t) && p in t && a <= p
    ensures a in t && (a != p ==> t[a].Dir?)
    decreases |p|
  {
    if a != p {
      assert a <= Parent(p);
      PrefixesExist(t, Parent(p), a);
    }
  }

  /** Entries of separate places are apart. */
  lemma ChildrenApart(t: Tree, dst: Path, src: Path, e: string)
    requires Separate(t, dst, src) && src + [e] in t
    ensures Apart(dst + [e], src + [e])
  {
    if src + [e] <= dst + [e] { PrefixOfShorter(src, dst + [e], dst); }
    if dst + [e] <= src + [e] {
      PrefixOfShorter(dst, src + [e], src);
    }
  }

  /** An overlay over a separate place leaves the source as it is. */
  lemma SourceStays(t: Tree, dst: Path, src: Path, p: Path)
    requires WellFormed(t) && Separate(t, dst, src) && src <= p
    ensures OverlayAt(t, dst, src, p) == At(t, p)
  {
    if dst <= p {
      if |src| <= |dst| { PrefixOfShorter(src, p, dst); } else { PrefixOfShorter(dst, p, src); }
      var q := src + p[|dst|..];
      if q in t {
        assert p[|dst|] == src[|dst|];
        assert src + [src[|dst|]] <= q;
        PrefixesExist(t, q, src + [src[|dst|]]);
      }
    } else if p <= dst {
      PrefixOfShorter(src, dst, p);
    }
  }

  lemma PrefixOfShorter(a: Path, p: Path, b: Path)
    requires a <= p && b <= p && |a| <= |b|
    ensures a <= b
  {
    assert a == p[..|a|] && b == p[..|b|];
    assert b[..|a|] == a;
  }

  /** Where a path below `dst + [e]` comes from, seen from `dst` and from `dst + [e]`. */
  lemma SameOrigin(dst: Path, src: Path, e: string, p: Path)
    requires dst + [e] <= p
    ensures dst <= p && |p| > |dst| && p[|dst|] == e
    ensures (src + [e]) + p[|dst + [e]|..] == src + p[|dst|..]
  {
    var d := |dst|;
    assert p[..d + 1] == dst + [e];
    assert p[d..] == [p[d]] + p[d + 1..];
  }

  lemma BelowChild(dst: Path, p: Path)
    requires dst <= p && |p| > |dst|
    ensures dst + [p[|dst|]] <= p
  {
  }

  // ---------------------------------------------------------------- copying entry by entry

  /** What is at `p` when of the entries of `src` only those named in `done` have been copied. */
  function PartAt(t: Tree, dst: Path, src: Path, done: set<string>, p: Path): Option<Node> {
    if dst <= p && |p| > |dst| && p[|dst|] !in done then At(t, p) else OverlayAt(t, dst, src, p)
  }

  ghost predicate IsPart(t: Tree, m: Tree, dst: Path, src: Path, done: set<string>) {
    forall p :: At(m, p) == PartAt(t, dst, src, done, p)
  }

  /** A part leaves the source and the remaining entries of the destination alone, and makes `dst`. */
  lemma PartKeeps(t: Tree, m: Tree, dst: Path, src: Path, done: set<string>, p: Path)
    requires IsPart(t, m, dst, src, done) && WellFormed(t) && Separate(t, dst, src) && IsDir(t, src)
    ensures src <= p ==> At(m, p) == At(t, p)
    ensures dst <= p && |p| > |dst| && p[|dst|] !in done ==> At(m, p) == At(t, p)
    ensures p <= dst ==> p in m
  {
    assert At(m, p) == PartAt(t, dst, src, done, p);
    if src <= p { SourceStays(t, dst, src, p); }
    if p == dst { assert src + p[|dst|..] == src; }
  }

  /** One entry more, at one path. */
  lemma NextAt(t: Tree, m: Tree, dst: Path, src: Path, done: set<string>, e: string, p: Path)
    requires IsPart(t, m, dst, src, done) && WellFormed(t) && Separate(t, dst, src) && IsDir(t, src) && e !in done
    ensures OverlayAt(m, dst + [e], src + [e], p) == PartAt(t, dst, src, done + {e}, p)
  {
    PartKeeps(t, m, dst, src, done, p);
    assert At(m, p) == PartAt(t, dst, src, done, p);
    if dst + [e] <= p {
      SameOrigin(dst, src, e, p);
      PartKeeps(t, m, dst, src, done, src + p[|dst|..]);
    } else {
      if p <= dst + [e] { PrefixOfShorter(p, dst + [e], dst); }
      if dst <= p && |p| > |dst| && p[|dst|] == e { BelowChild(dst, p); }
    }
  }

  lemma NextPart(t: Tree, m: Tree, n: Tree, dst: Path, src: Path, done: set<string>, e: string)
    requires IsPart(t, m, dst, src, done) && WellFormed(t) && Separate(t, dst, src) && IsDir(t, src) && e !in done
    requires IsOverlay(m, n, dst + [e], src + [e])
    ensures IsPart(t, n, dst, src, done + {e})
  {
    forall p ensures At(n, p) == PartAt(t, dst, src, done + {e}, p) {
      NextAt(t, m, dst, src, done, e, p);
    }
  }

  lemma NextBetween(t: Tree, m: Tree, n: Tree, dst: Path, src: Path, done: set<string>, e: string)
    requires IsPart(t, m, dst, src, done) && WellFormed(t) && Separate(t, dst, src) && IsDir(t, src) && e !in done
    requires Between(m, n, dst + [e], src + [e])
    ensures Between(t, n, dst, src)
  {
    forall p ensures At(n, p) == At(t, p) || At(n, p) == OverlayAt(t, dst, src, p) {
      NextAt(t, m, dst, src, done, e, p);
      assert At(m, p) == PartAt(t, dst, src, done, p);
    }
  }

  lemma PartIsBetween(t: Tree, m: Tree, dst: Path, src: Path, done: set<string>)
    requires IsPart(t, m, dst, src, done)
    ensures Between(t, m, dst, src)
  {
    forall p ensures At(m, p) == At(t, p) || At(m, p) == OverlayAt(t, dst, src, p) {
      assert At(m, p) == PartAt(t, dst, src, done, p);
    }
  }

  /** When all entries are done the copy is. */
  lemma LastPart(t: Tree, m: Tree, dst: Path, src: Path, done: set<string>)
    requires WellFormed(t) && IsPart(t, m, dst, src, done) && forall e | src + [e] in t :: e in done
    ensures IsOverlay(t, m, dst, src)
  {
    forall p ensures At(m, p) == OverlayAt(t, dst, src, p) {
      assert At(m, p) == PartAt(t, dst, src, done, p);
      if dst <= p && |p| > |dst| && p[|dst|] !in done {
        var q := src + p[|dst|..];
        if q in t {
          PrefixesExist(t, q, src + [p[|dst|]]);
        }
      }
    }
  }

  // ---------------------------------------------------------------- when it succeeds

  /** A directory fits when it does itself and all its entries do. */
  lemma FitsByEntries(t: Tree, dst: Path, src: Path)
    requires WellFormed(t) && src in t
    ensures Fits(t, dst, src) <==>
            Matches(t, dst, src) && forall e | src + [e] in t :: Fits(t, dst + [e], src + [e])
  {
    if Fits(t, dst, src) {
      assert Matches(t, dst + src[|src|..], src);
      assert dst + src[|src|..] == dst;
      forall e | src + [e] in t ensures Fits(t, dst + [e], src + [e]) {
        forall q | q in t && src + [e] <= q ensures Matches(t, (dst + [e]) + q[|src + [e]|..], q) {
          SameOrigin(src, dst, e, q);
        }
      }
    }
    if Matches(t, dst, src) && forall e | src + [e] in t :: Fits(t, dst + [e], src + [e]) {
      forall q | q in t && src <= q ensures Matches(t, dst + q[|src|..], q) {
        if q == src {
          assert dst + q[|src|..] == dst;
        } else {
          var e := q[|src|];
          BelowChild(src, q);
          PrefixesExist(t, q, src + [e]);
          SameOrigin(src, dst, e, q);
          assert Fits(t, dst + [e], src + [e]);
        }
      }
    }
  }

  lemma EntryMatches(t: Tree, m: Tree, dst: Path, src: Path, done: set<string>, e: string, q: Path)
    requires IsPart(t, m, dst, src, done) && WellFormed(t) && Separate(t, dst, src) && IsDir(t, src) && e !in done && src + [e] <= q
    ensures q in m <==> q in t
    ensures Matches(m, dst + [e] + q[|src + [e]|..], q) <==> Matches(t, dst + [e] + q[|src + [e]|..], q)
  {
    assert src <= q;
    PartKeeps(t, m, dst, src, done, q);
    PartKeeps(t, m, dst, src, done, dst + [e] + q[|src + [e]|..]);
  }

  /** An entry that is still to be copied fits as well as it did at the start. */
  lemma EntryStillFits(t: Tree, m: Tree, dst: Path, src: Path, done: set<string>, e: string)
    requires IsPart(t, m, dst, src, done) && WellFormed(t) && Separate(t, dst, src) && IsDir(t, src) && e !in done
    ensures Fits(m, dst + [e], src + [e]) <==> Fits(t, dst + [e], src + [e])
  {
    forall q | src + [e] <= q
      ensures q in m <==> q in t
      ensures Matches(m, dst + [e] + q[|src + [e]|..], q) <==> Matches(t, dst + [e] + q[|src + [e]|..], q)
    {
      EntryMatches(t, m, dst, src, done, e, q);
    }
  }

  /** Once `dst` is there, an entry can be copied exactly when it fits. */
  lemma EntryCanCopy(t: Tree, m: Tree, dst: Path, src: Path, done: set<string>, e: string)
    requires IsPart(t, m, dst, src, done) && WellFormed(t) && Separate(t, dst, src) && IsDir(t, src) && e !in done
    requires WellFormed(m) && IsDir(m, dst) && src + [e] in t
    ensures CanCopy(m, dst + [e], src + [e]) <==> Fits(t, dst + [e], src + [e])
  {
    EntryStillFits(t, m, dst, src, done, e);
    PartKeeps(t, m, dst, src, done, src + [e]);
    forall a | a in m && a < dst + [e] ensures m[a].Dir? {
      PrefixOfShorter(a, dst + [e], dst);
      PrefixesExist(m, dst, a);
    }
    assert Parent(dst + [e]) == dst;
  }
}

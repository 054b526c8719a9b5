/** Bringing the host's resolver and host name files into a container's root file system. */
module Rootfs {
  import opened Common
  import opened FileTree
  import opened Copy

  datatype Mount = Mount(destination: string, source: Path)

  /** The mounts that are copied rather than mounted, with the name of the file in /etc. */
  function EtcName(m: Mount): Option<string> {
    if m.destination == "/etc/resolv.conf" then Some("resolv.conf")
    else if m.destination == "/etc/hosts" then Some("hosts")
    else if m.destination == "/etc/hostname" then Some("hostname")
    else None
  }

  function EtcFile(rootfs: Path, name: string): Path {
    rootfs + ["etc"] + [name]
  }

  /** Which of the first `n` mounts is the last for a name. */
  function LastFor(mounts: seq<Mount>, n: nat, name: string): Option<Path>
    requires n <= |mounts|
  {
    if n == 0 then None
    else if EtcName(mounts[n - 1]) == Some(name) then Some(mounts[n - 1].source)
    else LastFor(mounts, n - 1, name)
  }

  const ETC_NAMES := {"resolv.conf", "hosts", "hostname"}

  /** Exactly the mounts of one of the three files are copied. */
  lemma EtcNameMeaning(m: Mount, name: string)
    ensures EtcName(m) == Some(name) <==> name in ETC_NAMES && m.destination == "/etc/" + name
  {
    var d := m.destination;
    if name in ETC_NAMES && d == "/etc/" + name {
      assert d[5..] == name;
      assert "/etc/resolv.conf"[5..] == "resolv.conf" && "/etc/hosts"[5..] == "hosts" && "/etc/hostname"[5..] == "hostname";
    }
  }

  /** Mount `k` is the last one for its destination. */
  ghost predicate IsLast(mounts: seq<Mount>, k: nat)
    requires k < |mounts|
  {
    forall j | k < j < |mounts| :: mounts[j].destination != mounts[k].destination
  }

  /** Each of the three files that is mounted has the content and mode of the source of its last mount. */
  ghost predicate FilesInPlace(t: Tree, u: Tree, rootfs: Path, mounts: seq<Mount>) {
    forall k, name | 0 <= k < |mounts| && name in ETC_NAMES && mounts[k].destination == "/etc/" + name && IsLast(mounts, k) ::
      mounts[k].source in t && At(u, rootfs + ["etc", name]) == At(t, mounts[k].source)
  }

  /** No source is a directory, or can become one when /etc is made, or is one of the three files itself. */
  ghost predicate FilesFromElsewhere(t: Tree, rootfs: Path, mounts: seq<Mount>) {
    forall k | 0 <= k < |mounts| && EtcName(mounts[k]).Some? :: FileFromElsewhere(t, rootfs, mounts[k].source)
  }

  ghost predicate FileFromElsewhere(t: Tree, rootfs: Path, q: Path) {
    !IsDir(t, q) && !(q <= rootfs + ["etc"]) && forall name | name in ETC_NAMES :: q != EtcFile(rootfs, name)
  }

  /** A mount has a file to copy, no directory in its way, and names that can be used. */
  predicate Copyable(t: Tree, rootfs: Path, m: Mount) {
    EtcName(m).Some? ==>
      && m.source in t && Reachable(m.source)
      && var dst := EtcFile(rootfs, EtcName(m).value); !IsDir(t, dst) && Reachable(dst)
  }

  /** What is at `p` once the first `n` mounts have been copied. */
  function PreparedAt(t: Tree, rootfs: Path, mounts: seq<Mount>, n: nat, p: Path): Option<Node>
    requires n <= |mounts|
  {
    var q := if p != [] && p == EtcFile(rootfs, p[|p| - 1]) then LastFor(mounts, n, p[|p| - 1]) else None;
    if q.Some? then At(t, q.value) else MadeAt(t, rootfs + ["etc"], 493, p)
  }

  ghost predicate IsPrepared(t: Tree, u: Tree, rootfs: Path, mounts: seq<Mount>, n: nat)
    requires n <= |mounts|
  {
    forall p :: At(u, p) == PreparedAt(t, rootfs, mounts, n, p)
  }

  /** Success exactly when it is possible, with the three files in place. */
  ghost predicate Result(t: Tree, u: Tree, rootfs: Path, mounts: seq<Mount>, ok: bool) {
    && (ok <==> CanMake(t, rootfs + ["etc"]) && forall k | 0 <= k < |mounts| :: Copyable(t, rootfs, mounts[k]))
    && (ok ==> IsPrepared(t, u, rootfs, mounts, |mounts|))
  }

  /** Nothing that was outside the root file system has changed or gone. */
  ghost predicate OutsideKept(t: Tree, u: Tree, rootfs: Path) {
    forall p | p in t && !(rootfs <= p) :: p in u && u[p] == t[p]
  }

  /**
   The first part of `createRootfsISO`.  It never touches what is outside the root file system.  With
   files from elsewhere as sources it succeeds exactly when /etc can be made and every mount can be
   copied, and then each of the three files is that of its last mount, while nothing but /etc has changed.
   */
  method PrepareRootfs(fs: FileSystem, rootfs: Path, mounts: seq<Mount>) returns (ok: bool)
    requires fs.Valid()
    modifies fs
    ensures fs.Valid() && OutsideKept(old(fs.nodes), fs.nodes, rootfs)
    ensures FilesFromElsewhere(old(fs.nodes), rootfs, mounts) ==> Result(old(fs.nodes), fs.nodes, rootfs, mounts, ok)
    ensures FilesFromElsewhere(old(fs.nodes), rootfs, mounts) && ok ==> FilesInPlace(old(fs.nodes), fs.nodes, rootfs, mounts)
  {
    ghost var t := fs.nodes;
    ok := MakeEtc(fs, rootfs, mounts);
    if !ok { return; }
    for k := 0 to |mounts|
      invariant fs.Valid() && OutsideKept(t, fs.nodes, rootfs)
      invariant SoFar(t, fs.nodes, rootfs, mounts, k)
    {
      if EtcName(mounts[k]).Some? {
        var copied := CopyMount(fs, rootfs, mounts, k, t);
        if !copied { return false; }
      } else {
        NotCopied(t, fs.nodes, rootfs, mounts, k);
      }
    }
    if FilesFromElsewhere(t, rootfs, mounts) { ResultMeaning(t, fs.nodes, rootfs, mounts); }
    return true;
  }

  lemma {:induction false} LastMount(mounts: seq<Mount>, n: nat, k: nat, name: string)
    requires k < n <= |mounts| && EtcName(mounts[k]) == Some(name)
    requires forall j | k < j < n :: EtcName(mounts[j]) != Some(name)
    ensures LastFor(mounts, n, name) == Some(mounts[k].source)
    decreases n
  {
    if k < n - 1 { LastMount(mounts, n - 1, k, name); }
  }

  lemma ResultMeaning(t: Tree, u: Tree, rootfs: Path, mounts: seq<Mount>)
    requires Result(t, u, rootfs, mounts, true)
    ensures FilesInPlace(t, u, rootfs, mounts)
  {
    forall k, name | 0 <= k < |mounts| && name in ETC_NAMES && mounts[k].destination == "/etc/" + name && IsLast(mounts, k)
      ensures mounts[k].source in t && At(u, rootfs + ["etc", name]) == At(t, mounts[k].source)
    {
      EtcNameMeaning(mounts[k], name);
      forall j | k < j < |mounts| ensures EtcName(mounts[j]) != Some(name) {
        EtcNameMeaning(mounts[j], name);
      }
      LastMount(mounts, |mounts|, k, name);
      assert Copyable(t, rootfs, mounts[k]);
      var p := rootfs + ["etc", name];
      assert p == EtcFile(rootfs, name);
      assert At(u, p) == PreparedAt(t, rootfs, mounts, |mounts|, p);
    }
  }

  /** The first step: /etc itself. */
  method MakeEtc(fs: FileSystem, rootfs: Path, mounts: seq<Mount>) returns (ok: bool)
    requires fs.Valid()
    modifies fs
    ensures fs.Valid() && OutsideKept(old(fs.nodes), fs.nodes, rootfs)
    ensures ok ==> CanMake(old(fs.nodes), rootfs + ["etc"]) && SoFar(old(fs.nodes), fs.nodes, rootfs, mounts, 0)
    ensures !ok ==> Result(old(fs.nodes), fs.nodes, rootfs, mounts, false)
  {
    ok := fs.MkdirAll(rootfs + ["etc"], 493);
    EtcMade(old(fs.nodes), fs.nodes, rootfs, mounts, ok);
  }

  /** One mount's file, copied to its place. */
  method CopyMount(fs: FileSystem, rootfs: Path, mounts: seq<Mount>, k: nat, ghost t: Tree) returns (ok: bool)
    requires k < |mounts| && EtcName(mounts[k]).Some? && WellFormed(t) && CanMake(t, rootfs + ["etc"])
    requires fs.Valid() && OutsideKept(t, fs.nodes, rootfs) && SoFar(t, fs.nodes, rootfs, mounts, k)
    modifies fs
    ensures fs.Valid() && OutsideKept(t, fs.nodes, rootfs)
    ensures ok ==> SoFar(t, fs.nodes, rootfs, mounts, k + 1)
    ensures !ok && FilesFromElsewhere(t, rootfs, mounts) ==> Result(t, fs.nodes, rootfs, mounts, false)
  {
    ghost var m := fs.nodes;
    ok := fs.Copy(EtcFile(rootfs, EtcName(mounts[k]).value), mounts[k].source);
    StillOutside(t, m, fs.nodes, rootfs, EtcName(mounts[k]).value);
    MountDone(t, m, fs.nodes, rootfs, mounts, k, ok);
  }

  /** The first `n` mounts could be copied and have been. */
  ghost predicate SoFar(t: Tree, u: Tree, rootfs: Path, mounts: seq<Mount>, n: nat)
    requires n <= |mounts|
  {
    FilesFromElsewhere(t, rootfs, mounts) ==>
      IsPrepared(t, u, rootfs, mounts, n) && forall j | 0 <= j < n :: Copyable(t, rootfs, mounts[j])
  }

  lemma EtcMade(t: Tree, u: Tree, rootfs: Path, mounts: seq<Mount>, ok: bool)
    requires PartlyMade(t, u, rootfs + ["etc"], 493) && (ok ==> IsMade(t, u, rootfs + ["etc"], 493))
    requires ok <==> CanMake(t, rootfs + ["etc"])
    ensures OutsideKept(t, u, rootfs)
    ensures ok ==> SoFar(t, u, rootfs, mounts, 0)
    ensures !ok ==> Result(t, u, rootfs, mounts, false)
  {
    forall p | p in t ensures p in u && u[p] == t[p] {
      assert At(u, p) == At(t, p) || At(u, p) == MadeAt(t, rootfs + ["etc"], 493, p);
    }
    if ok {
      forall p ensures At(u, p) == PreparedAt(t, rootfs, mounts, 0, p) {
        assert At(u, p) == MadeAt(t, rootfs + ["etc"], 493, p);
      }
    }
  }

  lemma NotCopied(t: Tree, u: Tree, rootfs: Path, mounts: seq<Mount>, k: nat)
    requires k < |mounts| && EtcName(mounts[k]).None? && SoFar(t, u, rootfs, mounts, k)
    ensures SoFar(t, u, rootfs, mounts, k + 1)
  {
    if FilesFromElsewhere(t, rootfs, mounts) {
      forall p ensures At(u, p) == PreparedAt(t, rootfs, mounts, k + 1, p) {
        assert At(u, p) == PreparedAt(t, rootfs, mounts, k, p);
      }
    }
  }

  lemma StillOutside(t: Tree, m: Tree, n: Tree, rootfs: Path, name: string)
    requires OutsideKept(t, m, rootfs) && Confined(m, n, EtcFile(rootfs, name))
    ensures OutsideKept(t, n, rootfs)
  {
    assert rootfs <= EtcFile(rootfs, name);
  }

  lemma MountDone(t: Tree, m: Tree, n: Tree, rootfs: Path, mounts: seq<Mount>, k: nat, ok: bool)
    requires k < |mounts| && EtcName(mounts[k]).Some?
    requires SoFar(t, m, rootfs, mounts, k) && WellFormed(t) && CanMake(t, rootfs + ["etc"])
    requires var dst, src := EtcFile(rootfs, EtcName(mounts[k]).value), mounts[k].source;
             (src !in m ==> !ok) && (src in m && m[src].File? ==> FileResult(m, n, dst, src, ok))
    ensures ok ==> SoFar(t, n, rootfs, mounts, k + 1)
    ensures FilesFromElsewhere(t, rootfs, mounts) ==> (ok <==> Copyable(t, rootfs, mounts[k]))
  {
    if FilesFromElsewhere(t, rootfs, mounts) {
      assert FileFromElsewhere(t, rootfs, mounts[k].source);
      ReadyToCopy(t, m, rootfs, mounts, k);
      if ok { OneMorePrepared(t, m, rootfs, mounts, k); }
    }
  }

  lemma {:induction false} LastForIsEtc(mounts: seq<Mount>, n: nat, name: string)
    requires n <= |mounts| && LastFor(mounts, n, name).Some?
    ensures name in ETC_NAMES
    decreases n
  {
    if EtcName(mounts[n - 1]) != Some(name) { LastForIsEtc(mounts, n - 1, name); }
  }

  /** The source is as it was, and the destination is no more a directory than it was. */
  lemma ReadyToCopy(t: Tree, m: Tree, rootfs: Path, mounts: seq<Mount>, k: nat)
    requires k < |mounts| && EtcName(mounts[k]).Some? && FilesFromElsewhere(t, rootfs, mounts)
    requires IsPrepared(t, m, rootfs, mounts, k)
    requires WellFormed(t) && CanMake(t, rootfs + ["etc"])
    requires forall j | 0 <= j < k :: Copyable(t, rootfs, mounts[j])
    ensures var dst, src := EtcFile(rootfs, EtcName(mounts[k]).value), mounts[k].source;
            && dst != src && At(m, src) == At(t, src)
            && (Room(m, dst) <==> !IsDir(t, dst) && Reachable(dst))
  {
    var name, src := EtcName(mounts[k]).value, mounts[k].source;
    var etc, dst := rootfs + ["etc"], EtcFile(rootfs, name);
    assert FileFromElsewhere(t, rootfs, src);
    assert At(m, src) == PreparedAt(t, rootfs, mounts, k, src) == At(t, src) by {
      if src != [] && src == EtcFile(rootfs, src[|src| - 1]) && LastFor(mounts, k, src[|src| - 1]).Some? {
        LastForIsEtc(mounts, k, src[|src| - 1]);
      }
    }
    assert At(m, etc) == PreparedAt(t, rootfs, mounts, k, etc);
    assert Parent(dst) == etc;
    assert At(m, dst) == PreparedAt(t, rootfs, mounts, k, dst);
    LastCopyable(t, rootfs, mounts, k, name);
  }

  lemma {:induction false} LastCopyable(t: Tree, rootfs: Path, mounts: seq<Mount>, n: nat, name: string)
    requires n <= |mounts| && FilesFromElsewhere(t, rootfs, mounts) && forall j | 0 <= j < n :: Copyable(t, rootfs, mounts[j])
    ensures var q := LastFor(mounts, n, name);
            q.Some? ==> q.value in t && t[q.value].File? && !IsDir(t, EtcFile(rootfs, name))
    decreases n
  {
    if n > 0 {
      LastCopyable(t, rootfs, mounts, n - 1, name);
      assert Copyable(t, rootfs, mounts[n - 1]);
      assert EtcName(mounts[n - 1]).Some? ==> FileFromElsewhere(t, rootfs, mounts[n - 1].source);
    }
  }

  lemma OneMorePrepared(t: Tree, m: Tree, rootfs: Path, mounts: seq<Mount>, k: nat)
    requires k < |mounts| && EtcName(mounts[k]).Some? && IsPrepared(t, m, rootfs, mounts, k)
    requires mounts[k].source in m && At(m, mounts[k].source) == At(t, mounts[k].source)
    ensures var dst := EtcFile(rootfs, EtcName(mounts[k]).value);
            IsPrepared(t, m[dst := m[mounts[k].source]], rootfs, mounts, k + 1)
  {
    var dst := EtcFile(rootfs, EtcName(mounts[k]).value);
    var u := m[dst := m[mounts[k].source]];
    forall p ensures At(u, p) == PreparedAt(t, rootfs, mounts, k + 1, p) {
      assert At(m, p) == PreparedAt(t, rootfs, mounts, k, p);
      assert p == dst ==> p[|p| - 1] == EtcName(mounts[k]).value;
    }
  }
}

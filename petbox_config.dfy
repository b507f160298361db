/**
 * crates/petbox/src/config.rs: where petbox keeps its containers. The
 * environment and the XDG lookup are parameters; paths are strings joined
 * the way `PathBuf::join` joins them on Unix.
 */
module PetboxConfig {
  import opened Wrappers
  import opened Text

  datatype Config = Config(dataDir: string)

  predicate IsAbsolute(p: string) {
    |p| > 0 && p[0] == '/'
  }

  /**
   * `base.join(p)`: an absolute `p` replaces `base`; otherwise `p` is
   * appended, with a '/' in between unless `base` is empty or already ends
   * with one.
   */
  function PathJoin(base: string, p: string): (r: string)
    ensures IsAbsolute(p) ==> r == p
    ensures !IsAbsolute(p) ==> exists mid :: mid in {"", "/"} && r == base + mid + p
    ensures !IsAbsolute(p) ==> base <= r && |p| <= |r| && r[|r| - |p|..] == p
  {
    if IsAbsolute(p) then p
    else if base == [] || base[|base| - 1] == '/' then
      assert base + "" + p == base + p;
      base + p
    else base + "/" + p
  }

  const PREFIX: string := "petbox"
  const CONTAINERS: string := "containers"
  const ROOTFS: string := "rootfs"

  /**
   * `Config::build`: `PETBOX_DATA_DIR` if the variable is set (`env`),
   * otherwise the XDG data home (`xdgDataHome`) joined with the prefix
   * `petbox`; `None` where the XDG lookup panics.
   */
  function Build(env: Option<string>, xdgDataHome: Option<string>): (r: Option<Config>)
    ensures env.Some? ==> r == Some(Config(env.value))
    ensures env.None? ==> (r.Some? <==> xdgDataHome.Some?)
    ensures env.None? && xdgDataHome.Some? && xdgDataHome.value != [] && xdgDataHome.value[|xdgDataHome.value| - 1] != '/' ==>
      r == Some(Config(xdgDataHome.value + "/" + PREFIX))
  {
    match env
    case Some(dir) => Some(Config(dir))
    case None =>
      match xdgDataHome
      case Some(home) => Some(Config(PathJoin(home, PREFIX)))
      case None => None
  }

  /**
   * `get_container_dir(name)`: the data directory, then `containers`, then
   * `name`. A relative name lands under the data directory; an absolute one
   * replaces it.
   */
  function ContainerDir(c: Config, name: string): (r: string)
    ensures IsAbsolute(name) ==> r == name
    ensures !IsAbsolute(name) ==> c.dataDir <= r && |name| <= |r| && r[|r| - |name|..] == name
    ensures !IsAbsolute(name) ==> |r| >= |c.dataDir| + |CONTAINERS| + |name|
  {
    PathJoin(PathJoin(c.dataDir, CONTAINERS), name)
  }

  /** `get_container_rootfs(name)`: the container directory, then `rootfs`, so always under it. */
  function ContainerRootfs(c: Config, name: string): (r: string)
    ensures |ContainerDir(c, name)| + |ROOTFS| <= |r| <= |ContainerDir(c, name)| + 1 + |ROOTFS|
    ensures ContainerDir(c, name) <= r && r[|r| - |ROOTFS|..] == ROOTFS
  {
    PathJoin(ContainerDir(c, name), ROOTFS)
  }

  /**
   * For a data directory that does not end in '/' and a name that is one
   * relative segment, the rootfs path is the data directory's segments
   * followed by `containers`, the name and `rootfs`: it extends the
   * container directory by one segment.
   */
  lemma RootfsSegments(c: Config, name: string)
    requires c.dataDir != [] && c.dataDir[|c.dataDir| - 1] != '/'
    requires name != [] && '/' !in name
    ensures ContainerDir(c, name) == c.dataDir + "/" + CONTAINERS + "/" + name
    ensures ContainerRootfs(c, name) == ContainerDir(c, name) + "/" + ROOTFS
    ensures Split(ContainerRootfs(c, name), '/') == Split(c.dataDir, '/') + [CONTAINERS, name, ROOTFS]
  {
    var d := c.dataDir;
    var names := [CONTAINERS, name, ROOTFS];
    assert ContainerDir(c, name) == d + "/" + CONTAINERS + "/" + name;
    assert ContainerRootfs(c, name) == ContainerDir(c, name) + "/" + ROOTFS;
    Regroup(d, CONTAINERS, name, ROOTFS);
    JoinRootfsNames(name);
    RootfsNamesHaveNoSlash(name);
    AppendSegments(d, names);
  }

  /** The three names below the data directory, joined by '/'. */
  lemma JoinRootfsNames(name: string)
    ensures Join([CONTAINERS, name, ROOTFS], '/') == CONTAINERS + "/" + name + "/" + ROOTFS
  {
    var names := [CONTAINERS, name, ROOTFS];
    assert names[1..] == [name, ROOTFS];
    assert names[1..][1..] == [ROOTFS];
    assert Join(names[1..], '/') == name + "/" + ROOTFS;
    assert Join(names, '/') == CONTAINERS + "/" + (name + "/" + ROOTFS);
  }

  /** Appending '/' and segments free of '/' to a path appends them to its segments. */
  lemma AppendSegments(d: string, names: seq<string>)
    requires |names| >= 1
    requires forall i :: 0 <= i < |names| ==> '/' !in names[i]
    ensures Split(d + "/" + Join(names, '/'), '/') == Split(d, '/') + names
  {
    JoinSplit(d, '/');
    JoinAppend(Split(d, '/'), names, '/');
    var parts := Split(d, '/') + names;
    assert Join(parts, '/') == d + "/" + Join(names, '/');
    forall i | 0 <= i < |parts|
      ensures '/' !in parts[i]
    {
      if i >= |Split(d, '/')| {
        assert parts[i] == names[i - |Split(d, '/')|];
      }
    }
    SplitJoin(parts, '/');
  }

  lemma RootfsNamesHaveNoSlash(name: string)
    requires '/' !in name
    ensures var names := [CONTAINERS, name, ROOTFS];
      forall i :: 0 <= i < |names| ==> '/' !in names[i]
  {
    assert '/' !in CONTAINERS && '/' !in ROOTFS;
  }

  /** The path `a/b/c/e`, built left to right, is `a` followed by `/b/c/e`. */
  lemma Regroup(a: string, b: string, c: string, e: string)
    ensures a + "/" + b + "/" + c + "/" + e == a + "/" + (b + "/" + c + "/" + e)
  {
  }

  /** Joining two lists of pieces is joining each and putting a separator between them. */
  lemma {:induction false} JoinAppend(p: seq<string>, q: seq<string>, sep: char)
    requires |p| >= 1 && |q| >= 1
    ensures Join(p + q, sep) == Join(p, sep) + [sep] + Join(q, sep)
  {
    assert (p + q)[0] == p[0];
    assert (p + q)[1..] == p[1..] + q;
    if |p| > 1 {
      JoinAppend(p[1..], q, sep);
    }
  }

  /** An absolute name is not kept under the data directory: it replaces the whole path. */
  lemma AbsoluteNameLeavesDataDir(c: Config, name: string)
    requires IsAbsolute(name)
    ensures ContainerDir(c, name) == name
    ensures ContainerRootfs(c, name) == PathJoin(name, ROOTFS)
  {
  }
}

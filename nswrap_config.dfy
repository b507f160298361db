/**
 * The configuration types of nswrap (crates/nswrap/src/config.rs): which
 * namespaces to act on, the target process, root, mounts and id mappings.
 * They mirror the OCI Runtime Specification's process, root, mounts and
 * Linux user namespace mappings.
 */
module NsConfig {
  import W = Wrappers
  import opened Text

  datatype NamespaceType = Mount | Cgroup | Uts | Ipc | User | Pid | Network | Time

  /** `#[default]` on the `User` variant. */
  const DEFAULT_NAMESPACE_TYPE: NamespaceType := NamespaceType.User

  /** What to do with one namespace kind: nothing, create a new one, or join the one `fd` refers to. */
  datatype NamespaceItem = None | Unshare | Enter(fd: int)

  const DEFAULT_NAMESPACE_ITEM: NamespaceItem := None

  /** One action per supported kind; there is no slot for `Time`. */
  datatype NamespaceSet = NamespaceSet(
    user: NamespaceItem,
    mount: NamespaceItem,
    cgroup: NamespaceItem,
    uts: NamespaceItem,
    ipc: NamespaceItem,
    pid: NamespaceItem,
    network: NamespaceItem)

  const DEFAULT_NAMESPACE_SET: NamespaceSet :=
    NamespaceSet(None, None, None, None, None, None, None)

  /** The order in which the launcher visits the kinds of a set. */
  const KIND_ORDER: seq<NamespaceType> := [NamespaceType.User, Mount, Cgroup, Uts, Ipc, Pid, Network]

  /** The slot of a set that holds the action for `k`, if the set has one. */
  function Slot(s: NamespaceSet, k: NamespaceType): W.Option<NamespaceItem> {
    match k
    case User => W.Some(s.user)
    case Mount => W.Some(s.mount)
    case Cgroup => W.Some(s.cgroup)
    case Uts => W.Some(s.uts)
    case Ipc => W.Some(s.ipc)
    case Pid => W.Some(s.pid)
    case Network => W.Some(s.network)
    case Time => W.None
  }

  /** Exactly the seven kinds the launcher visits have a slot; a time action cannot be expressed. */
  lemma SlotsAreTheVisitedKinds(s: NamespaceSet, k: NamespaceType)
    ensures Slot(s, k).Some? <==> k in KIND_ORDER
    ensures Slot(s, Time) == W.None
  {
  }

  datatype Root = RootFs(path: string, readonly: W.Option<bool>)

  const DEFAULT_ROOT: Root := RootFs("", W.None)

  datatype Mount = MountPoint(
    destination: string,
    typ: W.Option<string>,
    source: W.Option<string>,
    options: W.Option<seq<string>>)

  const DEFAULT_MOUNT: Mount := MountPoint("", W.None, W.None, W.None)

  datatype User = User(uid: u32, gid: u32)

  datatype Process = Process(
    user: W.Option<User>,
    bin: string,
    args: seq<string>,
    env: W.Option<seq<string>>,
    cwd: string)

  const DEFAULT_PROCESS: Process := Process(W.None, "", [], W.None, "")

  /** `size` ids starting at `hostId` outside map to ids starting at `containerId` inside. */
  datatype IdMap = IdMap(hostId: u32, containerId: u32, size: u32)

  const DEFAULT_ID_MAP: IdMap := IdMap(0, 0, 0)

  /** The id inside the namespace that host id `h` becomes under `m`, if `m` covers it. */
  function ContainerIdOf(m: IdMap, h: nat): (c: W.Option<nat>)
    ensures c.Some? <==> m.hostId <= h < m.hostId + m.size
    ensures c.Some? ==> m.containerId <= c.value < m.containerId + m.size
  {
    if m.hostId <= h < m.hostId + m.size then W.Some(h - m.hostId + m.containerId) else W.None
  }

  /** The host id behind id `c` inside the namespace, if `m` covers it. */
  function HostIdOf(m: IdMap, c: nat): (h: W.Option<nat>)
    ensures h.Some? <==> m.containerId <= c < m.containerId + m.size
  {
    if m.containerId <= c < m.containerId + m.size then W.Some(c - m.containerId + m.hostId) else W.None
  }

  /** An entry is a bijection between its two ranges. */
  lemma IdMapRoundTrip(m: IdMap, h: nat)
    requires m.hostId <= h < m.hostId + m.size
    ensures ContainerIdOf(m, h).Some? && HostIdOf(m, ContainerIdOf(m, h).value) == W.Some(h)
  {
  }

  datatype IdMapPreset = Root | Current | Auto
}

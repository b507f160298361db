/**
 * crates/petbox/src/container.rs: the `/etc/subuid` records, the choice of
 * the current user's record, the two-entry id maps built from it and the
 * command `install_rootfs` prepares. The file's lines, the password
 * database (`User::from_name`), getuid(2) and the outcome of creating the
 * container directory are parameters; a panic is an `Err`.
 */
module PetboxContainer {
  import opened Wrappers
  import opened Text

  /** One subordinate-id record: `count` ids from `subxid` belong to user `xid`. */
  datatype SubXidMap = SubXidMap(xid: u32, subxid: u32, count: u32)

  /** The point at which the helpers panic. Lines are numbered from 0. */
  datatype Panic = MalformedLine(line: nat) | NoSubuidRecord | CreateDirFailed

  const SUBUID_PATH: string := "/etc/subuid"

  /** The first field: a `u32` if it parses as one, else the uid the password database gives that name. */
  function ResolveXid(field: string, users: map<string, u32>): Option<u32> {
    match ParseU32(field)
    case Some(v) => Some(v)
    case None => if field in users then Some(users[field]) else None
  }

  /**
   * One line split on ':': fields 0, 1 and 2 give `xid`, `subxid` and
   * `count`; fields after the third are ignored. `None` where the source
   * panics: fewer than three fields, an unknown user, a field 1 or 2 that is
   * not a `u32`.
   */
  function ParseLine(line: string, users: map<string, u32>): (r: Option<SubXidMap>)
    ensures |Split(line, ':')| < 3 ==> r.None?
    ensures r.Some? ==> ResolveXid(Split(line, ':')[0], users) == Some(r.value.xid)
    ensures r.Some? ==> ParseU32(Split(line, ':')[1]) == Some(r.value.subxid as nat)
    ensures r.Some? ==> ParseU32(Split(line, ':')[2]) == Some(r.value.count as nat)
    ensures r.None? && |Split(line, ':')| >= 3 ==>
      ResolveXid(Split(line, ':')[0], users).None? || ParseU32(Split(line, ':')[1]).None? || ParseU32(Split(line, ':')[2]).None?
  {
    var v := Split(line, ':');
    if |v| < 3 then None
    else
      match (ResolveXid(v[0], users), ParseU32(v[1]), ParseU32(v[2]))
      case (Some(x), Some(s), Some(c)) => Some(SubXidMap(x, s, c))
      case _ => None
  }

  /** A record as it appears in the file, with numeric fields. */
  function FormatLine(m: SubXidMap): string {
    Join([Dec(m.xid), Dec(m.subxid), Dec(m.count)], ':')
  }

  lemma DecHasNoColon(n: nat)
    ensures ':' !in Dec(n)
  {
  }

  /** A numeric record reads back as itself, whatever the password database holds. */
  lemma ParseFormattedLine(m: SubXidMap, users: map<string, u32>)
    ensures ParseLine(FormatLine(m), users) == Some(m)
  {
    var parts := [Dec(m.xid), Dec(m.subxid), Dec(m.count)];
    DecHasNoColon(m.xid);
    DecHasNoColon(m.subxid);
    DecHasNoColon(m.count);
    SplitJoin(parts, ':');
    ParseU32OfDec(m.xid);
    ParseU32OfDec(m.subxid);
    ParseU32OfDec(m.count);
    DecRoundTrip(m.xid);
    assert ParseU32(parts[0]) == Some(m.xid as nat);
  }

  /** A record that names its user (`alice:100000:65536`) takes the uid the password database gives that name. */
  lemma ParseNamedLine(name: string, subxid: u32, count: u32, users: map<string, u32>)
    requires name in users && ParseU32(name).None? && ':' !in name
    ensures ParseLine(Join([name, Dec(subxid), Dec(count)], ':'), users) == Some(SubXidMap(users[name], subxid, count))
  {
    var parts := [name, Dec(subxid), Dec(count)];
    DecHasNoColon(subxid);
    DecHasNoColon(count);
    SplitJoin(parts, ':');
    ParseU32OfDec(subxid);
    ParseU32OfDec(count);
  }

  /** Each line of a file parsed on its own. */
  function ParsedLines(lines: seq<string>, users: map<string, u32>): (p: seq<Option<SubXidMap>>)
    ensures |p| == |lines|
  {
    seq(|lines|, i requires 0 <= i < |lines| => ParseLine(lines[i], users))
  }

  /**
   * The records of parsed lines, in order, or a panic at the first line
   * that did not parse.
   */
  function Collect(parsed: seq<Option<SubXidMap>>): (r: Result<seq<SubXidMap>, Panic>)
    ensures r.Ok? <==> forall i :: 0 <= i < |parsed| ==> parsed[i].Some?
    ensures r.Ok? ==> |r.value| == |parsed|
    ensures r.Ok? ==> forall i :: 0 <= i < |parsed| ==> parsed[i] == Some(r.value[i])
    ensures r.Err? ==> r.error.MalformedLine? && r.error.line < |parsed|
    ensures r.Err? ==> parsed[r.error.line].None?
    ensures r.Err? ==> forall i :: 0 <= i < r.error.line ==> parsed[i].Some?
  {
    if parsed == [] then Ok([])
    else
      match parsed[0]
      case None => Err(MalformedLine(0))
      case Some(m) =>
        var tail := Collect(parsed[1..]);
        assert forall i :: 1 <= i < |parsed| ==> parsed[1..][i - 1] == parsed[i];
        match tail
        case Ok(rest) => Ok([m] + rest)
        case Err(e) => Err(MalformedLine(e.line + 1))
  }

  /** The first line that does not parse is the one collecting stops at. */
  lemma CollectStopsAt(parsed: seq<Option<SubXidMap>>, i: nat)
    requires i < |parsed| && parsed[i].None?
    requires forall k :: 0 <= k < i ==> parsed[k].Some?
    ensures Collect(parsed) == Err(MalformedLine(i))
  {
    var r := Collect(parsed);
    if r.Err? && r.error.line < i {
      assert false;
    }
  }

  /** When every line parses, collecting yields exactly the parsed records. */
  lemma CollectAllParsed(parsed: seq<Option<SubXidMap>>, maps: seq<SubXidMap>)
    requires |maps| == |parsed|
    requires forall k :: 0 <= k < |parsed| ==> parsed[k] == Some(maps[k])
    ensures Collect(parsed) == Ok(maps)
  {
    var r := Collect(parsed);
    assert r.Ok?;
    assert r.value == maps;
  }

  /** `get_subxid` on the lines of a file: one record per line in file order. */
  function Records(lines: seq<string>, users: map<string, u32>): Result<seq<SubXidMap>, Panic> {
    Collect(ParsedLines(lines, users))
  }

  /**
   * What `get_subxid` yields: a record for each line, in file order, when
   * every line parses; otherwise a panic at the first line that does not.
   */
  lemma RecordsMeaning(lines: seq<string>, users: map<string, u32>)
    ensures Records(lines, users).Ok? <==> forall i :: 0 <= i < |lines| ==> ParseLine(lines[i], users).Some?
    ensures Records(lines, users).Ok? ==> |Records(lines, users).value| == |lines|
    ensures Records(lines, users).Ok? ==>
      forall i :: 0 <= i < |lines| ==> ParseLine(lines[i], users) == Some(Records(lines, users).value[i])
    ensures Records(lines, users).Err? ==> Records(lines, users).error.MalformedLine?
    ensures Records(lines, users).Err? ==> Records(lines, users).error.line < |lines|
    ensures Records(lines, users).Err? ==> ParseLine(lines[Records(lines, users).error.line], users).None?
    ensures Records(lines, users).Err? ==>
      forall i :: 0 <= i < Records(lines, users).error.line ==> ParseLine(lines[i], users).Some?
  {
    var parsed := ParsedLines(lines, users);
    assert forall i :: 0 <= i < |lines| ==> parsed[i] == ParseLine(lines[i], users);
  }

  /** `get_subxid`: reads the records line by line, pushing each one as it is parsed. */
  method GetSubxid(lines: seq<string>, users: map<string, u32>) returns (r: Result<seq<SubXidMap>, Panic>)
    ensures r == Records(lines, users)
  {
    ghost var parsed := ParsedLines(lines, users);
    var mapvec: seq<SubXidMap> := [];
    var i := 0;
    while i < |lines|
      invariant 0 <= i <= |lines|
      invariant |mapvec| == i
      invariant forall k :: 0 <= k < i ==> parsed[k] == Some(mapvec[k])
    {
      var m := ParseLine(lines[i], users);
      assert parsed[i] == m;
      if m.None? {
        CollectStopsAt(parsed, i);
        r := Err(MalformedLine(i));
        return;
      }
      ghost var before := mapvec;
      mapvec := mapvec + [m.value];
      assert forall k :: 0 <= k < i ==> mapvec[k] == before[k];
      i := i + 1;
    }
    CollectAllParsed(parsed, mapvec);
    r := Ok(mapvec);
  }

  /** The last record that belongs to `uid`, if any. */
  function LastMatch(records: seq<SubXidMap>, uid: u32): (r: Option<SubXidMap>)
    ensures r.Some? <==> exists i :: 0 <= i < |records| && records[i].xid == uid
    ensures r.Some? ==> r.value.xid == uid
    ensures r.Some? ==>
      exists k :: 0 <= k < |records| && records[k] == r.value && forall j :: k < j < |records| ==> records[j].xid != uid
  {
    if records == [] then None
    else if records[|records| - 1].xid == uid then Some(records[|records| - 1])
    else
      var r := LastMatch(records[..|records| - 1], uid);
      assert forall i :: 0 <= i < |records| - 1 ==> records[..|records| - 1][i] == records[i];
      r
  }

  /**
   * The record `get_current_subuidmap` settles on for the user `uid`: the
   * last of theirs, a panic when there is none, or the panic of reading
   * the file.
   */
  function CurrentSubuid(lines: seq<string>, users: map<string, u32>, uid: u32): (r: Result<SubXidMap, Panic>)
    ensures Records(lines, users).Err? ==> r == Err(Records(lines, users).error)
    ensures r == Err(NoSubuidRecord) <==>
      Records(lines, users).Ok? && forall i :: 0 <= i < |Records(lines, users).value| ==> Records(lines, users).value[i].xid != uid
    ensures r.Ok? ==> r.value.xid == uid
    ensures r.Ok? ==> exists k :: (0 <= k < |Records(lines, users).value| && Records(lines, users).value[k] == r.value &&
      forall j :: k < j < |Records(lines, users).value| ==> Records(lines, users).value[j].xid != uid)
  {
    match Records(lines, users)
    case Err(e) => Err(e)
    case Ok(recs) =>
      match LastMatch(recs, uid)
      case Some(m) => Ok(m)
      case None => Err(NoSubuidRecord)
  }

  /** The loop of `get_current_subuidmap`: every record of `uid` replaces the one chosen before. */
  method SelectLast(records: seq<SubXidMap>, uid: u32) returns (m: Option<SubXidMap>)
    ensures m == LastMatch(records, uid)
  {
    m := None;
    for i := 0 to |records|
      invariant m == LastMatch(records[..i], uid)
    {
      assert records[..i + 1][..i] == records[..i];
      if records[i].xid == uid {
        m := Some(records[i]);
      }
    }
    assert records[..|records|] == records;
  }

  /**
   * `get_current_subuidmap`: reads `/etc/subuid` (whose lines are `lines`)
   * and keeps the last record of the user `uid`; it panics when no record
   * is theirs.
   */
  method GetCurrentSubuidmap(lines: seq<string>, users: map<string, u32>, uid: u32) returns (r: Result<SubXidMap, Panic>)
    ensures r == CurrentSubuid(lines, users, uid)
  {
    var v := GetSubxid(lines, users);
    if v.Err? {
      r := Err(v.error);
      return;
    }
    var m := SelectLast(v.value, uid);
    if m.None? {
      r := Err(NoSubuidRecord);
    } else {
      r := Ok(m.value);
    }
  }

  /** `unshare_petbox::UidMap` and `GidMap`: `count` ids from `outside` appear inside the namespace from `inside`. */
  datatype UidMap = UidMap(insideUid: u32, outsideUid: u32, count: u32)
  datatype GidMap = GidMap(insideGid: u32, outsideGid: u32, count: u32)

  /** The host id behind the id `inside` under one uid map entry, if the entry covers it. */
  function OutsideUid(m: UidMap, inside: nat): (r: Option<nat>)
    ensures r.Some? <==> m.insideUid <= inside < m.insideUid + m.count
  {
    if m.insideUid <= inside < m.insideUid + m.count then Some(inside - m.insideUid + m.outsideUid) else None
  }

  /** The number of container ids mapped onto the subordinate range. */
  const SUB_COUNT: u32 := 1000

  /** The two entries `gen_uidmap` builds from a record of user `uid`. */
  function UidEntries(uid: u32, subxid: u32): seq<UidMap> {
    [UidMap(uid, uid, 1), UidMap(0, subxid, SUB_COUNT)]
  }

  /** The two entries `gen_gidmap` builds from the same record. */
  function GidEntries(uid: u32, subxid: u32): seq<GidMap> {
    [GidMap(uid, uid, 1), GidMap(0, subxid, SUB_COUNT)]
  }

  /**
   * `gen_uidmap`: the user keeps their own uid inside the container, and
   * container ids 0..999 map onto the start of their subordinate range.
   */
  method GenUidmap(lines: seq<string>, users: map<string, u32>, uid: u32) returns (r: Result<seq<UidMap>, Panic>)
    ensures r.Err? <==> CurrentSubuid(lines, users, uid).Err?
    ensures r.Err? ==> r.error == CurrentSubuid(lines, users, uid).error
    ensures r.Ok? ==> r.value == UidEntries(uid, CurrentSubuid(lines, users, uid).value.subxid)
  {
    var subuidmap := GetCurrentSubuidmap(lines, users, uid);
    if subuidmap.Err? {
      r := Err(subuidmap.error);
      return;
    }
    var mapvec: seq<UidMap> := [];
    mapvec := mapvec + [UidMap(subuidmap.value.xid, subuidmap.value.xid, 1)];
    mapvec := mapvec + [UidMap(0, subuidmap.value.subxid, SUB_COUNT)];
    r := Ok(mapvec);
  }

  /**
   * `gen_gidmap`: the same two entries as `gen_uidmap`, taken from the
   * `/etc/subuid` record (there is no `/etc/subgid` read).
   */
  method GenGidmap(lines: seq<string>, users: map<string, u32>, uid: u32) returns (r: Result<seq<GidMap>, Panic>)
    ensures r.Err? <==> CurrentSubuid(lines, users, uid).Err?
    ensures r.Err? ==> r.error == CurrentSubuid(lines, users, uid).error
    ensures r.Ok? ==> r.value == GidEntries(uid, CurrentSubuid(lines, users, uid).value.subxid)
  {
    var subuidmap := GetCurrentSubuidmap(lines, users, uid);
    if subuidmap.Err? {
      r := Err(subuidmap.error);
      return;
    }
    var mapvec: seq<GidMap> := [];
    mapvec := mapvec + [GidMap(subuidmap.value.xid, subuidmap.value.xid, 1)];
    mapvec := mapvec + [GidMap(0, subuidmap.value.subxid, SUB_COUNT)];
    r := Ok(mapvec);
  }

  /**
   * The two inside ranges of the generated map are disjoint exactly when
   * the user's uid is at least 1000; below that the kernel refuses the map.
   */
  lemma GeneratedRangesDisjoint(uid: u32, subxid: u32)
    ensures (forall c: nat :: !(OutsideUid(UidEntries(uid, subxid)[0], c).Some? && OutsideUid(UidEntries(uid, subxid)[1], c).Some?))
      <==> uid >= SUB_COUNT
  {
    var e := UidEntries(uid, subxid);
    if uid < SUB_COUNT {
      assert OutsideUid(e[0], uid).Some? && OutsideUid(e[1], uid).Some?;
    }
  }

  /** Root inside the container is the first subordinate id; the user's own uid is themself. */
  lemma ContainerRootIsSubordinate(uid: u32, subxid: u32)
    requires uid >= SUB_COUNT
    ensures OutsideUid(UidEntries(uid, subxid)[0], 0).None?
    ensures OutsideUid(UidEntries(uid, subxid)[1], 0) == Some(subxid as nat)
    ensures OutsideUid(UidEntries(uid, subxid)[0], uid) == Some(uid as nat)
    ensures forall c: nat :: c < SUB_COUNT ==> OutsideUid(UidEntries(uid, subxid)[1], c) == Some(subxid + c)
  {
  }

  /** The namespaces `unshare_petbox` can unshare. */
  datatype Namespace = Mount | Uts | Ipc | User | Pid | Net | Cgroup

  /** What an `unshare_petbox::Command` has been configured to do. */
  datatype CommandSpec = CommandSpec(
    program: string,
    args: seq<string>,
    idMaps: Option<(seq<UidMap>, seq<GidMap>)>,
    idMapCommands: Option<(string, string)>,
    namespaces: set<Namespace>,
    uid: Option<u32>,
    gid: Option<u32>)

  /**
   * The builder calls `install_rootfs` makes on an `unshare_petbox::Command`;
   * each records its argument.
   */
  class Command {
    var program: string
    var args: seq<string>
    var idMaps: Option<(seq<UidMap>, seq<GidMap>)>
    var idMapCommands: Option<(string, string)>
    var namespaces: set<Namespace>
    var uid: Option<u32>
    var gid: Option<u32>

    function Spec(): CommandSpec
      reads this
    {
      CommandSpec(program, args, idMaps, idMapCommands, namespaces, uid, gid)
    }

    constructor(program: string)
      ensures Spec() == CommandSpec(program, [], None, None, {}, None, None)
    {
      this.program := program;
      args := [];
      idMaps := None;
      idMapCommands := None;
      namespaces := {};
      uid := None;
      gid := None;
    }

    method Arg(a: string)
      modifies this
      ensures Spec() == old(Spec()).(args := old(args) + [a])
    {
      args := args + [a];
    }

    method SetIdMaps(uidMaps: seq<UidMap>, gidMaps: seq<GidMap>)
      modifies this
      ensures Spec() == old(Spec()).(idMaps := Some((uidMaps, gidMaps)))
    {
      idMaps := Some((uidMaps, gidMaps));
    }

    method SetIdMapCommands(newuidmap: string, newgidmap: string)
      modifies this
      ensures Spec() == old(Spec()).(idMapCommands := Some((newuidmap, newgidmap)))
    {
      idMapCommands := Some((newuidmap, newgidmap));
    }

    method Unshare(nss: seq<Namespace>)
      modifies this
      ensures Spec() == old(Spec()).(namespaces := old(namespaces) + set n | n in nss)
    {
      namespaces := namespaces + set n | n in nss;
    }

    method Uid(id: u32)
      modifies this
      ensures Spec() == old(Spec()).(uid := Some(id))
    {
      uid := Some(id);
    }

    method Gid(id: u32)
      modifies this
      ensures Spec() == old(Spec()).(gid := Some(id))
    {
      gid := Some(id);
    }
  }

  const BASH: string := "/usr/bin/bash"
  const TAR: string := "/usr/bin/tar"
  const NEWUIDMAP: string := "/usr/bin/newuidmap"
  const NEWGIDMAP: string := "/usr/bin/newgidmap"

  /** How `install_rootfs` ends when it does not panic: stopped by `dry_run`, or with the command handed over to run. */
  datatype Outcome = DryRun(cmd: CommandSpec) | Started(cmd: CommandSpec)

  /**
   * The command `install_rootfs` prepares from the generated maps: a shell,
   * or `tar` extracting `tarFile` into `path`; then the id maps and their
   * helper programs, a new user namespace, and uid and gid 0.
   */
  method PrepareCommand(path: string, tarFile: string, enterNs: bool, uidMaps: seq<UidMap>, gidMaps: seq<GidMap>)
    returns (spec: CommandSpec)
    ensures spec.program == (if enterNs then BASH else TAR)
    ensures spec.args == (if enterNs then [] else ["xf", tarFile, "--directory", path])
    ensures spec.idMaps == Some((uidMaps, gidMaps))
    ensures spec.idMapCommands == Some((NEWUIDMAP, NEWGIDMAP))
    ensures spec.namespaces == {User}
    ensures spec.uid == Some(0) && spec.gid == Some(0)
  {
    var cmd: Command;
    if enterNs {
      cmd := new Command(BASH);
    } else {
      cmd := new Command(TAR);
      cmd.Arg("xf");
      cmd.Arg(tarFile);
      cmd.Arg("--directory");
      cmd.Arg(path);
    }
    cmd.SetIdMaps(uidMaps, gidMaps);
    cmd.SetIdMapCommands(NEWUIDMAP, NEWGIDMAP);
    cmd.Unshare([User]);
    cmd.Uid(0);
    cmd.Gid(0);
    spec := cmd.Spec();
  }

  /**
   * `install_rootfs`: creates the container directory (`created` says
   * whether that succeeded), builds the uid and gid maps, and prepares the
   * command; with `dryRun` it stops before running it.
   */
  method InstallRootfs(path: string, tarFile: string, dryRun: bool, enterNs: bool, created: bool,
                       lines: seq<string>, users: map<string, u32>, uid: u32)
    returns (r: Result<Outcome, Panic>)
    ensures !created ==> r == Err(CreateDirFailed)
    ensures created && CurrentSubuid(lines, users, uid).Err? ==> r == Err(CurrentSubuid(lines, users, uid).error)
    ensures r.Ok? <==> created && CurrentSubuid(lines, users, uid).Ok?
    ensures r.Ok? ==> (r.value.DryRun? <==> dryRun)
    ensures r.Ok? ==> r.value.cmd.program == (if enterNs then BASH else TAR)
    ensures r.Ok? ==> r.value.cmd.args == (if enterNs then [] else ["xf", tarFile, "--directory", path])
    ensures r.Ok? ==> r.value.cmd.namespaces == {User}
    ensures r.Ok? ==> r.value.cmd.uid == Some(0) && r.value.cmd.gid == Some(0)
    ensures r.Ok? ==> r.value.cmd.idMapCommands == Some((NEWUIDMAP, NEWGIDMAP))
    ensures r.Ok? ==>
      r.value.cmd.idMaps == Some((UidEntries(uid, CurrentSubuid(lines, users, uid).value.subxid),
                                  GidEntries(uid, CurrentSubuid(lines, users, uid).value.subxid)))
  {
    if !created {
      r := Err(CreateDirFailed);
      return;
    }
    var uidMap := GenUidmap(lines, users, uid);
    if uidMap.Err? {
      r := Err(uidMap.error);
      return;
    }
    // Both generators read the same file, so the second finds the record the first did.
    var gidMap := GenGidmap(lines, users, uid);
    assert gidMap.Ok?;
    var cmd := PrepareCommand(path, tarFile, enterNs, uidMap.value, gidMap.value);
    if dryRun {
      r := Ok(DryRun(cmd));
      return;
    }
    r := Ok(Started(cmd));
  }
}

/**
 * The text of /proc/<pid>/uid_map and gid_map as `write_id_map` produces it
 * (crates/nswrap/src/core.rs and cmd.rs): one line
 * "<container_id> <host_id> <size>\n" per entry, in list order, and the
 * reading of such text back into entries (the format of user_namespaces(7)),
 * which the round-trip lemma ties to the writer.
 */
module IdMapFile {
  import opened Wrappers
  import opened Text
  import C = NsConfig
  import K = Kernel

  /** An entry's three fields, separated by single spaces. */
  function Fields(m: C.IdMap): string {
    Dec(m.containerId) + " " + Dec(m.hostId) + " " + Dec(m.size)
  }

  /** One line of the file. */
  function Line(m: C.IdMap): string {
    Fields(m) + "\n"
  }

  /** The whole content: the lines of the entries, in list order. */
  function Serialize(ms: seq<C.IdMap>): string {
    if ms == [] then "" else Line(ms[0]) + Serialize(ms[1..])
  }

  /** Appending an entry appends its line. */
  lemma {:induction false} SerializeSnoc(ms: seq<C.IdMap>, m: C.IdMap)
    ensures Serialize(ms + [m]) == Serialize(ms) + Line(m)
  {
    if ms == [] {
      assert ms + [m] == [m];
    } else {
      assert (ms + [m])[1..] == ms[1..] + [m];
      SerializeSnoc(ms[1..], m);
    }
  }

  /** The content of the file is the concatenation of its entries' contents. */
  lemma {:induction false} SerializeAppend(a: seq<C.IdMap>, b: seq<C.IdMap>)
    ensures Serialize(a + b) == Serialize(a) + Serialize(b)
  {
    if a == [] {
      assert a + b == b;
    } else {
      assert (a + b)[1..] == a[1..] + b;
      SerializeAppend(a[1..], b);
    }
  }

  /**
   * `write_id_map`'s loop: the content buffer grows by one line per entry
   * (the three pushes of the container id with a space, the host id with a
   * space, and the size with a newline).
   */
  method IdMapContent(ms: seq<C.IdMap>) returns (content: string)
    ensures content == Serialize(ms)
    ensures |content| >= 6 * |ms|
  {
    content := "";
    for i := 0 to |ms|
      invariant content == Serialize(ms[..i])
      invariant |content| >= 6 * i
    {
      var m := ms[i];
      content := content + Dec(m.containerId);
      content := content + " ";
      content := content + Dec(m.hostId);
      content := content + " ";
      content := content + Dec(m.size) + "\n";
      assert ms[..i + 1] == ms[..i] + [m];
      SerializeSnoc(ms[..i], m);
    }
    assert ms[..|ms|] == ms;
  }

  // ---- Reading the file back, as the kernel does ----

  /** One line's fields: exactly three space-separated 32-bit numbers. */
  function ParseFields(line: string): (r: Option<C.IdMap>)
  {
    var f := Split(line, ' ');
    if |f| != 3 then None
    else match (ParseU32(f[0]), ParseU32(f[1]), ParseU32(f[2]))
      case (Some(c), Some(h), Some(s)) => Some(C.IdMap(h, c, s))
      case _ => None
  }

  function ParseLines(lines: seq<string>): Option<seq<C.IdMap>> {
    if lines == [] then Some([])
    else match (ParseFields(lines[0]), ParseLines(lines[1..]))
      case (Some(m), Some(rest)) => Some([m] + rest)
      case _ => None
  }

  /** A file is lines each ended by a newline: the piece after the last newline is empty. */
  function Parse(text: string): Option<seq<C.IdMap>> {
    var lines := Split(text, '\n');
    if lines[|lines| - 1] != [] then None else ParseLines(lines[..|lines| - 1])
  }

  /** The fields of every entry, one string per entry. */
  function FieldsOf(ms: seq<C.IdMap>): (r: seq<string>)
    ensures |r| == |ms|
    ensures forall i :: 0 <= i < |ms| ==> r[i] == Fields(ms[i])
  {
    if ms == [] then [] else [Fields(ms[0])] + FieldsOf(ms[1..])
  }

  lemma FieldsHaveNoNewline(m: C.IdMap)
    ensures '\n' !in Fields(m)
  {
    var a, b, c := Dec(m.containerId), Dec(m.hostId), Dec(m.size);
    assert Fields(m) == a + " " + b + " " + c;
    forall i | 0 <= i < |Fields(m)|
      ensures Fields(m)[i] != '\n'
    {
      if i < |a| {
        assert Fields(m)[i] == a[i];
      } else if i == |a| {
      } else if i < |a| + 1 + |b| {
        assert Fields(m)[i] == b[i - |a| - 1];
      } else if i == |a| + 1 + |b| {
      } else {
        assert Fields(m)[i] == c[i - |a| - 2 - |b|];
      }
    }
  }

  /** A line written for an entry reads back as that entry. */
  lemma LineRoundTrip(m: C.IdMap)
    ensures ParseFields(Fields(m)) == Some(m)
  {
    var a, b, c := Dec(m.containerId), Dec(m.hostId), Dec(m.size);
    assert ' ' !in a && ' ' !in b && ' ' !in c by {
      assert AllDigits(a) && AllDigits(b) && AllDigits(c);
    }
    var parts := [a, b, c];
    assert Join(parts, ' ') == Fields(m) by {
      assert Join(parts[2..], ' ') == c;
      assert Join(parts[1..], ' ') == b + [' '] + c;
    }
    SplitJoin(parts, ' ');
    ParseU32OfDec(m.containerId);
    ParseU32OfDec(m.hostId);
    ParseU32OfDec(m.size);
  }

  /** The content is the entries' fields joined by newlines, plus a final empty piece. */
  lemma {:induction false} SerializeIsJoin(ms: seq<C.IdMap>)
    ensures Serialize(ms) == Join(FieldsOf(ms) + [""], '\n')
  {
    if ms != [] {
      SerializeIsJoin(ms[1..]);
      var rest := FieldsOf(ms[1..]) + [""];
      assert FieldsOf(ms) + [""] == [Fields(ms[0])] + rest;
      assert (FieldsOf(ms) + [""])[1..] == rest;
    }
  }

  lemma {:induction false} ParseLinesOfFields(ms: seq<C.IdMap>)
    ensures ParseLines(FieldsOf(ms)) == Some(ms)
  {
    if ms != [] {
      LineRoundTrip(ms[0]);
      ParseLinesOfFields(ms[1..]);
      assert FieldsOf(ms)[1..] == FieldsOf(ms[1..]);
      assert [ms[0]] + ms[1..] == ms;
    }
  }

  /** What `write_id_map` writes reads back as exactly the entries it was given. */
  lemma RoundTrip(ms: seq<C.IdMap>)
    ensures Parse(Serialize(ms)) == Some(ms)
  {
    var parts := FieldsOf(ms) + [""];
    forall i | 0 <= i < |parts|
      ensures '\n' !in parts[i]
    {
      if i < |ms| {
        FieldsHaveNoNewline(ms[i]);
      }
    }
    SerializeIsJoin(ms);
    SplitJoin(parts, '\n');
    assert parts[..|parts| - 1] == FieldsOf(ms);
    ParseLinesOfFields(ms);
  }

  /** Different entry lists never produce the same file. */
  lemma SerializeInjective(a: seq<C.IdMap>, b: seq<C.IdMap>)
    requires Serialize(a) == Serialize(b)
    ensures a == b
  {
    RoundTrip(a);
    RoundTrip(b);
  }

  // ---- The files and the write protocol ----

  /** `format!("/proc/{}/{}", pid, leaf)`. */
  function ProcPath(pid: nat, leaf: string): (p: string)
    ensures p == "/proc/" + Dec(pid) + "/" + leaf
  {
    "/proc/" + Dec(pid) + "/" + leaf
  }

  /**
   * The three writes of `set_id_map`: the uid map, then "deny" to setgroups
   * (which user_namespaces(7) requires before an unprivileged gid_map write),
   * then the gid map, each built from the list given for it.
   */
  function SetIdMapPlan(pid: nat, forUid: seq<C.IdMap>, forGid: seq<C.IdMap>): (plan: seq<K.Event>)
    ensures |plan| == 3 && forall i :: 0 <= i < 3 ==> plan[i].WriteFile?
  {
    [ K.WriteFile(ProcPath(pid, "uid_map"), Serialize(forUid)),
      K.WriteFile(ProcPath(pid, "setgroups"), "deny"),
      K.WriteFile(ProcPath(pid, "gid_map"), Serialize(forGid)) ]
  }

  /** The three files are distinct, and setgroups is written before gid_map. */
  lemma SetIdMapPlanOrder(pid: nat, forUid: seq<C.IdMap>, forGid: seq<C.IdMap>)
    ensures var plan := SetIdMapPlan(pid, forUid, forGid);
      plan[0].path != plan[1].path && plan[1].path != plan[2].path && plan[0].path != plan[2].path
      && Parse(plan[0].data) == Some(forUid) && plan[1].data == "deny" && Parse(plan[2].data) == Some(forGid)
  {
    var pre := "/proc/" + Dec(pid) + "/";
    var plan := SetIdMapPlan(pid, forUid, forGid);
    assert plan[0].path[|pre|] == 'u';
    assert plan[1].path[|pre|] == 's';
    assert plan[2].path[|pre|] == 'g';
    RoundTrip(forUid);
    RoundTrip(forGid);
  }

  /**
   * `write_id_map`: opens the file for writing and writes the whole content
   * in one write (one event); a failure panics, reported as `ok == false`.
   */
  method WriteIdMap(t: K.Task, path: string, ms: seq<C.IdMap>) returns (ok: bool)
    modifies t`log
    ensures t.log == old(t.log) + [K.WriteFile(path, Serialize(ms))]
    ensures ok <==> !K.Fails(t.refused, K.WriteFile(path, Serialize(ms)))
  {
    var content := IdMapContent(ms);
    var errno := t.Call(K.WriteFile(path, content));
    ok := errno.None?;
  }

  /**
   * The write protocol of `set_id_map` in the calling process `t`
   * (`util::get_pid()` is `t.pid`): each write that fails panics, so the
   * log is the run of the plan.
   */
  method WriteIdMaps(t: K.Task, forUid: seq<C.IdMap>, forGid: seq<C.IdMap>) returns (ok: bool)
    modifies t`log
    ensures t.log == old(t.log) + K.Run(t.refused, SetIdMapPlan(t.pid, forUid, forGid))
    ensures ok <==> K.Completes(t.refused, SetIdMapPlan(t.pid, forUid, forGid))
  {
    ghost var plan := SetIdMapPlan(t.pid, forUid, forGid);
    ghost var start := t.log;
    assert plan[..0] == [];
    ok := WriteIdMap(t, ProcPath(t.pid, "uid_map"), forUid);
    K.RunStep(t.refused, plan, 0);
    if !ok {
      return;
    }
    ok := t.Step(K.WriteFile(ProcPath(t.pid, "setgroups"), "deny"), plan, 1, start);
    if !ok {
      return;
    }
    ok := WriteIdMap(t, ProcPath(t.pid, "gid_map"), forGid);
    K.RunStep(t.refused, plan, 2);
    assert plan[..3] == plan;
  }
}

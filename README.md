# nswrap and petbox helpers in Dafny

This project models the launch engine of the `nswrap` crate, a small Linux
container library. A `Wrap` (lib.rs) or `WrapCore` (core.rs) is configured
builder-style: namespaces to join or create, uid/gid maps, callbacks, and
whether to build a tmpfs root. `spawn` then clones a child. The child of
core.rs's `WrapCore`:

1. joins namespaces (setns(2)) and creates namespaces (unshare(2));
2. writes `/proc/<pid>/uid_map`, then `setgroups`, then `gid_map` (which,
   as written, is filled from the uid maps; see Findings);
3. optionally pivots into a tmpfs root;
4. runs the callbacks in the order added; the last one's value becomes the
   exit code.

The child of lib.rs's `Wrap` is cloned into a new user and mount namespace
and ignores the configured `namespaces`. It does steps 2 and 3 with cmd.rs's
versions, then runs the callbacks from the last added to the first, so its
exit code is the value of the callback added first.

It also models the helpers of `petbox`:

- reading `/etc/subuid` and choosing the current user's record;
- the two-entry uid/gid maps built from that record;
- the command `install_rootfs` prepares;
- the container data-directory paths.

Every system call is an `Event` appended to the log of a `Kernel.Task`,
which stands for one process image. Whether a call fails is a fixed oracle,
`refused: map<Event, int>`, giving the errno of each refused call. Every
failing call in the child panics, so what a child does is `Kernel.Run` of
one plan of calls: the plan up to and including the first refused call.
Most lemmas are stated about these plans.

Modules:

| file | module | models |
|---|---|---|
| wrappers.dfy | Wrappers | `Option` / `Result` |
| text.dfy | Text | `format!("{}")`, `parse::<u32>()`, `split` / join |
| kernel.dfy | Kernel | events, the `Task` process image, `Run` / `Completes` |
| nswrap_error.dfy | NsError | crates/nswrap/src/error.rs (plus `NixErrno`) |
| nswrap_config.dfy | NsConfig | crates/nswrap/src/config.rs |
| nswrap_util.dfy | NsUtil | crates/nswrap/src/util.rs |
| nswrap_unshare.dfy | NsUnshare | crates/nswrap/src/unshare.rs |
| id_map_file.dfy | IdMapFile | the id-map writer shared by core.rs and cmd.rs |
| nswrap_child.dfy | NsChild | `Child`, `wait`, `ExitStatus::code` of lib.rs |
| nswrap_core.dfy | NsCore | crates/nswrap/src/core.rs |
| nswrap_wrap.dfy | NsWrap | crates/nswrap/src/lib.rs and cmd.rs |
| petbox_container.dfy | PetboxContainer | crates/petbox/src/container.rs |
| petbox_config.dfy | PetboxConfig | crates/petbox/src/config.rs |

The source files disagree with each other in several places. The model
follows each file as it is written:

- lib.rs uses `config::Namespace`, which config.rs does not define. NsWrap
  declares it as a type of `typ` plus an optional `fd`.
- core.rs uses `CloneFlags::NEWCGROUP` and `NEWUTS`, but util.rs names the
  first `NWCGROUP` and lacks the second. The model uses the kernel values.
- core.rs calls `util::unshare` and `util::setns`, which util.rs does not
  define. They are the unshare(2) and setns(2) events.
- error.rs has no `NixErrno`, which lib.rs returns. `NsError.Error` has it.
- lib.rs declares the modules `cmd`, `config`, `error` and `util` only, not
  `core` or `unshare`, so core.rs and unshare.rs are not compiled into the
  crate. The model treats them as the code they would be if declared.

The Findings section below lists two places where the code and its own
comments disagree. The launchers (`RunChild`, `Closure`, `Spawn` and the
members between them) model the code as written, with one exception: the
core.rs child is assumed to enter its closure, which util.rs's `clone` does
not do (see "## Left out"). The corrected behaviour
is kept beside it in separate members: `SetIdMapIntended`,
`ExecuteCallbacksIntended`, `ChildPlanIntended` and `WrapPlanIntended`.
Lemmas state exactly where the written plans and the corrected plans
differ.

## Model

| member | source | states |
|---|---|---|
| NsConfig.SlotsAreTheVisitedKinds | crates/nswrap/src/config.rs:26-36 | A namespace set has an action slot for exactly the seven kinds the launcher visits; `Time` has none, because its field is commented out. |
| NsConfig.ContainerIdOf | crates/nswrap/src/config.rs:98-112 | An entry covers host id `h` iff `h` lies in `[host_id, host_id+size)`, and then maps it into `[container_id, container_id+size)`. |
| NsConfig.HostIdOf | crates/nswrap/src/config.rs:98-112 | An entry covers container id `c` iff `c` lies in `[container_id, container_id+size)`. |
| NsConfig.IdMapRoundTrip | crates/nswrap/src/config.rs:98-112 | Mapping a covered host id in and back out gives the same id: an entry is a bijection between its ranges. |
| NsUtil.CloneFlagsAreDistinctBits | crates/nswrap/src/util.rs:21-47 | Each `CloneFlags` constant is a single bit, and no two share a bit. |
| NsUtil.StackTop | crates/nswrap/src/util.rs:64-65 | The stack pointer is the end of the buffer rounded down to 16: aligned, not above the end, and less than 16 below it. |
| NsUtil.CloneWordSplits | crates/nswrap/src/util.rs:62 | In `flags | signal`, the low byte gives back the signal and the rest gives back the flags, when each stays in its own part. |
| NsUtil.NewTimeOverlapsSignalByte | crates/nswrap/src/util.rs:40-41 | `NEWTIME` lies in the exit-signal byte, so combining it with `SIGCHLD` changes the signal clone(2) sees. |
| NsUtil.CloneResult | crates/nswrap/src/util.rs:73-79 | A result of -1 is `Err(OsErrno(errno))`. Anything else is `Ok` of the result as `u32`, and a non-negative pid is kept unchanged. |
| NsUtil.Clone | crates/nswrap/src/util.rs:49-80 | One clone(2) call with the aligned stack top and the combined word. The result is `Err(OsErrno(errno))` iff that call is refused, and otherwise the new pid. |
| NsUnshare.FlagsOfSet | crates/nswrap/src/unshare.rs:14-37 | The flag set of a set of kinds has the bit of kind `k` iff `k` is in the set, and no bit outside the six namespace flags. |
| NsUnshare.FoldIsFlagsOfMembers | crates/nswrap/src/unshare.rs:15-37 | Folding a list of kinds gives the flag set of the kinds it contains. |
| NsUnshare.FoldCharacterized | crates/nswrap/src/unshare.rs:15-37 | The folded flags have kind `k`'s bit iff `k` occurs in the list, and no other bits. |
| NsUnshare.FoldIgnoresOrderAndDuplicates | crates/nswrap/src/unshare.rs:15-37 | Two lists with the same kinds fold to the same flags, whatever their order and repeats. |
| NsUnshare.UnshareFlags | crates/nswrap/src/unshare.rs:15-37 | The loop computes the fold: one bit per kind in the list, none else, 0 for the empty list. |
| NsUnshare.Unshare | crates/nswrap/src/unshare.rs:14-42 | Exactly one unshare(2) call, with the folded flags. `Ok` iff it succeeds, else `UnshareFailed(errno)`. |
| IdMapFile.IdMapContent | crates/nswrap/src/core.rs:123-130 | The loop's buffer is the serialisation of the entries in list order, at least 6 characters per entry. |
| IdMapFile.SerializeSnoc | crates/nswrap/src/core.rs:124-130 | Appending an entry appends its line `container host size\n`. |
| IdMapFile.SerializeAppend | crates/nswrap/src/core.rs:124-130 | The content of two lists is the concatenation of their contents. |
| IdMapFile.LineRoundTrip | crates/nswrap/src/core.rs:125-129 | One entry's fields parse back as that entry. |
| IdMapFile.RoundTrip | crates/nswrap/src/core.rs:121-132 | What `write_id_map` writes reads back as exactly the list it was given. |
| IdMapFile.SerializeInjective | crates/nswrap/src/core.rs:121-132 | Different lists never produce the same file content. |
| IdMapFile.SetIdMapPlan | crates/nswrap/src/core.rs:134-147 | `set_id_map` makes three calls, each a file write. |
| IdMapFile.SetIdMapPlanOrder | crates/nswrap/src/core.rs:134-147 | The three writes go to three distinct files. The uid file reads back as the uid list, setgroups gets `deny`, and the gid file reads back as the list given for it. |
| IdMapFile.WriteIdMap | crates/nswrap/src/core.rs:121-132 | One write of the whole content to the file. It succeeds iff that write is not refused. |
| IdMapFile.WriteIdMaps | crates/nswrap/src/core.rs:134-147 | The log grows by the run of the three-write plan. It succeeds iff all three writes succeed. |
| NsChild.Code | crates/nswrap/src/lib.rs:267-272 | `code()` is `Some(ret)` iff the child exited normally with `ret`, and `None` otherwise. |
| NsChild.CodeOfChildEnd | crates/nswrap/src/lib.rs:267-272 | A child that returned normally always reports a code, which is the returned `v` whenever `0 <= v < 256`. An aborted child reports `None`. |
| NsChild.Wait | crates/nswrap/src/lib.rs:254-259 | waitpid(2) returns the child's recorded status and consumes it. With no such child it is `Err(NixErrno(ECHILD))`. |
| NsCore.ItemPlan | crates/nswrap/src/core.rs:109-119 | `None` makes no call, `Unshare` makes unshare(2) of the flag, and `Enter(fd)` makes setns(2) of `fd` and the flag. |
| NsCore.ItemPlanHas | crates/nswrap/src/core.rs:109-119 | The unshare call is made iff the item is `Unshare`. The setns call for `fd` is made iff the item is `Enter(fd)`. |
| NsCore.SetPlanByFields | crates/nswrap/src/core.rs:89-107 | The set's calls are the items' calls field by field: user, mount, cgroup, uts, ipc, pid, network, each with its flag. |
| NsCore.SetPlanFollowsKindOrder | crates/nswrap/src/core.rs:89-107 | Every call is a namespace call of a visited kind. Kinds come in strictly increasing order, so there is at most one call per kind. No call is for a time namespace. |
| NsCore.SetPlanMatchesSlots | crates/nswrap/src/core.rs:89-119 | Kind `k` is unshared iff its slot says `Unshare`. Its namespace `fd` is joined iff its slot says `Enter(fd)`. |
| NsCore.DefaultSetMakesNoCalls | crates/nswrap/src/core.rs:89-119 | With every slot at its derived default `NamespaceItem::None` (config.rs:17-35), `apply_nsenter` and `apply_unshare` issue no setns(2) or unshare(2) call. |
| NsCore.Invocations | crates/nswrap/src/core.rs:149-155 | Running a queue invokes each callback exactly once, front to back. |
| NsCore.InvocationsComplete | crates/nswrap/src/core.rs:149-155 | Callbacks, modelled as opaque calls that never panic (see "## Left out"), always run to completion. |
| NsCore.InvokeAll | crates/nswrap/src/core.rs:149-155 | The `pop_front` loop: callbacks run once each in queue order, and the value returned is the last one's, 0 for an empty queue. |
| NsCore.TmpfsPaths | crates/nswrap/src/core.rs:171-204 | After the chdir the plan works in /tmp. `oldroot` is /tmp/oldroot, the directory made for it and under the new root, as pivot_root(2) requires. The bind-mounted `newroot` is /tmp/newroot, which is not the pivot target. |
| NsCore.ChildPlanIsPhaseSorted | crates/nswrap/src/core.rs:42-63 | The child's calls come in phases: namespace calls, then id-map writes, then tmpfs mounts, then callbacks. This holds of the whole plan and of every run of it, so maps are written before the mounts (core.rs:157-160). |
| NsCore.CallbacksRunAfterSetup | crates/nswrap/src/core.rs:42-63 | If every setup call succeeds, the child runs the setup and then every callback once, in order. If a setup call fails, no callback runs. The first half assumes callbacks never panic (see "## Left out"). |
| NsCore.SetIdMapAsWrittenIgnoresGidMaps | crates/nswrap/src/core.rs:146 | As written, whenever the uid and gid lists differ, the gid_map file reads back as the uid list, unlike the intended write. |
| NsCore.CurrentPresetGidMapExample | crates/nswrap/src/core.rs:134-147 | For uid map `[1000 1000 1]` and gid map `[100 100 1]`, the as-written gid_map holds the uid entry. The intended one holds the gid entry. |
| NsCore.IdMapStepsDiffer | crates/nswrap/src/core.rs:134-147 | The written and the intended id-map steps have the same length and differ only in the gid_map write. There the written step carries the uid list and the intended one the gid list. They do differ whenever the lists differ. |
| NsCore.ChildPlanDiffersOnlyInGidMap | crates/nswrap/src/core.rs:42-63 | The child's plan as written and as intended make the same calls in the same order, except the gid_map write. When the uid and gid lists differ, the two plans differ. |
| NsCore.WrapCore.constructor | crates/nswrap/src/core.rs:26-39 | A configuration holds the given namespace sets, maps, callbacks and sandbox choice, with no process, no root and no mounts. |
| NsCore.WrapCore.Copy | crates/nswrap/src/core.rs:68-74 | The child's copy of the configuration, made because clone(2) without `CLONE_VM` copies memory, equals the parent's in every field. |
| NsCore.WrapCore.ApplyNamespaceItem | crates/nswrap/src/core.rs:109-119 | The log grows by the run of the item's calls. It succeeds iff they complete; a failure panics, ending the enclosing plan's run. |
| NsCore.WrapCore.ApplyNamespaceSet | crates/nswrap/src/core.rs:89-107 | The seven items' calls, in order, stopping at the first failure. The log grows by the run of the set's plan. |
| NsCore.WrapCore.ApplyNsenter | crates/nswrap/src/core.rs:89-97 | Applies the join set: the log grows by the run of its plan, and it succeeds iff that plan completes. |
| NsCore.WrapCore.ApplyUnshare | crates/nswrap/src/core.rs:99-107 | Applies the create set: the log grows by the run of its plan, and it succeeds iff that plan completes. |
| NsCore.WrapCore.SetIdMap | crates/nswrap/src/core.rs:134-147 | As written, the three writes with both maps built from `uid_maps`. |
| NsCore.WrapCore.SetIdMapIntended | crates/nswrap/src/core.rs:134-147 | The three writes with gid_map built from `gid_maps`. Each file reads back as its own list. |
| NsCore.WrapCore.ExecuteCallbacks | crates/nswrap/src/core.rs:149-155 | Each queued callback is invoked once, in the order added. The queue ends empty, and the last value is returned (0 if the queue was empty). |
| NsCore.WrapCore.SetUpTmpfsCwd | crates/nswrap/src/core.rs:161-205 | The seven calls are: make / a recursive slave, mount tmpfs on /tmp, chdir /tmp, mkdir /tmp/newroot and oldroot (0755), bind-mount newroot, pivot_root. It stops at the first failure. |
| NsCore.WrapCore.RunChild | crates/nswrap/src/core.rs:42-63 | Outside the cloned child it panics and makes no call. In the child it runs the plan of core.rs as written, gid_map data included, and stops at the first failure. On success it returns the last-added callback's value with the queue emptied. |
| NsCore.WrapCore.ChildMain | crates/nswrap/src/core.rs:70-74 | The cloned closure: the child's log is the run of the written plan. Its exit status is the last callback's value, or an abort on a panic. This assumes the child enters its closure, which util.rs's `clone` does not do (see "## Left out"). |
| NsCore.WrapCore.RunCloned | crates/nswrap/src/core.rs:65-87 | The kernel records, under the child's pid, the run of the written plan and its exit status, and nothing else. |
| NsCore.WrapCore.CloneStep | crates/nswrap/src/core.rs:66-82 | Allocates the stack, then makes one clone(2) with the aligned stack top, no flags and `SIGCHLD`. A refusal is `Err(OsErrno(errno))`, otherwise the new pid. |
| NsCore.WrapCore.Spawn | crates/nswrap/src/core.rs:65-87 | One clone(2). On failure it returns the error and no child exists. On success it returns `Child(pid)`, and the child's calls are the run of the written plan, whose gid_map holds the uid list. Its exit status is recorded. As in `ChildMain`, this assumes the child enters its closure (see "## Left out"). |
| NsWrap.PopOrder | crates/nswrap/src/cmd.rs:36-38 | Popping from the back invokes the callbacks in reverse order and returns the value of the first one added. |
| NsWrap.PopOrderRunsLastAddedFirst | crates/nswrap/src/cmd.rs:36-38 | The as-written loop invokes the last-added callback first. The documented order (lib.rs:73-77) invokes the first-added one first. |
| NsWrap.PopOrderExample | crates/nswrap/src/cmd.rs:36-38 | Callbacks returning 1 then 2: the as-written order yields 1, and the documented order yields 2. |
| NsWrap.WrapPlanDiffersInGidMapAndOrder | crates/nswrap/src/lib.rs:116-132 | The closure's plan as written and as intended agree in the setup calls except the gid_map write, which carries the uid list as written. Their callback runs are each other's reverse. |
| NsWrap.CmdTmpfsPlanMatchesCore | crates/nswrap/src/cmd.rs:55-90 | cmd.rs's tmpfs steps make the same seven kernel requests as core.rs's, one for one. Only two mount calls are spelled differently. |
| NsWrap.SpawnWordMeaning | crates/nswrap/src/lib.rs:134-135 | `spawn` asks clone(2) for new user and mount namespaces with `SIGCHLD`. It asks for no pid or network namespace. |
| NsWrap.Wrap.constructor | crates/nswrap/src/lib.rs:61-63 | `new()` is the default state. |
| NsWrap.Wrap.NewCmd | crates/nswrap/src/lib.rs:65-71 | `new_cmd(p)` is the default state with a default process whose binary is `p`. |
| NsWrap.Wrap.Copy | crates/nswrap/src/lib.rs:116-132 | The child's copy of the builder has the same state. |
| NsWrap.Wrap.ExitValue | crates/nswrap/src/cmd.rs:32-40 | The value `execute_callbacks` returns in the child is the value of the callback added first, or 0 with no callbacks. |
| NsWrap.Wrap.Callback | crates/nswrap/src/lib.rs:101-107 | Appends the callback; nothing else changes. |
| NsWrap.Wrap.AddNamespace | crates/nswrap/src/lib.rs:216-219 | Appends the namespace; nothing else changes. |
| NsWrap.Wrap.NsNew | crates/nswrap/src/lib.rs:152-154 | Appends a namespace of that type with no fd; nothing else changes. |
| NsWrap.Wrap.SetProcess | crates/nswrap/src/lib.rs:225-228 | Sets the process; nothing else changes. |
| NsWrap.Wrap.SetRoot | crates/nswrap/src/lib.rs:230-233 | Sets the root; nothing else changes. |
| NsWrap.Wrap.AddMount | crates/nswrap/src/lib.rs:236-239 | Appends the mount; nothing else changes. |
| NsWrap.Wrap.AddUidMap | crates/nswrap/src/lib.rs:242-245 | Appends the entry to the uid maps; nothing else changes. |
| NsWrap.Wrap.AddGidMap | crates/nswrap/src/lib.rs:247-250 | Appends the entry to the gid maps; nothing else changes. |
| NsWrap.Wrap.UidMap | crates/nswrap/src/lib.rs:169-175 | Appends `IdMap{host, container, size}` to the uid maps. |
| NsWrap.Wrap.GidMap | crates/nswrap/src/lib.rs:177-183 | Appends `IdMap{host, container, size}` to the gid maps. |
| NsWrap.Wrap.IdMapPreset | crates/nswrap/src/lib.rs:185-197 | `Root` appends (uid,0,1) and (gid,0,1). `Current` appends (uid,uid,1) and (gid,gid,1). `Auto` panics and changes nothing. |
| NsWrap.Wrap.SandboxMnt | crates/nswrap/src/lib.rs:204-207 | Sets the sandbox choice; nothing else changes. |
| NsWrap.Wrap.SetIdMap | crates/nswrap/src/cmd.rs:21-31 | As written, the three writes with both maps built from `uid_maps`. |
| NsWrap.Wrap.SetIdMapIntended | crates/nswrap/src/cmd.rs:21-31 | The three writes with gid_map built from `gid_maps`. |
| NsWrap.Wrap.ExecuteCallbacks | crates/nswrap/src/cmd.rs:32-40 | As written, it panics outside the child. Otherwise it invokes the callbacks last-added first, empties the queue, and returns the last invoked value. |
| NsWrap.Wrap.PopAll | crates/nswrap/src/cmd.rs:35-39 | The pop-from-back loop: the log gets the reversed invocations, and the queue ends empty. |
| NsWrap.Wrap.ExecuteCallbacksIntended | crates/nswrap/src/cmd.rs:32-40 | It panics outside the child. Otherwise it invokes the callbacks in the order added, as documented at lib.rs:73-79, through the same loop core.rs uses. It empties the queue and returns the last one's value. |
| NsWrap.Wrap.SetUpTmpfsCwd | crates/nswrap/src/cmd.rs:46-91 | It panics outside the child. Otherwise it makes the seven mount, chdir, mkdir and pivot calls, stopping at the first failure. |
| NsWrap.Wrap.TmpfsCalls | crates/nswrap/src/cmd.rs:55-90 | The log grows by the run of the seven calls. It succeeds iff all seven succeed. |
| NsWrap.Wrap.Closure | crates/nswrap/src/lib.rs:116-132 | Marks the child. It writes the maps as cmd.rs does (gid_map from the uid list) if any exist, builds the tmpfs root if asked, then pops the callbacks from the back. It stops at the first failure, and on success returns the first-added callback's value. |
| NsWrap.Wrap.ChildMain | crates/nswrap/src/lib.rs:116-132 | The child's log is the run of the written plan. Its exit status is the first-added callback's value if the plan completes, or an abort on a panic. |
| NsWrap.Wrap.RunCloned | crates/nswrap/src/lib.rs:115-136 | The kernel records, under the child's pid, the run of the written plan and its exit status, and nothing else. |
| NsWrap.Wrap.CloneStep | crates/nswrap/src/lib.rs:113-139 | One clone(2) with user and mount namespace flags and `SIGCHLD`. A refusal is `Err(NixErrno(errno))`, otherwise the new pid. |
| NsWrap.Wrap.Spawn | crates/nswrap/src/lib.rs:111-141 | One clone(2). On failure it returns `NixErrno` and no child exists. On success it returns `Child(pid)`, and the child's calls are the run of the written plan. If that plan completes, the exit status is the first-added callback's value. |
| NsWrap.AbiFs | crates/nswrap/src/lib.rs:165-167 | `abi_fs` never returns a configuration: it panics. |
| NsWrap.CallbackReturnValue | crates/nswrap/src/lib.rs:319-328 | The `callback_return_value` scenario: a callback returning 16 in a new user namespace makes `wait().code()` equal `Some(16)` once clone succeeds. |
| PetboxContainer.ParseLine | crates/petbox/src/container.rs:19-39 | A line with fewer than three `:`-separated fields fails. A parsed record's fields come from fields 0, 1 and 2, and any failing field makes the line fail. |
| PetboxContainer.ParseFormattedLine | crates/petbox/src/container.rs:26-39 | A numeric line `xid:subxid:count` parses back as its record, whatever the password database holds. |
| PetboxContainer.ParseNamedLine | crates/petbox/src/container.rs:28-36 | A line naming its user takes the uid the password database gives that name. |
| PetboxContainer.Collect | crates/petbox/src/container.rs:18-43 | All lines parse iff the result is `Ok`, and then it holds one record per line, in order. Otherwise it is the panic at the first line that fails. |
| PetboxContainer.RecordsMeaning | crates/petbox/src/container.rs:15-44 | `get_subxid` yields one record per line in file order iff every line parses. Otherwise it panics at the first bad line. |
| PetboxContainer.GetSubxid | crates/petbox/src/container.rs:15-44 | The pushing loop yields exactly the records of the file, or the first panic. |
| PetboxContainer.LastMatch | crates/petbox/src/container.rs:48-54 | Some iff a record of the user exists. The result is theirs, and no later record is. |
| PetboxContainer.CurrentSubuid | crates/petbox/src/container.rs:46-55 | A read panic propagates. No record of the user gives `NoSubuidRecord`. Otherwise the result is the user's last record. |
| PetboxContainer.SelectLast | crates/petbox/src/container.rs:48-53 | The overwriting loop keeps the last record of the user. |
| PetboxContainer.GetCurrentSubuidmap | crates/petbox/src/container.rs:46-55 | The result is the record chosen above, or the corresponding panic. |
| PetboxContainer.GenUidmap | crates/petbox/src/container.rs:57-73 | Exactly two entries: (xid, xid, 1), then (0, subxid, 1000). It panics where the record lookup does. |
| PetboxContainer.GenGidmap | crates/petbox/src/container.rs:75-91 | The same two entries, built from the `/etc/subuid` record. |
| PetboxContainer.GeneratedRangesDisjoint | crates/petbox/src/container.rs:62-71 | The two entries' inside ranges are disjoint iff the user's uid is at least 1000. |
| PetboxContainer.ContainerRootIsSubordinate | crates/petbox/src/container.rs:62-71 | For a uid of at least 1000: container uid 0 is the first subordinate id, the user keeps their own uid, and ids below 1000 map onto the subordinate range. |
| PetboxContainer.Command.constructor | crates/petbox/src/container.rs:105-107 | A new command has the program and nothing else set. |
| PetboxContainer.Command.Arg | crates/petbox/src/container.rs:108-111 | Appends an argument. |
| PetboxContainer.Command.SetIdMaps | crates/petbox/src/container.rs:116 | Records the uid and gid maps. |
| PetboxContainer.Command.SetIdMapCommands | crates/petbox/src/container.rs:117 | Records the map helper programs. |
| PetboxContainer.Command.Unshare | crates/petbox/src/container.rs:118 | Adds the namespaces to those unshared. |
| PetboxContainer.Command.Uid | crates/petbox/src/container.rs:120 | Sets the uid. |
| PetboxContainer.Command.Gid | crates/petbox/src/container.rs:121 | Sets the gid. |
| PetboxContainer.PrepareCommand | crates/petbox/src/container.rs:103-121 | `/usr/bin/bash` with no arguments, or `/usr/bin/tar xf <tar> --directory <path>`. It sets the maps and `newuidmap`/`newgidmap`, unshares only the user namespace, and sets uid and gid 0. |
| PetboxContainer.InstallRootfs | crates/petbox/src/container.rs:93-132 | It panics if the directory cannot be made or no subuid record is found. Otherwise it builds that command with the generated maps, and with `dry_run` it stops before running it. |
| PetboxConfig.PathJoin | crates/petbox/src/config.rs:27-32 | An absolute segment replaces the path. Otherwise the segment is appended, with or without a '/' in between. |
| PetboxConfig.Build | crates/petbox/src/config.rs:10-26 | `PETBOX_DATA_DIR`, if set, is the data directory; otherwise it is the XDG data home plus `/petbox`. A failed XDG lookup panics. |
| PetboxConfig.ContainerDir | crates/petbox/src/config.rs:27-29 | A relative name gives a path that starts with the data directory, ends with the name, and has room for `containers` between them. An absolute name gives the name itself. |
| PetboxConfig.ContainerRootfs | crates/petbox/src/config.rs:30-32 | The rootfs path is the container directory followed by `rootfs`, with at most one '/' in between. |
| PetboxConfig.RootfsSegments | crates/petbox/src/config.rs:27-32 | For a one-segment name, the container dir is `<data>/containers/<name>`. The rootfs adds `/rootfs`, and its segments are the data dir's followed by `containers`, the name and `rootfs`. |
| PetboxConfig.AbsoluteNameLeavesDataDir | crates/petbox/src/config.rs:27-29 | An absolute name replaces the whole path, so the container directory is not under the data directory. |

## Left out

- System calls, FFI and errno reads: clone(2), unshare(2), setns(2), mount(2), pivot_root(2), mkdir(2), chdir(2), open/write and waitpid(2). Each is an event in a `Kernel.Task` log, and its failure comes from an oracle map. The kernel's effects on namespaces and the mount table are not modelled.
- NsCore.WrapCore.Spawn, RunCloned, ChildMain: util.rs:61-71 boxes the closure, `transmute`s the box's heap address into clone(2)'s entry function, and passes a null argument. That address is the closure's data, not code, so the core.rs child as written faults on entry and never reaches `run_child`. The model instead lets the child run `run_child` and records `ExitedWith` or `Aborted` for it. It does not model the fault, or the memory safety of the raw stack. lib.rs's `Wrap` uses nix's `clone`, which takes the closure itself, so this does not apply to it.
- NsCore.InvocationsComplete, NsCore.CallbacksRunAfterSetup: a callback is opaque. It is one `Invoke` event that returns its fixed value, makes no system call the model sees, and never fails or panics. In the source it is any `FnOnce() -> isize` (core.rs:23, lib.rs:101-107), and the crate's own test callbacks `unwrap()` unshare and mount calls, so a real callback can panic and abort the child before the later callbacks run. The `ExitedWith` statuses of the `ChildMain` and `Spawn` members rest on the same assumption.
- PetboxContainer.GetSubxid: `get_subxid` panics when `/etc/subuid` cannot be opened or a line cannot be read (container.rs:17, :24). The model is given the file as its lines, so it cannot produce that outcome. Only the parse panics are modelled.
- Concurrency: the parent and the child are sequential. The child runs to its end inside `Spawn`, and the kernel keeps its log and exit status for `wait`.
- A child's exit status is taken as the returned value modulo 256, and a panic as an abort (`SIGABRT`). This is an assumption about the Rust runtime, which is not part of this model.
- `get_uid`, `get_gid` and `get_pid` (util.rs:10-19) are fields of the `Task`. The password database, getuid(2), the lines of `/etc/subuid`, whether the container directory could be created, `PETBOX_DATA_DIR` and the XDG data home are parameters.
- NsWrap.AbiFs and the `Auto` preset: both are `todo!()` in the source, so they are modelled only as panics.
- Cleaning up the old root after `pivot_root` is not implemented in the source, so there is nothing to model.
- The `unshare_petbox` crate is not part of this model. `PetboxContainer.Command` only records the builder calls `install_rootfs` makes. Running the command, `newuidmap`/`newgidmap`, and printing its exit status are left out.
- The `xdg` crate is not part of this model. Its data home is a parameter, and `get_data_home` is taken as that directory joined with the prefix.
- Paths are strings under Unix `PathBuf::join` rules. `lines()` splitting and UTF-8 decoding of `/etc/subuid` are left out, because the file is given as its lines.
- The CLI binaries (crates/petbox/src/bin/petbox.rs, crates/petbox-bin/src/main.rs) and crates/unshare-petbox/examples/echo.rs are not part of this model. They are argument parsing and logging.
- crates/nswrap/src/error.rs and crates/petbox/src/error.rs are enum declarations. Only the nswrap variants are used, as the constructors of `NsError.Error`.
- `Wrap.namespaces`, `process`, `root` and `mounts` are stored but never read by `spawn`, which always asks clone(2) for user and mount namespaces. The model keeps them as state with no effect, as the source does.
- NsWrap.Wrap.Spawn and NsCore.WrapCore.Spawn: the child's stack is an allocation address in the `Task`. The 120 KiB buffer's contents are not modelled.
- PetboxContainer.InstallRootfs: `gen_uidmap` and `gen_gidmap` read the file twice, and the model gives both reads the same lines. So the second read cannot panic after the first succeeded, which a file changing between the reads could make happen.

## Findings

| source | as written | input that shows it | evidently intended | confidence | as-written member | corrected member |
|---|---|---|---|---|---|---|
| crates/nswrap/src/core.rs:146 | `set_id_map` writes `/proc/<pid>/gid_map` from `uid_maps`; cmd.rs:30 does the same | `id_map_preset(Current)` for uid 1000, gid 100: gid_map gets `1000 1000 1` | gid_map is written from `gid_maps` (`100 100 1`) | not executed | NsCore.SetIdMapAsWrittenIgnoresGidMaps, NsCore.CurrentPresetGidMapExample (of NsCore.WrapCore.SetIdMap, NsWrap.Wrap.SetIdMap, which the launchers call) | NsCore.WrapCore.SetIdMapIntended, NsWrap.Wrap.SetIdMapIntended; the plans differ only here: NsCore.ChildPlanDiffersOnlyInGidMap, NsWrap.WrapPlanDiffersInGidMapAndOrder |
| crates/nswrap/src/cmd.rs:36-38 | `execute_callbacks` pops the queue from the back, so the last-added callback runs first and the first-added one's value is returned | callbacks returning 1 then 2: they run 2 then 1, and `code()` is 1 | run in the order added and return the last one's value (2), as lib.rs:73-79 and core.rs:149-155 do | not executed | NsWrap.PopOrderExample, NsWrap.PopOrderRunsLastAddedFirst (of NsWrap.Wrap.ExecuteCallbacks, which NsWrap.Wrap.Closure calls; NsWrap.Wrap.Spawn's exit status is NsWrap.Wrap.ExitValue) | NsWrap.Wrap.ExecuteCallbacksIntended; the plans' callback runs are each other's reverse: NsWrap.WrapPlanDiffersInGidMapAndOrder |

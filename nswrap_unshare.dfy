/**
 * crates/nswrap/src/unshare.rs: `unshare` folds a list of namespace kinds
 * into one flag set and makes a single unshare(2) call with it.
 */
module NsUnshare {
  import opened Wrappers
  import opened NsError
  import opened NsUtil
  import K = Kernel

  datatype Namespaces = Cgroup | IPC | Mount | Network | User | UTS

  /** The flag each kind sets. */
  function FlagOf(k: Namespaces): bv32 {
    match k
    case Cgroup => CLONE_NEWCGROUP
    case IPC => CLONE_NEWIPC
    case Mount => CLONE_NEWNS
    case Network => CLONE_NEWNET
    case User => CLONE_NEWUSER
    case UTS => CLONE_NEWUTS
  }

  /** Every flag the fold can set. */
  const UNSHARE_MASK: bv32 :=
    CLONE_NEWCGROUP | CLONE_NEWIPC | CLONE_NEWNS | CLONE_NEWNET | CLONE_NEWUSER | CLONE_NEWUTS

  /** The union of the flags of a list, element by element from the front. */
  function Fold(ns: seq<Namespaces>): bv32 {
    if ns == [] then 0 else Fold(ns[..|ns| - 1]) | FlagOf(ns[|ns| - 1])
  }

  /** The flag set that holds exactly the flags of the kinds in `present`. */
  function FlagsOfSet(present: set<Namespaces>): (flags: bv32)
    ensures forall k :: (flags & FlagOf(k) != 0) <==> k in present
    ensures flags & !UNSHARE_MASK == 0
  {
    (if Cgroup in present then CLONE_NEWCGROUP else 0)
    | (if IPC in present then CLONE_NEWIPC else 0)
    | (if Mount in present then CLONE_NEWNS else 0)
    | (if Network in present then CLONE_NEWNET else 0)
    | (if User in present then CLONE_NEWUSER else 0)
    | (if UTS in present then CLONE_NEWUTS else 0)
  }

  function Members(ns: seq<Namespaces>): set<Namespaces> {
    set k | k in ns
  }

  /** The fold depends on which kinds occur, not on their order or repetition. */
  lemma {:induction false} FoldIsFlagsOfMembers(ns: seq<Namespaces>)
    ensures Fold(ns) == FlagsOfSet(Members(ns))
  {
    if ns != [] {
      var init := ns[..|ns| - 1];
      FoldIsFlagsOfMembers(init);
      assert Members(ns) == Members(init) + {ns[|ns| - 1]};
    }
  }

  /** The fold holds one bit per kind in the list, and nothing else. */
  lemma FoldCharacterized(ns: seq<Namespaces>)
    ensures forall k :: (Fold(ns) & FlagOf(k) != 0) <==> k in ns
    ensures Fold(ns) & !UNSHARE_MASK == 0
  {
    FoldIsFlagsOfMembers(ns);
    var f := FlagsOfSet(Members(ns));
    forall k
      ensures (f & FlagOf(k) != 0) <==> k in ns
    {
      assert k in Members(ns) <==> k in ns;
    }
  }

  /** Two lists with the same kinds, in any order and with any repeats, unshare the same namespaces. */
  lemma FoldIgnoresOrderAndDuplicates(a: seq<Namespaces>, b: seq<Namespaces>)
    requires forall k :: k in a <==> k in b
    ensures Fold(a) == Fold(b)
  {
    FoldIsFlagsOfMembers(a);
    FoldIsFlagsOfMembers(b);
    assert Members(a) == Members(b);
  }

  /** The same fold over the first `n` elements, indexed by length (the loop's view of it). */
  function FoldUpTo(ns: seq<Namespaces>, n: nat): bv32
    requires n <= |ns|
  {
    if n == 0 then 0 else FoldUpTo(ns, n - 1) | FlagOf(ns[n - 1])
  }

  lemma {:induction false} FoldUpToIsFold(ns: seq<Namespaces>, n: nat)
    requires n <= |ns|
    ensures FoldUpTo(ns, n) == Fold(ns[..n])
  {
    if n > 0 {
      FoldUpToIsFold(ns, n - 1);
      assert ns[..n][..n - 1] == ns[..n - 1];
    }
  }

  /** The flag set passed to unshare(2): one bit per kind in the list, and nothing else. */
  method UnshareFlags(ns: seq<Namespaces>) returns (flags: bv32)
    ensures flags == Fold(ns)
    ensures forall k :: (flags & FlagOf(k) != 0) <==> k in ns
    ensures flags & !UNSHARE_MASK == 0
    ensures ns == [] ==> flags == 0
  {
    flags := 0;
    for i := 0 to |ns|
      invariant flags == FoldUpTo(ns, i)
    {
      var bit: bv32;
      match ns[i] {
        case Cgroup => bit := CLONE_NEWCGROUP;
        case IPC => bit := CLONE_NEWIPC;
        case Mount => bit := CLONE_NEWNS;
        case Network => bit := CLONE_NEWNET;
        case User => bit := CLONE_NEWUSER;
        case UTS => bit := CLONE_NEWUTS;
      }
      assert bit == FlagOf(ns[i]);
      flags := flags | bit;
    }
    FoldUpToIsFold(ns, |ns|);
    assert ns[..|ns|] == ns;
    FoldCharacterized(ns);
  }

  /** `unshare`: one unshare(2) call with the folded flags; a failure becomes `UnshareFailed`. */
  method Unshare(t: K.Task, ns: seq<Namespaces>) returns (r: Result<(), Error>)
    modifies t`log
    ensures t.log == old(t.log) + [K.Unshare(Fold(ns))]
    ensures r.Ok? <==> !K.Fails(t.refused, K.Unshare(Fold(ns)))
    ensures r.Err? ==> r.error == UnshareFailed(t.refused[K.Unshare(Fold(ns))])
  {
    var flags := UnshareFlags(ns);
    var errno := t.Call(K.Unshare(flags));
    match errno
    case None => r := Ok(());
    case Some(e) => r := Err(UnshareFailed(e));
  }
}

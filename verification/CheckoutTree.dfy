/** A task workdir as paths and nodes, and the operations by which a checkout is built in it
    (src/internal/checkout/publish.go). Every creation is exclusive. */
module CheckoutFiles {
  import opened Common

  /** Components below the task workdir. */
  type Path = seq<string>

  type Bytes = seq<bv8>

  /** A shared file has another hard link. */
  datatype Node = Folder | File(perm: nat, shared: bool, content: Bytes) | Link(target: string) | Special

  type Files = map<Path, Node>

  datatype Op =
    | Mkdir(path: Path)
    | Create(path: Path, perm: nat)
    | Append(path: Path, chunk: Bytes)
    | Symlink(path: Path, target: string)
    | Remove(path: Path)
    | GiveUp(path: Path)

  function Exec(fs: Files, op: Op): Option<Files> {
    match op
    case Mkdir(p) => if p in fs then None else Some(fs[p := Folder])
    case Create(p, perm) => if p in fs then None else Some(fs[p := File(perm, false, [])])
    case Append(p, chunk) =>
      if p in fs && fs[p].File? then Some(fs[p := fs[p].(content := fs[p].content + chunk)]) else None
    case Symlink(p, target) => if p in fs then None else Some(fs[p := Link(target)])
    case Remove(p) => if p !in fs || (exists q :: q in fs && p < q) then None else Some(fs - {p})
    case GiveUp(_) => None
  }

  function RunAll(fs: Files, ops: seq<Op>): Option<Files> {
    if ops == [] then Some(fs)
    else
      var before := RunAll(fs, ops[..|ops| - 1]);
      if before.None? then None else Exec(before.value, ops[|ops| - 1])
  }

  lemma {:induction false} RunConcat(fs: Files, a: seq<Op>, b: seq<Op>)
    ensures RunAll(fs, a + b) == if RunAll(fs, a).None? then None else RunAll(RunAll(fs, a).value, b)
  {
    if b == [] {
      assert a + b == a;
    } else {
      var n := |b| - 1;
      assert (a + b)[..|a + b| - 1] == a + b[..n];
      RunConcat(fs, a, b[..n]);
    }
  }

  lemma {:induction false} RunOne(fs: Files, op: Op)
    ensures RunAll(fs, [op]) == Exec(fs, op)
  {
    assert [op][..0] == [];
    assert RunAll(fs, [op][..0]) == Some(fs);
  }

  /** Every operation works at or below base. */
  predicate AllUnder(ops: seq<Op>, base: Path) {
    forall i :: 0 <= i < |ops| ==> base <= ops[i].path
  }

  /** Nothing outside base changes. */
  lemma {:induction false} RunFrame(fs: Files, ops: seq<Op>, base: Path, p: Path)
    requires AllUnder(ops, base) && RunAll(fs, ops).Some? && !(base <= p)
    ensures p in RunAll(fs, ops).value <==> p in fs
    ensures p in fs ==> RunAll(fs, ops).value[p] == fs[p]
  {
    if ops != [] {
      var n := |ops| - 1;
      assert ops[n].path != p;
      assert AllUnder(ops[..n], base);
      RunFrame(fs, ops[..n], base, p);
    }
  }

  /** An append continues a file that the operation before it created or continued. */
  predicate Local(ops: seq<Op>) {
    forall k :: 0 <= k < |ops| && ops[k].Append? ==> Continues(ops, k)
  }

  predicate Continues(ops: seq<Op>, k: nat)
    requires k < |ops|
  {
    k > 0 && (ops[k - 1].Create? || ops[k - 1].Append?) && ops[k - 1].path == ops[k].path
  }

  lemma {:induction false} LocalConcat(a: seq<Op>, b: seq<Op>)
    requires Local(a) && Local(b)
    ensures Local(a + b)
  {
    var c := a + b;
    forall k | 0 <= k < |c| && c[k].Append? ensures Continues(c, k) {
      if k < |a| {
        assert Continues(a, k);
      } else {
        assert Continues(b, k - |a|);
      }
    }
  }

}

/** A source tree as one traversal reads it, and the operations that copy it. */
module CheckoutTree {
  import opened Common
  import opened CheckoutFiles

  /** Entries are in the order the directory listing returns them, and chunks are the reads that
      copying a file happens to make; neither is fixed by the tree. */
  datatype Tree =
    | Dir(entries: seq<Entry>)
    | Regular(perm: nat, chunks: seq<Bytes>)
    | Symbolic(target: string)
    | Other

  datatype Entry = Entry(name: string, tree: Tree)

  function Joined(chunks: seq<Bytes>): Bytes {
    if chunks == [] then [] else Joined(chunks[..|chunks| - 1]) + chunks[|chunks| - 1]
  }

  function WriteOps(path: Path, chunks: seq<Bytes>): seq<Op> {
    if chunks == [] then []
    else WriteOps(path, chunks[..|chunks| - 1]) + [Append(path, chunks[|chunks| - 1])]
  }

  /** copyCheckoutTree: reserved says that base's own .git directory is already there. */
  function CopyOps(entries: seq<Entry>, base: Path, reserved: bool): seq<Op>
    decreases entries
  {
    if entries == [] then []
    else EntryOps(entries[0], base, reserved) + CopyOps(entries[1..], base, reserved)
  }

  function EntryOps(e: Entry, base: Path, reserved: bool): seq<Op>
    decreases e
  {
    var path := base + [e.name];
    match e.tree
    case Dir(children) =>
      (if reserved && e.name == ".git" then [] else [Mkdir(path)]) + CopyOps(children, path, false)
    case Regular(perm, chunks) => [Create(path, perm)] + WriteOps(path, chunks)
    case Symbolic(target) => [Symlink(path, target)]
    case Other => [GiveUp(path)]
  }

  /** The nodes of a tree below base; a copy's files are its own. */
  function Copied(entries: seq<Entry>, base: Path): Files
    decreases entries
  {
    if entries == [] then map[] else CopiedEntry(entries[0], base) + Copied(entries[1..], base)
  }

  function CopiedEntry(e: Entry, base: Path): Files
    decreases e
  {
    var path := base + [e.name];
    match e.tree
    case Dir(children) => map[path := Folder] + Copied(children, path)
    case Regular(perm, chunks) => map[path := File(perm, false, Joined(chunks))]
    case Symbolic(target) => map[path := Link(target)]
    case Other => map[path := Special]
  }

  predicate Listed(entries: seq<Entry>)
    decreases entries
  {
    if entries == [] then true
    else
    && (forall i :: 1 <= i < |entries| ==> entries[i].name != entries[0].name)
    && (entries[0].tree.Dir? ==> Listed(entries[0].tree.entries))
    && Listed(entries[1..])
  }

  /** No special file anywhere. */
  predicate Plain(entries: seq<Entry>)
    decreases entries
  {
    if entries == [] then true
    else
    && !entries[0].tree.Other?
    && (entries[0].tree.Dir? ==> Plain(entries[0].tree.entries))
    && Plain(entries[1..])
  }

  lemma {:induction false} CopiedUnder(entries: seq<Entry>, base: Path, p: Path)
    requires p in Copied(entries, base)
    ensures |base| < |p| && base <= p && exists i :: 0 <= i < |entries| && entries[i].name == p[|base|]
    decreases entries
  {
    var e := entries[0];
    if p in CopiedEntry(e, base) {
      CopiedEntryUnder(e, base, p);
      assert e.name == p[|base|];
    } else {
      CopiedUnder(entries[1..], base, p);
      var i :| 0 <= i < |entries[1..]| && entries[1..][i].name == p[|base|];
      assert entries[i + 1].name == p[|base|];
    }
  }

  lemma {:induction false} CopiedEntryUnder(e: Entry, base: Path, p: Path)
    requires p in CopiedEntry(e, base)
    ensures |base| < |p| && base <= p && p[|base|] == e.name
    decreases e
  {
    var path := base + [e.name];
    if p != path {
      CopiedUnder(e.tree.entries, path, p);
      assert p[..|path|] == path;
      assert p[|base|] == path[|base|];
    }
  }

  predicate NoRemoves(ops: seq<Op>) {
    forall k :: 0 <= k < |ops| ==> !ops[k].Remove?
  }

  lemma {:induction false} WriteOpsShape(path: Path, perm: nat, chunks: seq<Bytes>)
    ensures Local([Create(path, perm)] + WriteOps(path, chunks))
    ensures AllUnder([Create(path, perm)] + WriteOps(path, chunks), path)
    ensures NoRemoves(WriteOps(path, chunks))
    ensures var ops := [Create(path, perm)] + WriteOps(path, chunks);
      (ops[|ops| - 1].Create? || ops[|ops| - 1].Append?) && ops[|ops| - 1].path == path
  {
    if chunks != [] {
      var n := |chunks| - 1;
      WriteOpsShape(path, perm, chunks[..n]);
      var a := [Create(path, perm)] + WriteOps(path, chunks[..n]);
      var ops := [Create(path, perm)] + WriteOps(path, chunks);
      assert ops == a + [Append(path, chunks[n])];
      forall k | 0 <= k < |ops| && ops[k].Append? ensures Continues(ops, k) {
        if k < |a| {
          assert Continues(a, k);
        }
      }
    }
  }

  lemma {:induction false} CopyOpsShape(entries: seq<Entry>, base: Path, reserved: bool)
    ensures Local(CopyOps(entries, base, reserved)) && AllUnder(CopyOps(entries, base, reserved), base)
    ensures NoRemoves(CopyOps(entries, base, reserved))
    decreases entries
  {
    if entries != [] {
      EntryOpsShape(entries[0], base, reserved);
      CopyOpsShape(entries[1..], base, reserved);
      LocalConcat(EntryOps(entries[0], base, reserved), CopyOps(entries[1..], base, reserved));
    }
  }

  lemma {:induction false} EntryOpsShape(e: Entry, base: Path, reserved: bool)
    ensures Local(EntryOps(e, base, reserved)) && AllUnder(EntryOps(e, base, reserved), base)
    ensures NoRemoves(EntryOps(e, base, reserved))
    decreases e
  {
    var path := base + [e.name];
    match e.tree
    case Dir(children) =>
      CopyOpsShape(children, path, false);
      var first := if reserved && e.name == ".git" then [] else [Mkdir(path)];
      LocalConcat(first, CopyOps(children, path, false));
    case Regular(perm, chunks) =>
      WriteOpsShape(path, perm, chunks);
    case _ =>
  }

  lemma {:induction false} RunWrites(fs: Files, path: Path, perm: nat, chunks: seq<Bytes>)
    requires path !in fs
    ensures RunAll(fs, [Create(path, perm)] + WriteOps(path, chunks)) == Some(fs[path := File(perm, false, Joined(chunks))])
  {
    if chunks == [] {
      assert [Create(path, perm)] + [] == [Create(path, perm)];
      RunOne(fs, Create(path, perm));
    } else {
      var n := |chunks| - 1;
      RunWrites(fs, path, perm, chunks[..n]);
      var a := [Create(path, perm)] + WriteOps(path, chunks[..n]);
      var ops := [Create(path, perm)] + WriteOps(path, chunks);
      assert ops[..|ops| - 1] == a && ops[|ops| - 1] == Append(path, chunks[n]);
      var g := fs[path := File(perm, false, Joined(chunks[..n]))];
      assert g[path := File(perm, false, Joined(chunks))] == fs[path := File(perm, false, Joined(chunks))];
    }
  }

  /** Nothing of m is in fs already, but for a reserved .git directory below base. */
  predicate Vacant(fs: Files, m: Files, base: Path, reserved: bool) {
    forall p :: p in m && p in fs ==> reserved && p == base + [".git"] && fs[p] == Folder && m[p] == Folder
  }

  lemma {:induction false} VacantSplit(fs: Files, a: Files, b: Files, base: Path, reserved: bool)
    requires forall p :: p in a ==> p !in b
    ensures Vacant(fs, a + b, base, reserved) <==> Vacant(fs, a, base, reserved) && Vacant(fs + a, b, base, reserved)
    ensures fs + a + b == fs + (a + b)
  {
    if Vacant(fs, a + b, base, reserved) {
      forall p | p in a && p in fs ensures p in a + b && (a + b)[p] == a[p] {
      }
    }
    if Vacant(fs, a, base, reserved) && Vacant(fs + a, b, base, reserved) {
      forall p | p in a + b && p in fs ensures reserved && p == base + [".git"] && fs[p] == Folder && (a + b)[p] == Folder {
        if p in b {
          assert p in fs + a;
        }
      }
    }
  }

  predicate PlainEntry(e: Entry) {
    !e.tree.Other? && (e.tree.Dir? ==> Plain(e.tree.entries))
  }

  predicate Reserved(fs: Files, base: Path, reserved: bool) {
    reserved ==> base + [".git"] in fs && fs[base + [".git"]] == Folder
  }

  function Copying(fs: Files, m: Files, plain: bool, base: Path, reserved: bool): Option<Files> {
    if plain && Vacant(fs, m, base, reserved) then Some(fs + m) else None
  }

  lemma {:induction false} SiblingsApart(e: Entry, rest: seq<Entry>, base: Path)
    requires forall i :: 0 <= i < |rest| ==> rest[i].name != e.name
    ensures forall p :: p in CopiedEntry(e, base) ==> p !in Copied(rest, base)
  {
    forall p | p in CopiedEntry(e, base) ensures p !in Copied(rest, base) {
      CopiedEntryUnder(e, base, p);
      if p in Copied(rest, base) {
        CopiedUnder(rest, base, p);
      }
    }
  }

  /** Copying succeeds exactly on a tree without special files whose place is vacant, and then adds
      the tree and nothing else. */
  lemma {:induction false} CopyEffect(fs: Files, entries: seq<Entry>, base: Path, reserved: bool)
    requires Listed(entries) && Reserved(fs, base, reserved)
    ensures RunAll(fs, CopyOps(entries, base, reserved)) == Copying(fs, Copied(entries, base), Plain(entries), base, reserved)
    decreases entries
  {
    if entries == [] {
      assert fs + map[] == fs;
    } else {
      var e, rest := entries[0], entries[1..];
      RunConcat(fs, EntryOps(e, base, reserved), CopyOps(rest, base, reserved));
      EntryEffect(fs, e, base, reserved);
      SiblingsApart(e, rest, base);
      var a, b := CopiedEntry(e, base), Copied(rest, base);
      VacantSplit(fs, a, b, base, reserved);
      if PlainEntry(e) && Vacant(fs, a, base, reserved) {
        CopyEffect(fs + a, rest, base, reserved);
      }
    }
  }

  lemma {:induction false} EntryEffect(fs: Files, e: Entry, base: Path, reserved: bool)
    requires (e.tree.Dir? ==> Listed(e.tree.entries)) && Reserved(fs, base, reserved)
    ensures RunAll(fs, EntryOps(e, base, reserved)) == Copying(fs, CopiedEntry(e, base), PlainEntry(e), base, reserved)
    decreases e
  {
    var path := base + [e.name];
    match e.tree
    case Dir(children) => DirEffect(fs, e, base, reserved);
    case Regular(perm, chunks) => FileEffect(fs, e, base, reserved);
    case Symbolic(target) =>
      RunOne(fs, Symlink(path, target));
      assert path in CopiedEntry(e, base);
      assert fs + map[path := Link(target)] == fs[path := Link(target)];
    case Other => RunOne(fs, GiveUp(path));
  }

  lemma {:induction false} DirEffect(fs: Files, e: Entry, base: Path, reserved: bool)
    requires e.tree.Dir? && Listed(e.tree.entries) && Reserved(fs, base, reserved)
    ensures RunAll(fs, EntryOps(e, base, reserved)) == Copying(fs, CopiedEntry(e, base), PlainEntry(e), base, reserved)
    decreases e, 0
  {
    CopyEffect(fs[base + [e.name] := Folder], e.tree.entries, base + [e.name], false);
    DirOps(fs, e, base, reserved);
    DirCopying(fs, e, base, reserved);
  }

  predicate Opens(fs: Files, e: Entry, base: Path, reserved: bool) {
    (reserved && e.name == ".git") || base + [e.name] !in fs
  }

  lemma {:induction false} DirOps(fs: Files, e: Entry, base: Path, reserved: bool)
    requires e.tree.Dir? && Reserved(fs, base, reserved)
    ensures var path := base + [e.name];
      RunAll(fs, EntryOps(e, base, reserved)) ==
        if Opens(fs, e, base, reserved) then RunAll(fs[path := Folder], CopyOps(e.tree.entries, path, false)) else None
  {
    var path, ops := base + [e.name], CopyOps(e.tree.entries, base + [e.name], false);
    if reserved && e.name == ".git" {
      assert fs[path := Folder] == fs;
      assert [] + ops == ops;
    } else {
      MkdirThen(fs, path, ops);
    }
  }

  lemma {:induction false} DirCopying(fs: Files, e: Entry, base: Path, reserved: bool)
    requires e.tree.Dir? && Reserved(fs, base, reserved)
    ensures var path := base + [e.name];
      Copying(fs, CopiedEntry(e, base), PlainEntry(e), base, reserved) ==
        if Opens(fs, e, base, reserved) then Copying(fs[path := Folder], Copied(e.tree.entries, path), Plain(e.tree.entries), path, false) else None
  {
    var path, children := base + [e.name], e.tree.entries;
    var a, b := map[path := Folder], Copied(children, path);
    assert fs + a == fs[path := Folder];
    BelowDirectory(fs + a, children, base, e.name, reserved);
    VacantSplit(fs, a, b, base, reserved);
    OpensVacant(fs, e, base, reserved);
  }

  lemma {:induction false} OpensVacant(fs: Files, e: Entry, base: Path, reserved: bool)
    requires Reserved(fs, base, reserved)
    ensures Vacant(fs, map[base + [e.name] := Folder], base, reserved) <==> Opens(fs, e, base, reserved)
  {
    var path := base + [e.name];
    assert path[|base|] == e.name && path in map[path := Folder];
    assert path == base + [".git"] ==> e.name == ".git";
  }

  lemma {:induction false} BelowDirectory(fs: Files, children: seq<Entry>, base: Path, name: string, reserved: bool)
    ensures var b := Copied(children, base + [name]);
      && base + [name] !in b && base + [".git"] !in b
      && (Vacant(fs, b, base, reserved) <==> Vacant(fs, b, base + [name], false))
  {
    var path := base + [name];
    forall p | p in Copied(children, path) ensures p != path && p != base + [".git"] {
      CopiedUnder(children, path, p);
    }
  }

  lemma {:induction false} MkdirThen(fs: Files, path: Path, ops: seq<Op>)
    ensures RunAll(fs, [Mkdir(path)] + ops) == if path in fs then None else RunAll(fs[path := Folder], ops)
  {
    RunOne(fs, Mkdir(path));
    RunConcat(fs, [Mkdir(path)], ops);
  }

  lemma {:induction false} FileEffect(fs: Files, e: Entry, base: Path, reserved: bool)
    requires e.tree.Regular?
    ensures RunAll(fs, EntryOps(e, base, reserved)) == Copying(fs, CopiedEntry(e, base), true, base, reserved)
  {
    var path, node := base + [e.name], File(e.tree.perm, false, Joined(e.tree.chunks));
    assert CopiedEntry(e, base) == map[path := node];
    if path in fs {
      RunOne(fs, Create(path, e.tree.perm));
      RunConcat(fs, [Create(path, e.tree.perm)], WriteOps(path, e.tree.chunks));
    } else {
      RunWrites(fs, path, e.tree.perm, e.tree.chunks);
      assert fs + map[path := node] == fs[path := node];
    }
  }

  lemma {:induction false} Rebase(entries: seq<Entry>, a: Path, b: Path, p: Path)
    ensures a + p in Copied(entries, a + b) <==> p in Copied(entries, b)
    ensures p in Copied(entries, b) ==> Copied(entries, a + b)[a + p] == Copied(entries, b)[p]
    decreases entries
  {
    if entries != [] {
      RebaseEntry(entries[0], a, b, p);
      Rebase(entries[1..], a, b, p);
    }
  }

  lemma {:induction false} RebaseEntry(e: Entry, a: Path, b: Path, p: Path)
    ensures a + p in CopiedEntry(e, a + b) <==> p in CopiedEntry(e, b)
    ensures p in CopiedEntry(e, b) ==> CopiedEntry(e, a + b)[a + p] == CopiedEntry(e, b)[p]
    decreases e
  {
    var path := b + [e.name];
    assert a + path == a + b + [e.name];
    assert a + p == a + path ==> p == path by {
      assert (a + p)[|a|..] == p && (a + path)[|a|..] == path;
    }
    if e.tree.Dir? {
      Rebase(e.tree.entries, a, path, p);
    }
  }

  /** A tree holds every directory on the way to what it holds. */
  lemma {:induction false} CopiedClosed(entries: seq<Entry>, base: Path, r: Path, p: Path)
    requires p in Copied(entries, base) && |base| < |r| && r <= p
    ensures r in Copied(entries, base)
    decreases entries
  {
    if p in CopiedEntry(entries[0], base) {
      EntryClosed(entries[0], base, r, p);
    } else {
      CopiedClosed(entries[1..], base, r, p);
    }
  }

  lemma {:induction false} EntryClosed(e: Entry, base: Path, r: Path, p: Path)
    requires p in CopiedEntry(e, base) && |base| < |r| && r <= p
    ensures r in CopiedEntry(e, base)
    decreases e
  {
    var path := base + [e.name];
    CopiedEntryUnder(e, base, p);
    assert path <= p;
    assert r == p[..|r|];
    if |r| == |path| {
      assert r == path;
    } else {
      CopiedUnder(e.tree.entries, path, p);
      CopiedClosed(e.tree.entries, path, r, p);
    }
  }

  /** removeCheckoutTree: children before their directory. */
  function RemoveOps(entries: seq<Entry>, base: Path): seq<Op>
    decreases entries
  {
    if entries == [] then []
    else RemoveEntryOps(entries[0], base) + RemoveOps(entries[1..], base)
  }

  function RemoveEntryOps(e: Entry, base: Path): seq<Op>
    decreases e
  {
    var path := base + [e.name];
    (if e.tree.Dir? then RemoveOps(e.tree.entries, path) else []) + [Remove(path)]
  }

  lemma {:induction false} RemoveOpsUnder(entries: seq<Entry>, base: Path)
    ensures AllUnder(RemoveOps(entries, base), base)
    decreases entries
  {
    if entries != [] {
      var e := entries[0];
      RemoveOpsUnder(entries[1..], base);
      if e.tree.Dir? {
        RemoveOpsUnder(e.tree.entries, base + [e.name]);
      }
    }
  }

  lemma {:induction false} PlainUnlessSpecial(entries: seq<Entry>, base: Path)
    requires Listed(entries) && forall p :: p in Copied(entries, base) ==> Copied(entries, base)[p] != Special
    ensures Plain(entries)
    decreases entries
  {
    if entries != [] {
      var e, rest := entries[0], entries[1..];
      var path := base + [e.name];
      SiblingsApart(e, rest, base);
      forall p | p in CopiedEntry(e, base) ensures CopiedEntry(e, base)[p] != Special {
        assert p in Copied(entries, base);
      }
      assert path in CopiedEntry(e, base) || e.tree.Dir?;
      if e.tree.Dir? {
        forall p | p in Copied(e.tree.entries, path) ensures Copied(e.tree.entries, path)[p] != Special {
          assert CopiedEntry(e, base)[p] == Copied(e.tree.entries, path)[p];
        }
        PlainUnlessSpecial(e.tree.entries, path);
      }
      forall p | p in Copied(rest, base) ensures Copied(rest, base)[p] != Special {
        assert Copied(entries, base)[p] == Copied(rest, base)[p];
      }
      PlainUnlessSpecial(rest, base);
    }
  }
}

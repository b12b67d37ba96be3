/** Publishing a prepared checkout by copying, on file systems that cannot rename without replacing,
    and the reader that decides whether a published checkout may be reused
    (src/internal/checkout/publish.go, src/internal/checkout/prepare.go). */
module CheckoutReader {
  import opened Common
  import opened CheckoutFiles

  const PENDING := "multica-checkout-pending"
  const CONFIG_LIMIT := 0x10_0000

  /** How a symlink of a tree resolves, and the origin URL a Git configuration names. */
  datatype Foreign = Foreign(linkOk: (Files, Path) -> bool, origin: Bytes -> Option<string>)

  function Below(fs: Files, base: Path): set<Path> {
    set p | p in fs && base <= p :: p[|base|..]
  }

  /** The tree at base, with paths relative to it. */
  function TreeAt(fs: Files, base: Path): (t: Files)
    ensures forall q :: q in t <==> base + q in fs
    ensures forall q :: q in t ==> t[q] == fs[base + q]
  {
    BelowMeaning(fs, base);
    map q | q in Below(fs, base) :: fs[base + q]
  }

  lemma {:induction false} BelowMeaning(fs: Files, base: Path)
    ensures forall q :: q in Below(fs, base) <==> base + q in fs
  {
    forall q ensures q in Below(fs, base) <==> base + q in fs {
      if base + q in fs {
        assert base <= base + q && (base + q)[|base|..] == q;
      }
      if q in Below(fs, base) {
        var p :| p in fs && base <= p && p[|base|..] == q;
        assert base + q == p;
      }
    }
  }

  predicate EndsWith(p: Path, tail: Path) {
    |tail| <= |p| && p[|p| - |tail|..] == tail
  }

  /** A node that keeps part of the repository somewhere else. */
  predicate External(p: Path, n: Node) {
    || (EndsWith(p, [".git"]) && n != Folder)
    || (|p| > 3 && (EndsWith(p, ["objects", "info", "alternates"]) || EndsWith(p, ["objects", "info", "http-alternates"])))
    || EndsWith(p, [".git", "commondir"])
  }

  predicate NodeVerified(t: Files, x: Foreign, p: Path)
    requires p in t
  {
    match t[p]
    case Link(_) => ".git" !in p && x.linkOk(t, p)
    case Special => false
    case File(_, shared, _) => !shared && !External(p, t[p])
    case Folder => !External(p, t[p])
  }

  predicate Verified(t: Files, x: Foreign) {
    [".git"] in t && t[[".git"]] == Folder && forall p :: p in t ==> NodeVerified(t, x, p)
  }

  predicate OriginIs(t: Files, x: Foreign, url: string) {
    var config := [".git", "config"];
    && config in t && t[config].File? && !t[config].shared && |t[config].content| <= CONFIG_LIMIT
    && x.origin(t[config].content) == Some(url)
  }

  datatype Seen = Absent | Refused | Accepted

  function Retain(fs: Files, name: string, x: Foreign, url: string): Seen {
    if [name] !in fs then Absent
    else if [name, ".git", PENDING] in fs then Refused
    else if !Verified(TreeAt(fs, [name]), x) || !OriginIs(TreeAt(fs, [name]), x, url) then Refused
    else Accepted
  }
}

module Publication {
  import opened Common
  import opened CheckoutFiles
  import opened CheckoutTree
  import opened CheckoutReader

  function Marker(name: string): Path { [name, ".git", PENDING] }

  function GitDir(name: string): Path { [name, ".git"] }

  function Reserve(name: string): seq<Op> {
    [Mkdir([name]), Mkdir(GitDir(name)), Create(Marker(name), 0x180)]
  }

  /** copyCheckout: reserve the name with a marker inside, copy, remove the marker. */
  function Program(t: seq<Entry>, name: string): seq<Op> {
    Reserve(name) + CopyOps(t, [name], true) + [Remove(Marker(name))]
  }

  /** What stands at the name when the first k operations have been done. */
  function Own(t: seq<Entry>, name: string, k: nat): Option<Files>
    requires k <= |Program(t, name)|
  {
    RunAll(map[], Program(t, name)[..k])
  }

  datatype World = World(fs: Files, pc: nat)

  /** Others share the workdir: they may do anything to paths this publication has not created,
      but do not reach into the reserved Git directory. */
  ghost predicate Others(own: Files, name: string, fs: Files, gs: Files) {
    && (forall p :: p in own ==> (p in gs <==> p in fs) && (p in fs && p in gs ==> gs[p] == fs[p]))
    && (forall p :: GitDir(name) <= p ==> (p in gs <==> p in fs) && (p in fs && p in gs ==> gs[p] == fs[p]))
  }

  ghost predicate Next(t: seq<Entry>, name: string, v: World, w: World) {
    && v.pc <= |Program(t, name)|
    && (|| (v.pc < |Program(t, name)| && w.pc == v.pc + 1 && Exec(v.fs, Program(t, name)[v.pc]) == Some(w.fs))
        || (w.pc == v.pc && Own(t, name, v.pc).Some? && Others(Own(t, name, v.pc).value, name, v.fs, w.fs)))
  }

  /** Every run, cut off anywhere: a crash or an error only means that no more operations follow. */
  ghost predicate History(t: seq<Entry>, name: string, h: seq<World>) {
    && |h| > 0 && h[0].pc == 0 && Unoccupied(h[0].fs, name)
    && forall i :: 0 <= i < |h| - 1 ==> Next(t, name, h[i], h[i + 1])
  }

  predicate Unoccupied(fs: Files, name: string) {
    forall p :: p in fs ==> !([name] <= p)
  }

  predicate Within(own: Files, fs: Files) {
    forall p :: p in own ==> p in fs && fs[p] == own[p]
  }

  /** The reserved Git directory holds what this publication put there, and nothing else. */
  ghost predicate GitOwned(own: Files, fs: Files, name: string) {
    forall p :: GitDir(name) <= p && p in fs ==> p in own
  }

  lemma {:induction false} ProgramLocal(t: seq<Entry>, name: string)
    ensures Local(Program(t, name))
  {
    CopyOpsShape(t, [name], true);
    LocalConcat(Reserve(name), CopyOps(t, [name], true));
    LocalConcat(Reserve(name) + CopyOps(t, [name], true), [Remove(Marker(name))]);
  }

  lemma {:induction false} OwnStep(t: seq<Entry>, name: string, k: nat)
    requires k < |Program(t, name)|
    ensures Own(t, name, k + 1) == if Own(t, name, k).None? then None else Exec(Own(t, name, k).value, Program(t, name)[k])
  {
    assert Program(t, name)[..k + 1][..k] == Program(t, name)[..k];
  }

  lemma {:induction false} AppendsToOwn(t: seq<Entry>, name: string, k: nat)
    requires k < |Program(t, name)| && Program(t, name)[k].Append? && Own(t, name, k).Some?
    ensures Program(t, name)[k].path in Own(t, name, k).value && Own(t, name, k).value[Program(t, name)[k].path].File?
  {
    ProgramLocal(t, name);
    assert Continues(Program(t, name), k);
    OwnStep(t, name, k - 1);
  }

  /** An operation that succeeds in the workdir would also succeed alone, and leaves what others made. */
  lemma {:induction false} ExecSeparates(own: Files, fs: Files, op: Op)
    requires Within(own, fs) && Exec(fs, op).Some?
    requires op.Append? || op.Remove? ==> op.path in own
    ensures Exec(own, op).Some? && Within(Exec(own, op).value, Exec(fs, op).value)
    ensures forall p :: p in fs && p !in own ==> p in Exec(fs, op).value && Exec(fs, op).value[p] == fs[p]
    ensures forall p :: p in Exec(fs, op).value && p !in fs ==> p in Exec(own, op).value
  {
  }

  /** Once reserved, the marker stays until the last operation. */
  lemma {:induction false} MarkerHeld(t: seq<Entry>, name: string, k: nat)
    requires 3 <= k < |Program(t, name)| && Own(t, name, k).Some?
    ensures Marker(name) in Own(t, name, k).value
  {
    OwnStep(t, name, k - 1);
    if k == 3 {
      assert Program(t, name)[2] == Create(Marker(name), 0x180);
    } else {
      MarkerHeld(t, name, k - 1);
      OnlyLastRemoves(t, name, k - 1);
    }
  }

  lemma {:induction false} OwnStart(t: seq<Entry>, name: string)
    ensures |Program(t, name)| >= 4 && Program(t, name)[..3] == Reserve(name)
    ensures Own(t, name, 0) == Some(map[]) && Own(t, name, 1) == Some(map[[name] := Folder])
    ensures Own(t, name, 2) == Some(map[[name] := Folder, GitDir(name) := Folder])
    ensures Own(t, name, 3) == Some(Reserved3(name))
  {
    var p := Program(t, name);
    assert p[..3] == Reserve(name);
    assert p[..0] == [];
    OwnStep(t, name, 0);
    OwnStep(t, name, 1);
    OwnStep(t, name, 2);
  }

  function Reserved3(name: string): Files {
    map[[name] := Folder, GitDir(name) := Folder, Marker(name) := File(0x180, false, [])]
  }

  /** The published tree. */
  function Published(t: seq<Entry>, name: string): Files {
    map[[name] := Folder, GitDir(name) := Folder] + Copied(t, [name])
  }

  /** The operations run to the end exactly on a source without special files whose .git is a
      directory, if it has one, and that does not itself contain the marker. */
  predicate Publishable(t: seq<Entry>, name: string) {
    Plain(t) && Vacant(Reserved3(name), Copied(t, [name]), [name], true)
  }

  lemma {:induction false} OwnCopied(t: seq<Entry>, name: string)
    requires Listed(t)
    ensures Own(t, name, |Program(t, name)| - 1) == if Publishable(t, name) then Some(Reserved3(name) + Copied(t, [name])) else None
  {
    var p, u := Program(t, name), |Program(t, name)| - 1;
    OwnStart(t, name);
    assert p[..u] == Reserve(name) + CopyOps(t, [name], true);
    RunConcat(map[], Reserve(name), CopyOps(t, [name], true));
    assert [name] + [".git"] == GitDir(name);
    CopyEffect(Reserved3(name), t, [name], true);
  }

  lemma {:induction false} OwnEnd(t: seq<Entry>, name: string)
    requires Listed(t)
    ensures Own(t, name, |Program(t, name)|) == if Publishable(t, name) then Some(Published(t, name)) else None
  {
    OwnCopied(t, name);
    OwnStep(t, name, |Program(t, name)| - 1);
    assert Program(t, name)[|Program(t, name)| - 1] == Remove(Marker(name));
    if Publishable(t, name) {
      Unmarking(t, name);
    }
  }

  lemma {:induction false} Unmarking(t: seq<Entry>, name: string)
    requires Publishable(t, name)
    ensures Exec(Reserved3(name) + Copied(t, [name]), Remove(Marker(name))) == Some(Published(t, name))
  {
    assert Marker(name) in Reserved3(name);
    assert Marker(name) !in Copied(t, [name]);
    NothingBelowMarker(t, name);
    assert Reserved3(name) - {Marker(name)} == map[[name] := Folder, GitDir(name) := Folder];
    DropKey(Reserved3(name), Copied(t, [name]), Marker(name));
  }

  lemma {:induction false} DropKey(a: Files, b: Files, p: Path)
    requires p in a && p !in b
    ensures p in a + b && a + b - {p} == (a - {p}) + b
  {
  }

  /** A source that has no marker has nothing below it either. */
  lemma {:induction false} NothingBelowMarker(t: seq<Entry>, name: string)
    requires Marker(name) !in Copied(t, [name])
    ensures forall q :: q in Reserved3(name) + Copied(t, [name]) ==> !(Marker(name) < q)
  {
    forall q | q in Copied(t, [name]) ensures !(Marker(name) < q) {
      if Marker(name) < q {
        CopiedClosed(t, [name], Marker(name), q);
      }
    }
  }

  ghost predicate Inv(t: seq<Entry>, name: string, w: World) {
    && w.pc <= |Program(t, name)| && Own(t, name, w.pc).Some?
    && Within(Own(t, name, w.pc).value, w.fs) && GitOwned(Own(t, name, w.pc).value, w.fs, name)
  }

  lemma {:induction false} OnlyLastRemoves(t: seq<Entry>, name: string, k: nat)
    requires k < |Program(t, name)| - 1
    ensures !Program(t, name)[k].Remove?
  {
    if k < 3 {
      assert Program(t, name)[k] == Reserve(name)[k];
    } else {
      CopyOpsShape(t, [name], true);
      assert Program(t, name)[k] == CopyOps(t, [name], true)[k - 3];
    }
  }

  lemma {:induction false} OpsOwn(t: seq<Entry>, name: string, k: nat)
    requires k < |Program(t, name)| && Own(t, name, k).Some?
    ensures var op := Program(t, name)[k]; op.Append? || op.Remove? ==> op.path in Own(t, name, k).value
  {
    var p := Program(t, name);
    OwnStart(t, name);
    if p[k].Append? {
      AppendsToOwn(t, name, k);
    } else if k < |p| - 1 {
      OnlyLastRemoves(t, name, k);
    } else {
      MarkerHeld(t, name, k);
    }
  }

  lemma {:induction false} StepKeepsInv(t: seq<Entry>, name: string, v: World, w: World)
    requires Inv(t, name, v) && Next(t, name, v, w)
    ensures Inv(t, name, w)
  {
    if w.pc == v.pc + 1 {
      var op := Program(t, name)[v.pc];
      OwnStep(t, name, v.pc);
      OpsOwn(t, name, v.pc);
      ExecSeparates(Own(t, name, v.pc).value, v.fs, op);
      forall p | GitDir(name) <= p && p in w.fs ensures p in Own(t, name, w.pc).value {
        if p in v.fs {
          assert p in Own(t, name, v.pc).value;
          assert !(op.Remove? && op.path == p);
        }
      }
    }
  }

  lemma {:induction false} HistoryKeepsInv(t: seq<Entry>, name: string, h: seq<World>, i: nat)
    requires History(t, name, h) && i < |h|
    ensures Inv(t, name, h[i])
  {
    if i == 0 {
      OwnStart(t, name);
      forall p | p in h[0].fs ensures GitDir(name) <= p ==> [name] <= p {
        assert GitDir(name) <= p ==> p[0] == name;
      }
    } else {
      HistoryKeepsInv(t, name, h, i - 1);
      assert Next(t, name, h[i - 1], h[i - 1 + 1]);
      StepKeepsInv(t, name, h[i - 1], h[i]);
    }
  }

  /** At any moment of any run, whatever others do around it: the reader accepts only when every
      operation has been done, and then each path of the source is there with the source's node. */
  lemma {:induction false} PartialNeverAccepted(t: seq<Entry>, name: string, h: seq<World>, i: nat, x: Foreign, url: string)
    requires Listed(t) && History(t, name, h) && i < |h|
    requires Retain(h[i].fs, name, x, url) == Accepted
    ensures h[i].pc == |Program(t, name)| && Publishable(t, name)
    ensures Within(Published(t, name), h[i].fs)
  {
    HistoryKeepsInv(t, name, h, i);
    AcceptedMeaning(h[i].fs, name, x, url);
    assert Config(name) in Own(t, name, h[i].pc).value;
    if h[i].pc < 3 {
      NoConfigYet(t, name, h[i].pc);
    } else if h[i].pc < |Program(t, name)| {
      MarkerHeld(t, name, h[i].pc);
    }
    OwnEnd(t, name);
  }

  function Config(name: string): Path { [name, ".git", "config"] }

  /** What the reader accepts has a configuration in its Git directory and no marker. */
  lemma {:induction false} AcceptedMeaning(fs: Files, name: string, x: Foreign, url: string)
    requires Retain(fs, name, x, url) == Accepted
    ensures Config(name) in fs && GitDir(name) <= Config(name) && Marker(name) !in fs
  {
    assert [name] + [".git", "config"] == Config(name);
    assert [".git", "config"] in TreeAt(fs, [name]);
  }

  lemma {:induction false} NoConfigYet(t: seq<Entry>, name: string, k: nat)
    requires k < 3
    ensures k < |Program(t, name)| && Own(t, name, k).Some? && Config(name) !in Own(t, name, k).value
  {
    OwnStart(t, name);
    assert [name] != Config(name) && GitDir(name) != Config(name);
  }

  /** The nodes a run has created and not removed by its k-th operation. */
  function Created(t: seq<Entry>, name: string, k: nat): Files {
    if k <= |Program(t, name)| && Own(t, name, k).Some? then Own(t, name, k).value else map[]
  }

  /** No operation ever changes or removes a node that the publication did not create. */
  lemma {:induction false} NothingOverwritten(t: seq<Entry>, name: string, h: seq<World>, i: nat, p: Path)
    requires History(t, name, h) && i + 1 < |h| && h[i + 1].pc == h[i].pc + 1
    requires p in h[i].fs && p !in Created(t, name, h[i].pc)
    ensures p in h[i + 1].fs && h[i + 1].fs[p] == h[i].fs[p]
  {
    HistoryKeepsInv(t, name, h, i);
    assert Next(t, name, h[i], h[i + 1]);
    OpsOwn(t, name, h[i].pc);
    ExecSeparates(Own(t, name, h[i].pc).value, h[i].fs, Program(t, name)[h[i].pc]);
  }

  /** A run in which nobody else writes at or below the name. */
  ghost predicate Quiet(t: seq<Entry>, name: string, h: seq<World>) {
    forall i :: 0 <= i < |h| - 1 && h[i + 1].pc == h[i].pc ==> SameBelow(h[i].fs, h[i + 1].fs, name)
  }

  ghost predicate SameBelow(fs: Files, gs: Files, name: string) {
    forall p :: [name] <= p ==> (p in gs <==> p in fs) && (p in fs && p in gs ==> gs[p] == fs[p])
  }

  ghost predicate OnlyOwn(own: Files, fs: Files, name: string) {
    forall p :: [name] <= p && p in fs ==> p in own
  }

  lemma {:induction false} QuietOwnsAll(t: seq<Entry>, name: string, h: seq<World>, i: nat)
    requires History(t, name, h) && Quiet(t, name, h) && i < |h|
    ensures Inv(t, name, h[i]) && OnlyOwn(Own(t, name, h[i].pc).value, h[i].fs, name)
  {
    HistoryKeepsInv(t, name, h, i);
    if i > 0 {
      QuietOwnsAll(t, name, h, i - 1);
      var v, w := h[i - 1], h[i];
      assert Next(t, name, v, h[i - 1 + 1]);
      if w.pc == v.pc {
        assert SameBelow(v.fs, h[i - 1 + 1].fs, name);
      } else {
        var op := Program(t, name)[v.pc];
        OwnStep(t, name, v.pc);
        OpsOwn(t, name, v.pc);
        ExecSeparates(Own(t, name, v.pc).value, v.fs, op);
        ExecOwnsAll(Own(t, name, v.pc).value, v.fs, op, name);
      }
    }
  }

  lemma {:induction false} ExecOwnsAll(own: Files, fs: Files, op: Op, name: string)
    requires Within(own, fs) && Exec(fs, op).Some? && Exec(own, op).Some? && OnlyOwn(own, fs, name)
    ensures OnlyOwn(Exec(own, op).value, Exec(fs, op).value, name)
  {
    forall p | [name] <= p && p in Exec(fs, op).value ensures p in Exec(own, op).value {
      assert p in fs ==> p in own;
    }
  }

  function SourceTree(t: seq<Entry>): Files {
    map[[] := Folder] + Copied(t, [])
  }

  lemma {:induction false} Rooted(t: seq<Entry>, name: string, q: Path)
    ensures [name] + q in Copied(t, [name]) <==> q in Copied(t, [])
    ensures q in Copied(t, []) ==> Copied(t, [name])[[name] + q] == Copied(t, [])[q]
  {
    assert [name] + [] == [name];
    Rebase(t, [name], [], q);
  }

  lemma {:induction false} PublishedNode(t: seq<Entry>, name: string, fs: Files, q: Path)
    requires Within(Published(t, name), fs) && OnlyOwn(Published(t, name), fs, name)
    requires [".git"] in Copied(t, []) && q != []
    ensures [name] + q in fs <==> q in Copied(t, [])
    ensures q in Copied(t, []) ==> fs[[name] + q] == Copied(t, [])[q] || Copied(t, [])[[".git"]] != Folder
  {
    var p := [name] + q;
    Rooted(t, name, q);
    assert p[1..] == q && GitDir(name)[1..] == [".git"];
    assert p != [name] && [name] <= p;
  }

  /** The published tree, seen from its own root, is the source. */
  lemma {:induction false} PublishedIsSource(t: seq<Entry>, name: string, fs: Files)
    requires Within(Published(t, name), fs) && OnlyOwn(Published(t, name), fs, name)
    requires [".git"] in Copied(t, [])
    ensures TreeAt(fs, [name]) == SourceTree(t) || Copied(t, [])[[".git"]] != Folder
  {
    var a, b := TreeAt(fs, [name]), SourceTree(t);
    RootNotCopied(t);
    forall q ensures q in a <==> q in b
             ensures q in a && q in b ==> a[q] == b[q] || Copied(t, [])[[".git"]] != Folder {
      if q == [] {
        assert [name] + q == [name];
        Rooted(t, name, []);
      } else {
        PublishedNode(t, name, fs, q);
      }
    }
  }

  lemma {:induction false} RootNotCopied(t: seq<Entry>)
    ensures [] !in Copied(t, [])
  {
    if [] in Copied(t, []) {
      CopiedUnder(t, [], []);
    }
  }

  /** What copying checks of its source before it starts. */
  predicate Suitable(t: seq<Entry>, x: Foreign, url: string) {
    Listed(t) && Verified(SourceTree(t), x) && OriginIs(SourceTree(t), x, url)
  }

  /** When nobody else writes there, the reader's answer at any crash point is decided by how far
      the run got: absent, then refused, then accepted with exactly the source's tree. */
  lemma {:induction false} OutcomeByPosition(t: seq<Entry>, name: string, h: seq<World>, i: nat, x: Foreign, url: string)
    requires Suitable(t, x, url) && History(t, name, h) && Quiet(t, name, h) && i < |h|
    ensures Retain(h[i].fs, name, x, url) ==
      if h[i].pc == 0 then Absent else if h[i].pc < |Program(t, name)| then Refused else Accepted
    ensures h[i].pc == |Program(t, name)| ==> TreeAt(h[i].fs, [name]) == SourceTree(t)
  {
    var w := h[i];
    QuietOwnsAll(t, name, h, i);
    OwnStart(t, name);
    if w.pc == |Program(t, name)| {
      OwnEnd(t, name);
      assert [".git"] in SourceTree(t);
      PublishedIsSource(t, name, w.fs);
      OwnLacksMarker(t, name);
      assert [name] in Published(t, name);
    } else if w.pc > 0 {
      NotAccepted(t, name, h, i, x, url);
      StillNamed(t, name, w.pc);
    }
  }

  lemma {:induction false} OwnLacksMarker(t: seq<Entry>, name: string)
    requires Publishable(t, name)
    ensures Marker(name) !in Published(t, name) && [name] <= Marker(name)
  {
    assert Marker(name) in Reserved3(name);
  }

  lemma {:induction false} NotAccepted(t: seq<Entry>, name: string, h: seq<World>, i: nat, x: Foreign, url: string)
    requires Listed(t) && History(t, name, h) && i < |h| && h[i].pc != |Program(t, name)|
    ensures Retain(h[i].fs, name, x, url) != Accepted
  {
    if Retain(h[i].fs, name, x, url) == Accepted {
      PartialNeverAccepted(t, name, h, i, x, url);
    }
  }

  lemma {:induction false} StillNamed(t: seq<Entry>, name: string, k: nat)
    requires 1 <= k < |Program(t, name)| && Own(t, name, k).Some?
    ensures [name] in Own(t, name, k).value
  {
    OwnStart(t, name);
    if k > 1 {
      OwnStep(t, name, k - 1);
      StillNamed(t, name, k - 1);
      OnlyLastRemoves(t, name, k - 1);
    }
  }

  /** A suitable source is published to the end exactly when it does not carry the marker itself;
      otherwise the run stops at the occupied marker path and the name stays refused. */
  lemma {:induction false} CompletesIffUnmarked(t: seq<Entry>, name: string, x: Foreign, url: string)
    requires Suitable(t, x, url)
    ensures Own(t, name, |Program(t, name)|).Some? <==> [".git", PENDING] !in Copied(t, [])
  {
    OwnEnd(t, name);
    SuitableSource(t, x, url);
    VacantUnlessMarked(t, name);
  }

  lemma {:induction false} SuitableSource(t: seq<Entry>, x: Foreign, url: string)
    requires Suitable(t, x, url)
    ensures Plain(t) && [".git"] in Copied(t, []) && Copied(t, [])[[".git"]] == Folder
  {
    RootNotCopied(t);
    forall p | p in Copied(t, []) ensures Copied(t, [])[p] != Special {
      assert p in SourceTree(t) && SourceTree(t)[p] == Copied(t, [])[p];
    }
    PlainUnlessSpecial(t, []);
    assert [".git"] in SourceTree(t);
  }

  lemma {:induction false} VacantUnlessMarked(t: seq<Entry>, name: string)
    requires [".git"] in Copied(t, []) && Copied(t, [])[[".git"]] == Folder
    ensures Vacant(Reserved3(name), Copied(t, [name]), [name], true) <==> [".git", PENDING] !in Copied(t, [])
  {
    RootNotCopied(t);
    Rooted(t, name, []);
    Rooted(t, name, [".git"]);
    Rooted(t, name, [".git", PENDING]);
    assert [name] + [] == [name] && [name] + [".git"] == GitDir(name) && [name] + [".git", PENDING] == Marker(name);
    if [".git", PENDING] in Copied(t, []) {
      assert Marker(name) in Reserved3(name) && Marker(name) != GitDir(name);
    }
  }

  /** Preparing the stage, and the rename that publishes it where the file system can. */
  function StageOps(t: seq<Entry>, stage: string): seq<Op> {
    [Mkdir([stage])] + CopyOps(t, [stage], false)
  }

  lemma {:induction false} OwnBelowName(t: seq<Entry>, name: string, k: nat, p: Path)
    requires k <= |Program(t, name)| && Own(t, name, k).Some? && p in Own(t, name, k).value
    ensures [name] <= p
  {
    CopyOpsShape(t, [name], true);
    assert AllUnder(Program(t, name)[..k], [name]);
    if !([name] <= p) {
      RunFrame(map[], Program(t, name)[..k], [name], p);
    }
  }

  /** Preparing the stage before publication and removing it afterwards, as far as either gets, are
      among the things a run tolerates. */
  lemma {:induction false} StageWorkTolerated(t: seq<Entry>, s: seq<Entry>, stage: string, name: string, k: nat, n: nat, fs: Files, removing: bool)
    requires stage != name && k <= |Program(t, name)| && Own(t, name, k).Some?
    requires var ops := if removing then RemoveOps(s, [stage]) + [Remove([stage])] else StageOps(s, stage);
      n <= |ops| && RunAll(fs, ops[..n]).Some?
    ensures var ops := if removing then RemoveOps(s, [stage]) + [Remove([stage])] else StageOps(s, stage);
      Others(Own(t, name, k).value, name, fs, RunAll(fs, ops[..n]).value)
  {
    var ops := if removing then RemoveOps(s, [stage]) + [Remove([stage])] else StageOps(s, stage);
    RemoveOpsUnder(s, [stage]);
    CopyOpsShape(s, [stage], false);
    assert AllUnder(ops[..n], [stage]);
    var gs := RunAll(fs, ops[..n]).value;
    forall p | p in Own(t, name, k).value || GitDir(name) <= p
      ensures (p in gs <==> p in fs) && (p in fs && p in gs ==> gs[p] == fs[p])
    {
      if p in Own(t, name, k).value {
        OwnBelowName(t, name, k, p);
      }
      assert p[0] == name;
      RunFrame(fs, ops[..n], [stage], p);
    }
  }

  /** Atomic, and refused when the name is taken. */
  function RenameNoReplace(fs: Files, stage: string, name: string): Option<Files> {
    if [name] in fs then None
    else Some((map p | p in fs && !([stage] <= p) :: fs[p]) + Moved(fs, stage, name))
  }

  function Moved(fs: Files, stage: string, name: string): Files {
    map p | p in (set q | q in Below(fs, [stage]) :: [name] + q) :: TreeAt(fs, [stage])[p[1..]]
  }

  lemma {:induction false} MovedMeaning(fs: Files, stage: string, name: string)
    ensures forall q :: [name] + q in Moved(fs, stage, name) <==> [stage] + q in fs
    ensures forall q :: [stage] + q in fs ==> Moved(fs, stage, name)[[name] + q] == fs[[stage] + q]
    ensures forall p :: p in Moved(fs, stage, name) ==> [name] <= p
  {
    BelowMeaning(fs, [stage]);
    forall q ensures ([name] + q)[1..] == q {
    }
    forall q | [name] + q in Moved(fs, stage, name) ensures [stage] + q in fs {
      var r :| r in Below(fs, [stage]) && [name] + r == [name] + q;
      assert ([name] + r)[1..] == ([name] + q)[1..];
    }
  }

  /** Publishing by rename: until the rename the name is absent, whatever prefix of the preparation
      has run; after it the name holds exactly the staged tree, and nothing else has changed. */
  lemma {:induction false} RenamePublishes(fs: Files, t: seq<Entry>, stage: string, name: string, k: nat, x: Foreign, url: string)
    requires stage != name && Unoccupied(fs, name) && k <= |StageOps(t, stage)| && RunAll(fs, StageOps(t, stage)[..k]).Some?
    ensures var g := RunAll(fs, StageOps(t, stage)[..k]).value;
      && Retain(g, name, x, url) == Absent
      && RenameNoReplace(g, stage, name).Some?
      && TreeAt(RenameNoReplace(g, stage, name).value, [name]) == TreeAt(g, [stage])
      && (forall p :: p in fs && !([stage] <= p) ==> p in RenameNoReplace(g, stage, name).value && RenameNoReplace(g, stage, name).value[p] == fs[p])
  {
    var ops := StageOps(t, stage);
    CopyOpsShape(t, [stage], false);
    assert AllUnder(ops[..k], [stage]);
    var g := RunAll(fs, ops[..k]).value;
    forall p | !([stage] <= p) ensures (p in g <==> p in fs) && (p in fs ==> g[p] == fs[p]) {
      RunFrame(fs, ops[..k], [stage], p);
    }
    forall p | p in g ensures !([name] <= p) {
      assert [stage] <= p ==> p[0] == stage;
    }
    RenameMoves(g, stage, name);
  }

  lemma {:induction false} RenameMoves(g: Files, stage: string, name: string)
    requires stage != name && forall p :: p in g ==> !([name] <= p)
    ensures RenameNoReplace(g, stage, name).Some?
    ensures TreeAt(RenameNoReplace(g, stage, name).value, [name]) == TreeAt(g, [stage])
    ensures forall p :: p in g && !([stage] <= p) ==> p in RenameNoReplace(g, stage, name).value && RenameNoReplace(g, stage, name).value[p] == g[p]
  {
    MovedMeaning(g, stage, name);
    var r := RenameNoReplace(g, stage, name).value;
    MovedIntoPlace(g, stage, name);
    assert TreeAt(r, [name]) == TreeAt(g, [stage]);
  }

  lemma {:induction false} MovedIntoPlace(g: Files, stage: string, name: string)
    requires stage != name && (forall p :: p in g ==> !([name] <= p)) && [name] !in g
    ensures var r := RenameNoReplace(g, stage, name).value;
      forall q :: ([name] + q in r <==> [stage] + q in g) && ([stage] + q in g ==> r[[name] + q] == g[[stage] + q])
  {
    MovedMeaning(g, stage, name);
    forall q ensures [name] + q !in g {
      assert [name] <= [name] + q;
    }
  }
}

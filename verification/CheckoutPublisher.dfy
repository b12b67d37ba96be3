/** The copying loops of src/internal/checkout/publish.go, over a workdir updated in place. Each is
    proved to perform the operations of its specification in order, and some prefix of them when it
    fails or is cancelled. */
module CheckoutPublisher {
  import opened Common
  import opened CheckoutFiles
  import opened CheckoutTree
  import opened CheckoutReader
  import opened Publication

  /** From fs to gs by the first n operations. */
  predicate Reached(fs: Files, ops: seq<Op>, n: nat, gs: Files) {
    n <= |ops| && RunAll(fs, ops[..n]) == Some(gs)
  }

  lemma {:induction false} ReachedMore(fs: Files, a: seq<Op>, mid: Files, b: seq<Op>, n: nat, gs: Files)
    requires RunAll(fs, a) == Some(mid) && Reached(mid, b, n, gs)
    ensures Reached(fs, a + b, |a| + n, gs)
  {
    assert (a + b)[..|a| + n] == a + b[..n];
    RunConcat(fs, a, b[..n]);
  }

  lemma {:induction false} ReachedLonger(fs: Files, a: seq<Op>, b: seq<Op>, n: nat, gs: Files)
    requires Reached(fs, a, n, gs)
    ensures Reached(fs, a + b, n, gs)
  {
    assert (a + b)[..n] == a[..n];
  }

  lemma {:induction false} ReachedPart(fs: Files, a: seq<Op>, mid: Files, b: seq<Op>, n: nat, gs: Files, c: seq<Op>)
    requires RunAll(fs, a) == Some(mid) && Reached(mid, b, n, gs)
    ensures Reached(fs, a + b + c, |a| + n, gs)
    ensures n == |b| ==> RunAll(fs, a + b) == Some(gs)
  {
    ReachedMore(fs, a, mid, b, n, gs);
    ReachedLonger(fs, a + b, c, |a| + n, gs);
    assert (a + b)[..|a + b|] == a + b;
  }

  lemma {:induction false} CopyOpsSplit(entries: seq<Entry>, i: nat, base: Path, reserved: bool)
    requires i <= |entries|
    ensures CopyOps(entries, base, reserved) == CopyOps(entries[..i], base, reserved) + CopyOps(entries[i..], base, reserved)
    decreases i
  {
    if i == 0 {
      assert entries[0..] == entries;
    } else {
      CopyOpsSplit(entries[1..], i - 1, base, reserved);
      assert entries[..i][0] == entries[0] && entries[..i][1..] == entries[1..][..i - 1];
      assert entries[1..][i - 1..] == entries[i..];
    }
  }

  /** One entry in the middle of a listing. */
  lemma {:induction false} CopyOpsAt(entries: seq<Entry>, i: nat, base: Path, reserved: bool)
    requires i < |entries|
    ensures CopyOps(entries[..i + 1], base, reserved) == CopyOps(entries[..i], base, reserved) + EntryOps(entries[i], base, reserved)
    ensures CopyOps(entries, base, reserved) == CopyOps(entries[..i + 1], base, reserved) + CopyOps(entries[i + 1..], base, reserved)
  {
    CopyOpsSplit(entries, i + 1, base, reserved);
    var s := entries[..i + 1];
    CopyOpsSplit(s, i, base, reserved);
    assert s[..i] == entries[..i] && s[i..] == [entries[i]];
    var one := [entries[i]];
    assert one[1..] == [];
    assert CopyOps(one, base, reserved) == EntryOps(entries[i], base, reserved) + CopyOps([], base, reserved);
  }

  lemma {:induction false} StoppedBefore(fs: Files, entries: seq<Entry>, i: nat, base: Path, reserved: bool, gs: Files)
    requires i <= |entries| && RunAll(fs, CopyOps(entries[..i], base, reserved)) == Some(gs)
    ensures Reached(fs, CopyOps(entries, base, reserved), |CopyOps(entries[..i], base, reserved)|, gs)
  {
    CopyOpsSplit(entries, i, base, reserved);
    var a := CopyOps(entries[..i], base, reserved);
    assert CopyOps(entries, base, reserved)[..|a|] == a;
  }

  lemma {:induction false} EntryReached(fs: Files, entries: seq<Entry>, i: nat, base: Path, reserved: bool, mid: Files, n: nat, gs: Files)
    requires i < |entries| && RunAll(fs, CopyOps(entries[..i], base, reserved)) == Some(mid)
    requires Reached(mid, EntryOps(entries[i], base, reserved), n, gs)
    ensures Reached(fs, CopyOps(entries, base, reserved), |CopyOps(entries[..i], base, reserved)| + n, gs)
    ensures n == |EntryOps(entries[i], base, reserved)| ==> RunAll(fs, CopyOps(entries[..i + 1], base, reserved)) == Some(gs)
  {
    var a, b := CopyOps(entries[..i], base, reserved), EntryOps(entries[i], base, reserved);
    CopyOpsAt(entries, i, base, reserved);
    ReachedPart(fs, a, mid, b, n, gs, CopyOps(entries[i + 1..], base, reserved));
  }

  lemma {:induction false} ReachedOne(fs: Files, a: seq<Op>, mid: Files, op: Op, gs: Files)
    requires RunAll(fs, a) == Some(mid) && Exec(mid, op) == Some(gs)
    ensures Reached(fs, a + [op], |a| + 1, gs)
  {
    RunOne(mid, op);
    RunConcat(fs, a, [op]);
    assert (a + [op])[..|a| + 1] == a + [op];
  }

  lemma {:induction false} RemoveOpsSplit(entries: seq<Entry>, i: nat, base: Path)
    requires i <= |entries|
    ensures RemoveOps(entries, base) == RemoveOps(entries[..i], base) + RemoveOps(entries[i..], base)
    decreases i
  {
    if i == 0 {
      assert entries[0..] == entries;
    } else {
      RemoveOpsSplit(entries[1..], i - 1, base);
      assert entries[..i][0] == entries[0] && entries[..i][1..] == entries[1..][..i - 1];
      assert entries[1..][i - 1..] == entries[i..];
    }
  }

  lemma {:induction false} RemoveOpsAt(entries: seq<Entry>, i: nat, base: Path)
    requires i < |entries|
    ensures RemoveOps(entries[..i + 1], base) == RemoveOps(entries[..i], base) + RemoveEntryOps(entries[i], base)
    ensures RemoveOps(entries, base) == RemoveOps(entries[..i + 1], base) + RemoveOps(entries[i + 1..], base)
  {
    RemoveOpsSplit(entries, i + 1, base);
    var s := entries[..i + 1];
    RemoveOpsSplit(s, i, base);
    assert s[..i] == entries[..i] && s[i..] == [entries[i]];
    var one := [entries[i]];
    assert one[1..] == [];
    assert RemoveOps(one, base) == RemoveEntryOps(entries[i], base) + RemoveOps([], base);
  }

  lemma {:induction false} RemovalStopped(fs: Files, entries: seq<Entry>, i: nat, base: Path, gs: Files)
    requires i <= |entries| && RunAll(fs, RemoveOps(entries[..i], base)) == Some(gs)
    ensures Reached(fs, RemoveOps(entries, base), |RemoveOps(entries[..i], base)|, gs)
  {
    RemoveOpsSplit(entries, i, base);
    var a := RemoveOps(entries[..i], base);
    assert RemoveOps(entries, base)[..|a|] == a;
  }

  lemma {:induction false} RemovalReached(fs: Files, entries: seq<Entry>, i: nat, base: Path, mid: Files, n: nat, gs: Files)
    requires i < |entries| && RunAll(fs, RemoveOps(entries[..i], base)) == Some(mid)
    requires Reached(mid, RemoveEntryOps(entries[i], base), n, gs)
    ensures Reached(fs, RemoveOps(entries, base), |RemoveOps(entries[..i], base)| + n, gs)
    ensures n == |RemoveEntryOps(entries[i], base)| ==> RunAll(fs, RemoveOps(entries[..i + 1], base)) == Some(gs)
  {
    var a, b := RemoveOps(entries[..i], base), RemoveEntryOps(entries[i], base);
    RemoveOpsAt(entries, i, base);
    ReachedPart(fs, a, mid, b, n, gs, RemoveOps(entries[i + 1..], base));
  }

  lemma {:induction false} WriteOpsAt(path: Path, chunks: seq<Bytes>, i: nat)
    requires i <= |chunks|
    ensures WriteOps(path, chunks[..i]) <= WriteOps(path, chunks)
    ensures i < |chunks| ==> WriteOps(path, chunks[..i + 1]) == WriteOps(path, chunks[..i]) + [Append(path, chunks[i])]
    decreases |chunks|
  {
    if i == |chunks| {
      assert chunks[..i] == chunks;
    } else {
      var n := |chunks| - 1;
      WriteOpsAt(path, chunks[..n], i);
      assert chunks[..n][..i] == chunks[..i];
      assert chunks[..i + 1][..i] == chunks[..i];
    }
  }

  /** Removing the marker was the last change, made to a tree that had been verified. */
  ghost predicate UnmarkedAfterVerification(fs: Files, name: string, x: Foreign) {
    exists before: Files :: Verified(TreeAt(before, [name]), x) && Exec(before, Remove(Marker(name))) == Some(fs)
  }

  class Workdir {
    var fs: Files

    constructor (fs: Files)
      ensures this.fs == fs
    {
      this.fs := fs;
    }

    /** One operation, which may also fail for reasons of its own. */
    method Perform(op: Op) returns (ok: bool)
      modifies this
      ensures ok ==> Exec(old(fs), op) == Some(fs)
      ensures !ok ==> fs == old(fs)
    {
      var r := Exec(fs, op);
      ok := *;
      ok := ok && r.Some?;
      if ok {
        fs := r.value;
      }
    }

    method CopyFile(path: Path, perm: nat, chunks: seq<Bytes>) returns (ok: bool, ghost done: nat)
      modifies this
      ensures Reached(old(fs), [Create(path, perm)] + WriteOps(path, chunks), done, fs)
      ensures ok ==> done == 1 + |WriteOps(path, chunks)|
    {
      ghost var ops := [Create(path, perm)] + WriteOps(path, chunks);
      ok := Perform(Create(path, perm));
      if !ok {
        assert ops[..0] == [];
        return false, 0;
      }
      RunOne(old(fs), Create(path, perm));
      ghost var sofar := [Create(path, perm)] + WriteOps(path, chunks[..0]);
      assert sofar == [Create(path, perm)];
      for i := 0 to |chunks|
        invariant sofar == [Create(path, perm)] + WriteOps(path, chunks[..i])
        invariant RunAll(old(fs), sofar) == Some(fs)
      {
        WriteOpsAt(path, chunks, i);
        ok := Perform(Append(path, chunks[i]));
        if !ok {
          assert ops[..|sofar|] == sofar;
          return false, |sofar|;
        }
        ghost var next := sofar + [Append(path, chunks[i])];
        assert next[..|sofar|] == sofar;
        sofar := next;
      }
      assert chunks[..|chunks|] == chunks;
      assert ops[..|ops|] == ops;
      return true, |ops|;
    }

    method CopyEntry(e: Entry, base: Path, reserved: bool) returns (ok: bool, ghost done: nat)
      modifies this
      ensures Reached(old(fs), EntryOps(e, base, reserved), done, fs)
      ensures ok ==> done == |EntryOps(e, base, reserved)|
      decreases e
    {
      var path := base + [e.name];
      ghost var ops := EntryOps(e, base, reserved);
      match e.tree
      case Dir(children) =>
        if reserved && e.name == ".git" {
          assert ops == CopyOps(children, path, false);
          ok, done := CopyCheckoutTree(children, path, false);
        } else {
          ok := Perform(Mkdir(path));
          if !ok {
            assert ops[..0] == [];
            return false, 0;
          }
          RunOne(old(fs), Mkdir(path));
          ghost var mid := fs;
          ok, done := CopyCheckoutTree(children, path, false);
          ReachedMore(old(fs), [Mkdir(path)], mid, CopyOps(children, path, false), done, fs);
          done := 1 + done;
        }
      case Regular(perm, chunks) =>
        ok, done := CopyFile(path, perm, chunks);
      case Symbolic(target) =>
        ok := Perform(Symlink(path, target));
        RunOne(old(fs), Symlink(path, target));
        assert ops[..0] == [] && ops[..1] == ops;
        done := if ok then 1 else 0;
      case Other =>
        assert ops[..0] == [];
        return false, 0;
    }

    /** The recursive loop over one directory's listing; cancellation may stop it before any entry. */
    method CopyCheckoutTree(entries: seq<Entry>, base: Path, reserved: bool) returns (ok: bool, ghost done: nat)
      modifies this
      ensures Reached(old(fs), CopyOps(entries, base, reserved), done, fs)
      ensures ok ==> done == |CopyOps(entries, base, reserved)|
      decreases entries
    {
      assert entries[..0] == [];
      for i := 0 to |entries|
        invariant RunAll(old(fs), CopyOps(entries[..i], base, reserved)) == Some(fs)
      {
        ghost var sofar, mid := |CopyOps(entries[..i], base, reserved)|, fs;
        var cancelled: bool := *;
        if cancelled {
          StoppedBefore(old(fs), entries, i, base, reserved, fs);
          return false, sofar;
        }
        ok, done := CopyEntry(entries[i], base, reserved);
        EntryReached(old(fs), entries, i, base, reserved, mid, done, fs);
        if !ok {
          return false, sofar + done;
        }
      }
      StoppedBefore(old(fs), entries, |entries|, base, reserved, fs);
      assert entries[..|entries|] == entries;
      return true, |CopyOps(entries, base, reserved)|;
    }

    method ReserveName(name: string) returns (ok: bool, ghost done: nat)
      modifies this
      ensures Reached(old(fs), Reserve(name), done, fs)
      ensures ok ==> done == 3
    {
      ghost var ops := Reserve(name);
      assert ops[..0] == [] && ops[..1] == [Mkdir([name])] && ops[..2] == [Mkdir([name]), Mkdir(GitDir(name))] && ops[..3] == ops;
      ok := Perform(Mkdir([name]));
      if !ok {
        return false, 0;
      }
      RunOne(old(fs), Mkdir([name]));
      ok := Perform(Mkdir(GitDir(name)));
      if !ok {
        return false, 1;
      }
      assert ops[..2][..1] == ops[..1];
      ok := Perform(Create(Marker(name), 0x180));
      if !ok {
        return false, 2;
      }
      assert ops[..3][..2] == ops[..2];
      return true, 3;
    }

    /** Reserving the name and copying into it. */
    method FillName(t: seq<Entry>, name: string) returns (ok: bool, ghost done: nat)
      modifies this
      ensures Reached(old(fs), Reserve(name) + CopyOps(t, [name], true), done, fs)
      ensures ok ==> done == |Reserve(name) + CopyOps(t, [name], true)|
    {
      ghost var copy := CopyOps(t, [name], true);
      ok, done := ReserveName(name);
      ReachedLonger(old(fs), Reserve(name), copy, done, fs);
      if !ok {
        return;
      }
      assert Reserve(name)[..3] == Reserve(name);
      ghost var mid := fs;
      ok, done := CopyCheckoutTree(t, [name], true);
      ReachedMore(old(fs), Reserve(name), mid, copy, done, fs);
      done := 3 + done;
    }

    /** copyCheckout: the marker goes only after the whole copy has been verified. The identities of the
        directory and the marker are checked before, and that of the directory once more afterwards. */
    method CopyCheckout(t: seq<Entry>, name: string, x: Foreign) returns (ok: bool, ghost done: nat)
      modifies this
      ensures Reached(old(fs), Program(t, name), done, fs)
      ensures ok ==> done == |Program(t, name)|
      ensures done == |Program(t, name)| ==> UnmarkedAfterVerification(fs, name, x)
    {
      ghost var fill, last := Reserve(name) + CopyOps(t, [name], true), [Remove(Marker(name))];
      ok, done := FillName(t, name);
      ReachedLonger(old(fs), fill, last, done, fs);
      if !ok || !Verified(TreeAt(fs, [name]), x) {
        ok := false;
        return;
      }
      var cancelled: bool, same: bool := *, *;
      if cancelled || !same {
        ok := false;
        return;
      }
      ghost var mid := fs;
      ok := Perform(Remove(Marker(name)));
      if ok {
        assert fill[..done] == fill;
        ReachedOne(old(fs), fill, mid, Remove(Marker(name)), fs);
        done := done + 1;
        ok := *;
      }
    }

    /** removeCheckoutTree: the stage goes children first, and removal stops at the first failure. */
    method RemoveCheckoutTree(entries: seq<Entry>, base: Path) returns (ok: bool, ghost done: nat)
      modifies this
      ensures Reached(old(fs), RemoveOps(entries, base), done, fs)
      ensures ok ==> done == |RemoveOps(entries, base)|
      decreases entries
    {
      assert entries[..0] == [];
      for i := 0 to |entries|
        invariant RunAll(old(fs), RemoveOps(entries[..i], base)) == Some(fs)
      {
        ghost var mid, sofar := fs, |RemoveOps(entries[..i], base)|;
        var cancelled: bool := *;
        if cancelled {
          RemovalStopped(old(fs), entries, i, base, fs);
          return false, sofar;
        }
        ok, done := RemoveEntry(entries[i], base);
        RemovalReached(old(fs), entries, i, base, mid, done, fs);
        if !ok {
          return false, sofar + done;
        }
      }
      RemovalStopped(old(fs), entries, |entries|, base, fs);
      assert entries[..|entries|] == entries;
      return true, |RemoveOps(entries, base)|;
    }

    method RemoveEntry(e: Entry, base: Path) returns (ok: bool, ghost done: nat)
      modifies this
      ensures Reached(old(fs), RemoveEntryOps(e, base), done, fs)
      ensures ok ==> done == |RemoveEntryOps(e, base)|
      decreases e
    {
      var path := base + [e.name];
      ghost var children := if e.tree.Dir? then RemoveOps(e.tree.entries, path) else [];
      ok, done := true, 0;
      assert children[..0] == [];
      if e.tree.Dir? {
        ok, done := RemoveCheckoutTree(e.tree.entries, path);
      }
      ReachedLonger(old(fs), children, [Remove(path)], done, fs);
      if ok {
        assert children[..|children|] == children;
        ghost var mid := fs;
        ok := Perform(Remove(path));
        if ok {
          ReachedOne(old(fs), children, mid, Remove(path), fs);
          done := |children| + 1;
        }
      }
    }
  }
}

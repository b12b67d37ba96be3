/** Canonical absolute paths, as text and as components. */
module ImagePaths {
  /** The components of a canonical absolute path; the empty sequence is the root. */
  type Path = seq<string>

  predicate Clean(p: Path) {
    forall i :: 0 <= i < |p| ==> p[i] != "" && p[i] != "." && p[i] != ".." && '/' !in p[i]
  }

  /** Clean, and without the characters that a mount or an installed path may not contain. */
  predicate Canonical(p: Path) {
    Clean(p) && forall i :: 0 <= i < |p| ==> '\0' !in p[i] && '\n' !in p[i] && '\r' !in p[i]
  }

  function Text(p: Path): string {
    if p == [] then "" else "/" + p[0] + Text(p[1..])
  }

  function Render(p: Path): string {
    if p == [] then "/" else Text(p)
  }

  /** withinImagePath, on the text of two paths. */
  predicate WithinText(parent: string, child: string) {
    parent == "/" || child == parent || parent + "/" <= child
  }

  lemma {:induction false} FirstComponentAgrees(a: Path, b: Path, t: string)
    requires Clean(a) && Clean(b) && a != [] && b != []
    requires Text(a) + t <= Text(b)
    requires t == "/" || (t == "" && Text(a) == Text(b))
    ensures a[0] == b[0]
  {
    var n, m := |a[0]|, |b[0]|;
    var x, y := Text(a) + t, Text(b);
    assert forall i :: 0 <= i < n ==> x[i + 1] == a[0][i];
    assert forall i :: 0 <= i < m ==> y[i + 1] == b[0][i];
    assert n + 1 < |x| ==> x[n + 1] == '/' by {
      assert a[1..] != [] ==> Text(a[1..])[0] == '/';
    }
    assert m + 1 < |y| ==> y[m + 1] == '/' by {
      assert b[1..] != [] ==> Text(b[1..])[0] == '/';
    }
    if n == m {
      assert forall i :: 0 <= i < n ==> a[0][i] == b[0][i];
    }
  }

  lemma {:induction false} TextWithinIsPrefix(a: Path, b: Path)
    requires Clean(a) && Clean(b)
    ensures (Text(b) == Text(a) || Text(a) + "/" <= Text(b)) <==> a <= b
  {
    if a == [] {
      assert b != [] ==> Text(b)[0] == '/';
    } else if b != [] {
      TextWithinIsPrefix(a[1..], b[1..]);
      if Text(b) == Text(a) || Text(a) + "/" <= Text(b) {
        if Text(b) == Text(a) {
          assert Text(a) + "" == Text(a);
          FirstComponentAgrees(a, b, "");
        } else {
          FirstComponentAgrees(a, b, "/");
        }
      }
      if a[0] == b[0] {
        CommonFirst(a[0], Text(a[1..]), Text(b[1..]));
        assert a <= b <==> a[1..] <= b[1..] by {
          assert a == [a[0]] + a[1..] && b == [b[0]] + b[1..];
        }
      } else {
        assert !(a <= b);
      }
    }
  }

  /** A common first component decides nothing. */
  lemma {:induction false} CommonFirst(first: string, x: string, y: string)
    ensures var s, t := "/" + first + x, "/" + first + y;
            (t == s <==> y == x) && (s + "/" <= t <==> x + "/" <= y)
  {
    var s, t, k := "/" + first + x, "/" + first + y, |first| + 1;
    assert s[k..] == x && t[k..] == y && (s + "/")[k..] == x + "/";
    assert s + "/" == ("/" + first) + (x + "/") && t == ("/" + first) + y;
  }

  /** The textual test is exactly the component-wise one, for every pair of canonical paths:
      "/opt" is not within "/op", and everything is within the root. */
  lemma {:induction false} WithinTextIsPrefix(parent: Path, child: Path)
    requires Clean(parent) && Clean(child)
    ensures WithinText(Render(parent), Render(child)) <==> parent <= child
  {
    TextWithinIsPrefix(parent, child);
    if parent != [] {
      assert Text(parent)[0] == '/' && |parent[0]| > 0 && |Text(parent)| > 1;
      if child == [] {
        assert |Render(child)| == 1;
      }
    }
  }
}

/** Resolution of image paths through symbolic links, with the trace of every name consulted,
    and the admission check of volume mounts: src/internal/runtimeimage/mounts.go. */
module ImageMounts {
  import opened Common
  import opened ImagePaths

  /** A link's target as strings.Split(target, "/") leaves it, empty pieces included. */
  datatype Node = Regular | Directory | Special | Link(absolute: bool, parts: seq<string>)

  /** Every name except the root, which is always a directory. */
  type FileSystem = map<Path, Node>

  datatype ImagePath = ImagePath(path: Path, directory: bool)

  /** missing is the first absent name when the walk was allowed to stop there. */
  datatype Resolution = Failed | Resolved(path: Path, trace: seq<ImagePath>, missing: Option<Path>)

  const MAX_LINKS := 255

  function Parent(p: Path): Path {
    if p == [] then [] else p[..|p| - 1]
  }

  /** filepath.Join of a directory and pieces, cleaned lexically. */
  function Join(p: Path, pieces: seq<string>): Path
    decreases |pieces|
  {
    if pieces == [] then p
    else if pieces[0] == "" || pieces[0] == "." then Join(p, pieces[1..])
    else if pieces[0] == ".." then Join(Parent(p), pieces[1..])
    else Join(p + [pieces[0]], pieces[1..])
  }

  /** traceImagePath's loop from any intermediate point. */
  function Walk(fs: FileSystem, directory: bool, allowMissing: bool,
                pending: seq<string>, resolved: Path, links: nat, trace: seq<ImagePath>): Resolution
    requires links <= MAX_LINKS
    decreases MAX_LINKS - links, |pending|
  {
    if pending == [] then Resolved(resolved, trace, None)
    else
      var part, rest := pending[0], pending[1..];
      if part == "" || part == "." then Walk(fs, directory, allowMissing, rest, resolved, links, trace)
      else if part == ".." then Walk(fs, directory, allowMissing, rest, Parent(resolved), links, trace)
      else
        var candidate := resolved + [part];
        if candidate !in fs then
          if allowMissing then Resolved(Join(candidate, rest), trace, Some(candidate)) else Failed
        else
          var traced := trace + [ImagePath(candidate, directory && rest == [])];
          match fs[candidate]
          case Link(absolute, parts) =>
            if links == MAX_LINKS then Failed
            else Walk(fs, directory, allowMissing, parts + rest, if absolute then [] else resolved, links + 1, traced)
          case _ =>
            if rest != [] && fs[candidate] != Directory then Failed
            else Walk(fs, directory, allowMissing, rest, candidate, links, traced)
  }

  function Trace(fs: FileSystem, p: ImagePath, allowMissing: bool): Resolution {
    if !Clean(p.path) then Failed else Walk(fs, p.directory, allowMissing, p.path, [], 0, [p])
  }

  function Kind(fs: FileSystem, p: Path): Option<Node> {
    if p == [] then Some(Directory) else if p in fs then Some(fs[p]) else None
  }

  /** resolveImagePath: the names consulted and the final one, or None for an error. */
  function Resolve(fs: FileSystem, p: ImagePath): Option<seq<ImagePath>> {
    match Trace(fs, p, false)
    case Failed => None
    case Resolved(path, trace, _) =>
      if Kind(fs, path) == Some(if p.directory then Directory else Regular)
      then Some(trace + [ImagePath(path, p.directory)]) else None
  }

  method TraceImagePath(fs: FileSystem, p: ImagePath, allowMissing: bool) returns (r: Resolution)
    ensures r == Trace(fs, p, allowMissing)
  {
    if !Clean(p.path) {
      return Failed;
    }
    var trace := [p];
    var pending := p.path;
    var resolved, links := [], 0;
    while pending != []
      invariant links <= MAX_LINKS
      invariant Walk(fs, p.directory, allowMissing, pending, resolved, links, trace) == Trace(fs, p, allowMissing)
      decreases MAX_LINKS - links, |pending|
    {
      var part := pending[0];
      pending := pending[1..];
      if part == "" || part == "." {
        continue;
      }
      if part == ".." {
        resolved := Parent(resolved);
        continue;
      }
      var candidate := resolved + [part];
      if candidate !in fs {
        if allowMissing {
          return Resolved(Join(candidate, pending), trace, Some(candidate));
        }
        return Failed;
      }
      trace := trace + [ImagePath(candidate, p.directory && pending == [])];
      if fs[candidate].Link? {
        if links == MAX_LINKS {
          return Failed;
        }
        links := links + 1;
        if fs[candidate].absolute {
          resolved := [];
        }
        pending := fs[candidate].parts + pending;
        continue;
      }
      if pending != [] && fs[candidate] != Directory {
        return Failed;
      }
      resolved := candidate;
    }
    r := Resolved(resolved, trace, None);
  }

  /** resolveImagePath: the object reached is looked up once more for its type, which by
      ResolvedIsFixed leads to the same object. */
  method ResolveImagePath(fs: FileSystem, p: ImagePath) returns (names: Option<seq<ImagePath>>)
    ensures names == Resolve(fs, p)
  {
    var t := TraceImagePath(fs, p, false);
    if t.Failed? {
      return None;
    }
    var kind := Kind(fs, t.path);
    if kind.None? || (p.directory && kind.value != Directory) || (!p.directory && kind.value != Regular) {
      return None;
    }
    names := Some(t.trace + [ImagePath(t.path, p.directory)]);
  }

  /** A mount that hides the name, or sits beneath an installed directory. */
  predicate Shadows(mount: Path, p: ImagePath) {
    mount <= p.path || (p.directory && p.path <= mount)
  }

  predicate Clear(mounts: seq<Path>, p: ImagePath) {
    forall i :: 0 <= i < |mounts| ==> Canonical(mounts[i]) && !Shadows(mounts[i], p)
  }

  const MUTABLE_ROOTS: seq<string> := ["home", "workspace", "tmp", "run", "var", "proc", "sys", "dev", "mnt", "media"]

  predicate Immutable(p: Path) {
    Canonical(p) && p != [] && p[0] !in MUTABLE_ROOTS
  }

  /** Whether some other mount strictly hides a name this target's resolution went through. */
  predicate Hidden(prefix: Path, trace: seq<ImagePath>) {
    exists k :: 0 <= k < |trace| && prefix < trace[k].path
  }

  predicate HiddenByOther(mounts: seq<Path>, resolved: seq<Path>, i: nat, trace: seq<ImagePath>)
    requires |mounts| == |resolved|
  {
    exists j :: 0 <= j < |mounts| && j != i && (Hidden(mounts[j], trace) || Hidden(resolved[j], trace))
  }

  function MountTrace(fs: FileSystem, mount: Path): Option<seq<ImagePath>> {
    match Trace(fs, ImagePath(mount, false), true)
    case Failed => None
    case Resolved(path, trace, _) => Some(trace + [ImagePath(path, false)])
  }

  function LastPath(trace: seq<ImagePath>): Path {
    if trace == [] then [] else trace[|trace| - 1].path
  }

  predicate MountsResolve(fs: FileSystem, mounts: seq<Path>, resolved: seq<Path>) {
    && |resolved| == |mounts|
    && (forall i :: 0 <= i < |mounts| ==>
          var t := MountTrace(fs, mounts[i]);
          Canonical(mounts[i]) && t.Some? && resolved[i] == LastPath(t.value) && !HiddenByOther(mounts, resolved, i, t.value))
  }

  method ResolveMounts(fs: FileSystem, mounts: seq<Path>) returns (r: Option<seq<Path>>)
    ensures r.Some? ==> MountsResolve(fs, mounts, r.value)
    ensures r.None? ==> forall resolved :: !MountsResolve(fs, mounts, resolved)
  {
    var resolved: seq<Path> := [];
    var traces: seq<seq<ImagePath>> := [];
    for i := 0 to |mounts|
      invariant |resolved| == |traces| == i && (forall k :: 0 <= k < i ==> Canonical(mounts[k]))
      invariant forall k :: 0 <= k < i ==> MountTrace(fs, mounts[k]) == Some(traces[k]) && resolved[k] == LastPath(traces[k])
    {
      if !Canonical(mounts[i]) {
        return None;
      }
      var t := TraceImagePath(fs, ImagePath(mounts[i], false), true);
      if t.Failed? {
        assert MountTrace(fs, mounts[i]).None?;
        return None;
      }
      resolved := resolved + [t.path];
      traces := traces + [t.trace + [ImagePath(t.path, false)]];
    }
    assert forall other | MountsResolve(fs, mounts, other) :: other == resolved;
    for i := 0 to |mounts|
      invariant forall k :: 0 <= k < i ==> !HiddenByOther(mounts, resolved, k, traces[k])
    {
      for j := 0 to |mounts|
        invariant forall m :: 0 <= m < j && m != i ==> !Hidden(mounts[m], traces[i]) && !Hidden(resolved[m], traces[i])
      {
        if i != j && (Hidden(mounts[j], traces[i]) || Hidden(resolved[j], traces[i])) {
          assert HiddenByOther(mounts, resolved, i, traces[i]);
          return None;
        }
      }
    }
    r := Some(resolved);
  }

  /** What CheckImageMounts accepts. */
  predicate Admitted(fs: FileSystem, installed: seq<ImagePath>, mounts: seq<Path>, resolved: seq<Path>) {
    && MountsResolve(fs, mounts, resolved)
    && (forall i :: 0 <= i < |installed| ==> PathAdmitted(fs, installed[i], mounts + resolved))
  }

  predicate PathAdmitted(fs: FileSystem, p: ImagePath, all: seq<Path>) {
    && Immutable(p.path)
    && Resolve(fs, p).Some?
    && (forall k :: 0 <= k < |Resolve(fs, p).value| ==>
          Immutable(Resolve(fs, p).value[k].path) && Clear(all, Resolve(fs, p).value[k]))
  }

  method CheckImageMounts(fs: FileSystem, installed: seq<ImagePath>, mounts: seq<Path>) returns (ok: bool, ghost resolved: seq<Path>)
    ensures ok ==> Admitted(fs, installed, mounts, resolved)
    ensures !ok ==> forall other :: !Admitted(fs, installed, mounts, other)
  {
    var r := ResolveMounts(fs, mounts);
    resolved := [];
    if r.None? {
      return false, resolved;
    }
    resolved := r.value;
    var all := mounts + r.value;
    assert forall other | MountsResolve(fs, mounts, other) :: other == r.value;
    for i := 0 to |installed|
      invariant forall k :: 0 <= k < i ==> PathAdmitted(fs, installed[k], all)
    {
      var found := ResolveImagePath(fs, installed[i]);
      if !Immutable(installed[i].path) || found.None? {
        assert !PathAdmitted(fs, installed[i], all);
        return false, resolved;
      }
      var trace := found.value;
      for k := 0 to |trace|
        invariant forall m :: 0 <= m < k ==> Immutable(trace[m].path) && Clear(all, trace[m])
      {
        if !Immutable(trace[k].path) || !Clear(all, trace[k]) {
          assert !PathAdmitted(fs, installed[i], all);
          return false, resolved;
        }
      }
    }
    ok := true;
  }

  /** The two views of a file system that differ only where a mount is. */
  predicate Hides(mounts: seq<Path>, p: Path) {
    exists i :: 0 <= i < |mounts| && mounts[i] <= p
  }

  predicate SameAt(a: FileSystem, b: FileSystem, p: Path) {
    (p in a <==> p in b) && (p in a ==> a[p] == b[p])
  }

  ghost predicate AgreeOutside(a: FileSystem, b: FileSystem, mounts: seq<Path>) {
    forall p: Path :: !Hides(mounts, p) ==> SameAt(a, b, p)
  }

  /** Link targets as splitting at '/' leaves them. */
  predicate TargetsSplit(fs: FileSystem) {
    forall p :: p in fs && fs[p].Link? ==> Pieces(fs[p].parts)
  }

  predicate Pieces(parts: seq<string>) {
    forall i :: 0 <= i < |parts| ==> '/' !in parts[i]
  }

  /** A path that exists and goes through directories only. */
  predicate Real(fs: FileSystem, p: Path) {
    forall n :: 0 < n <= |p| ==> p[..n] in fs && !fs[p[..n]].Link? && (n < |p| ==> fs[p[..n]] == Directory)
  }

  predicate RealDirectory(fs: FileSystem, p: Path) {
    Real(fs, p) && Kind(fs, p) == Some(Directory)
  }

  lemma {:induction false} RealParent(fs: FileSystem, p: Path)
    requires RealDirectory(fs, p) && Clean(p)
    ensures RealDirectory(fs, Parent(p)) && Clean(Parent(p))
  {
    forall n | 0 < n <= |Parent(p)| ensures Parent(p)[..n] == p[..n] {
    }
    if Parent(p) != [] {
      assert p[..|p| - 1] in fs;
    }
  }

  lemma {:induction false} RealChild(fs: FileSystem, p: Path, part: string)
    requires RealDirectory(fs, p) && Clean(p) && part != "" && part != "." && part != ".." && '/' !in part
    requires p + [part] in fs && !fs[p + [part]].Link?
    ensures Real(fs, p + [part]) && Clean(p + [part])
  {
    var c := p + [part];
    forall n | 0 < n <= |c| ensures c[..n] in fs && !fs[c[..n]].Link? && (n < |c| ==> fs[c[..n]] == Directory) {
      if n <= |p| {
        assert c[..n] == p[..n];
        assert n == |p| ==> p[..n] == p;
      } else {
        assert c[..n] == c;
      }
    }
  }

  lemma {:induction false} WalkEndsReal(fs: FileSystem, directory: bool, pending: seq<string>, resolved: Path, links: nat, trace: seq<ImagePath>)
    requires links <= MAX_LINKS && TargetsSplit(fs) && Pieces(pending)
    requires Clean(resolved) && Real(fs, resolved) && (pending != [] ==> RealDirectory(fs, resolved))
    ensures var r := Walk(fs, directory, false, pending, resolved, links, trace); r.Resolved? ==> Real(fs, r.path) && Clean(r.path)
    decreases MAX_LINKS - links, |pending|
  {
    if pending != [] && Walk(fs, directory, false, pending, resolved, links, trace).Resolved? {
      var part, rest := pending[0], pending[1..];
      var candidate := resolved + [part];
      if part == "" || part == "." {
        WalkEndsReal(fs, directory, rest, resolved, links, trace);
      } else if part == ".." {
        RealParent(fs, resolved);
        WalkEndsReal(fs, directory, rest, Parent(resolved), links, trace);
      } else if fs[candidate].Link? {
        WalkEndsReal(fs, directory, fs[candidate].parts + rest, if fs[candidate].absolute then [] else resolved, links + 1,
          trace + [ImagePath(candidate, directory && rest == [])]);
      } else {
        RealChild(fs, resolved, part);
        WalkEndsReal(fs, directory, rest, candidate, links, trace + [ImagePath(candidate, directory && rest == [])]);
      }
    }
  }

  /** Walking down a real path follows no link and ends there. */
  lemma {:induction false} WalkReal(fs: FileSystem, directory: bool, p: Path, n: nat, trace: seq<ImagePath>)
    requires Real(fs, p) && Clean(p) && n <= |p|
    ensures Walk(fs, directory, false, p[n..], p[..n], 0, trace).Resolved?
    ensures Walk(fs, directory, false, p[n..], p[..n], 0, trace).path == p
    decreases |p| - n
  {
    if n < |p| {
      assert p[..n] + [p[n]] == p[..n + 1];
      assert p[n..][1..] == p[n + 1..];
      WalkReal(fs, directory, p, n + 1, trace + [ImagePath(p[..n + 1], directory && p[n + 1..] == [])]);
    }
  }

  /** What a path resolves to goes through no link, so it resolves to itself, and looking it up again
      for its type reaches the same object. */
  lemma {:induction false} ResolvedIsFixed(fs: FileSystem, p: ImagePath)
    requires TargetsSplit(fs) && Trace(fs, p, false).Resolved?
    ensures var q := Trace(fs, p, false).path;
      && Real(fs, q) && Clean(q)
      && Trace(fs, ImagePath(q, p.directory), false).Resolved?
      && Trace(fs, ImagePath(q, p.directory), false).path == q
  {
    var q := Trace(fs, p, false).path;
    WalkEndsReal(fs, p.directory, p.path, [], 0, [p]);
    assert q[0..] == q && q[..0] == [];
    WalkReal(fs, p.directory, q, 0, [ImagePath(q, p.directory)]);
  }

  /** A walk's trace only grows. */
  lemma {:induction false} TraceGrows(fs: FileSystem, directory: bool, allowMissing: bool,
                                      pending: seq<string>, resolved: Path, links: nat, trace: seq<ImagePath>)
    requires links <= MAX_LINKS
    ensures var r := Walk(fs, directory, allowMissing, pending, resolved, links, trace);
            r.Resolved? ==> trace <= r.trace
    decreases MAX_LINKS - links, |pending|
  {
    if pending != [] {
      var part, rest := pending[0], pending[1..];
      var candidate := resolved + [part];
      if part == "" || part == "." {
        TraceGrows(fs, directory, allowMissing, rest, resolved, links, trace);
      } else if part == ".." {
        TraceGrows(fs, directory, allowMissing, rest, Parent(resolved), links, trace);
      } else if candidate in fs {
        var traced := trace + [ImagePath(candidate, directory && rest == [])];
        if fs[candidate].Link? {
          if links < MAX_LINKS {
            TraceGrows(fs, directory, allowMissing, fs[candidate].parts + rest, if fs[candidate].absolute then [] else resolved, links + 1, traced);
          }
        } else if rest == [] || fs[candidate] == Directory {
          TraceGrows(fs, directory, allowMissing, rest, candidate, links, traced);
        }
      }
    }
  }

  /** Every name the walk asked for, present or not, is the same in both views. */
  predicate SameNames(a: FileSystem, b: FileSystem, r: Resolution)
    requires r.Resolved?
  {
    && (forall k :: 0 <= k < |r.trace| ==> SameAt(a, b, r.trace[k].path))
    && (r.missing.Some? ==> SameAt(a, b, r.missing.value))
  }

  /** A walk depends on nothing but the names it recorded. */
  lemma {:induction false} WalkAgrees(a: FileSystem, b: FileSystem, directory: bool, allowMissing: bool,
                                      pending: seq<string>, resolved: Path, links: nat, trace: seq<ImagePath>)
    requires links <= MAX_LINKS
    requires Walk(a, directory, allowMissing, pending, resolved, links, trace).Resolved?
    requires SameNames(a, b, Walk(a, directory, allowMissing, pending, resolved, links, trace))
    ensures Walk(b, directory, allowMissing, pending, resolved, links, trace)
         == Walk(a, directory, allowMissing, pending, resolved, links, trace)
    decreases MAX_LINKS - links, |pending|
  {
    if pending != [] {
      var part, rest := pending[0], pending[1..];
      var candidate := resolved + [part];
      if part == "" || part == "." {
        WalkAgrees(a, b, directory, allowMissing, rest, resolved, links, trace);
      } else if part == ".." {
        WalkAgrees(a, b, directory, allowMissing, rest, Parent(resolved), links, trace);
      } else if candidate in a {
        var traced := trace + [ImagePath(candidate, directory && rest == [])];
        var r := Walk(a, directory, allowMissing, pending, resolved, links, trace);
        var next := if a[candidate].Link? then a[candidate].parts + rest else rest;
        var base := if !a[candidate].Link? then candidate else if a[candidate].absolute then [] else resolved;
        var links' := if a[candidate].Link? then links + 1 else links;
        TraceGrows(a, directory, allowMissing, next, base, links', traced);
        assert traced <= r.trace && r.trace[|trace|].path == candidate;
        assert SameAt(a, b, candidate);
        WalkAgrees(a, b, directory, allowMissing, next, base, links', traced);
      }
    }
  }

  lemma {:induction false} NothingMissing(fs: FileSystem, directory: bool, pending: seq<string>, resolved: Path, links: nat, trace: seq<ImagePath>)
    requires links <= MAX_LINKS
    ensures var r := Walk(fs, directory, false, pending, resolved, links, trace); r.Resolved? ==> r.missing.None?
    decreases MAX_LINKS - links, |pending|
  {
    if pending != [] {
      var part, rest := pending[0], pending[1..];
      var candidate := resolved + [part];
      if part == "" || part == "." {
        NothingMissing(fs, directory, rest, resolved, links, trace);
      } else if part == ".." {
        NothingMissing(fs, directory, rest, Parent(resolved), links, trace);
      } else if candidate in fs {
        var traced := trace + [ImagePath(candidate, directory && rest == [])];
        if fs[candidate].Link? {
          if links < MAX_LINKS {
            NothingMissing(fs, directory, fs[candidate].parts + rest, if fs[candidate].absolute then [] else resolved, links + 1, traced);
          }
        } else if rest == [] || fs[candidate] == Directory {
          NothingMissing(fs, directory, rest, candidate, links, traced);
        }
      }
    }
  }

  lemma {:induction false} PrefixesComparable(x: Path, y: Path, q: Path)
    ensures x <= q && y <= q ==> x <= y || y <= x
  {
    if x <= q && y <= q {
      assert x == q[..|x|] && y == q[..|y|];
    }
  }

  /** Admission is non-interference. In any view that agrees with the admitted one outside the
      declared and resolved mounts, an installed path resolves through the same names to the same
      object; everything beneath an installed directory is the same too. */
  lemma {:induction false} AdmissionIsNonInterference(a: FileSystem, b: FileSystem, installed: seq<ImagePath>, mounts: seq<Path>, resolved: seq<Path>, i: nat)
    requires Admitted(a, installed, mounts, resolved) && i < |installed|
    requires AgreeOutside(a, b, mounts + resolved)
    ensures Resolve(b, installed[i]) == Resolve(a, installed[i])
    ensures var target := LastPath(Resolve(a, installed[i]).value);
            && SameAt(a, b, target)
            && (installed[i].directory ==> forall q: Path :: target <= q ==> SameAt(a, b, q))
  {
    var p, all := installed[i], mounts + resolved;
    assert PathAdmitted(a, p, all);
    var names := Resolve(a, p).value;
    var t := Trace(a, p, false);
    NothingMissing(a, p.directory, p.path, [], 0, [p]);
    forall k | 0 <= k < |names| ensures SameAt(a, b, names[k].path) {
      assert Clear(all, names[k]);
      assert !Hides(all, names[k].path);
    }
    assert forall k :: 0 <= k < |t.trace| ==> t.trace[k] == names[k];
    WalkAgrees(a, b, p.directory, false, p.path, [], 0, [p]);
    var target := names[|names| - 1];
    assert Clear(all, target);
    if p.directory {
      forall q: Path | target.path <= q ensures SameAt(a, b, q) {
        forall m | 0 <= m < |all| ensures !(all[m] <= q) {
          assert !Shadows(all[m], target);
          PrefixesComparable(all[m], target.path, q);
        }
        assert !Hides(all, q);
      }
    }
  }

  /** Each name in the trace matters: without it, resolution fails. The declared path heads the
      trace whether or not it is itself consulted. */
  lemma {:induction false} ConsultedNameMatters(a: FileSystem, directory: bool, pending: seq<string>, resolved: Path,
                                                links: nat, trace: seq<ImagePath>, gone: Path)
    requires links <= MAX_LINKS
    requires var r := Walk(a, directory, false, pending, resolved, links, trace);
             r.Resolved? && exists k :: |trace| <= k < |r.trace| && r.trace[k].path == gone
    ensures Walk(a - {gone}, directory, false, pending, resolved, links, trace).Failed?
    decreases MAX_LINKS - links, |pending|
  {
    var b := a - {gone};
    var r := Walk(a, directory, false, pending, resolved, links, trace);
    var k :| |trace| <= k < |r.trace| && r.trace[k].path == gone;
    var part, rest := pending[0], pending[1..];
    var candidate := resolved + [part];
    if part == "" || part == "." {
      ConsultedNameMatters(a, directory, rest, resolved, links, trace, gone);
    } else if part == ".." {
      ConsultedNameMatters(a, directory, rest, Parent(resolved), links, trace, gone);
    } else if candidate != gone {
      var traced := trace + [ImagePath(candidate, directory && rest == [])];
      var next := if a[candidate].Link? then a[candidate].parts + rest else rest;
      var base := if !a[candidate].Link? then candidate else if a[candidate].absolute then [] else resolved;
      var links' := if a[candidate].Link? then links + 1 else links;
      TraceGrows(a, directory, false, next, base, links', traced);
      assert r.trace[|trace|].path == candidate;
      ConsultedNameMatters(a, directory, next, base, links', traced, gone);
      assert b[candidate] == a[candidate];
    }
  }

  /** A view in which the other mounts' contents are replaced, the mount points themselves kept. */
  ghost predicate AgreeOnMountPoints(a: FileSystem, b: FileSystem, mounts: seq<Path>, resolved: seq<Path>, i: nat)
    requires |mounts| == |resolved|
  {
    forall p: Path :: !StrictlyHides(mounts, resolved, i, p) ==> SameAt(a, b, p)
  }

  predicate StrictlyHides(mounts: seq<Path>, resolved: seq<Path>, i: nat, p: Path)
    requires |mounts| == |resolved|
  {
    exists j :: 0 <= j < |mounts| && j != i && (mounts[j] < p || resolved[j] < p)
  }

  /** A mount target is stable when no content of another mount can change how it resolves. */
  ghost predicate Stable(a: FileSystem, mounts: seq<Path>, resolved: seq<Path>, i: nat)
    requires |mounts| == |resolved| && i < |mounts|
  {
    forall b: FileSystem :: AgreeOnMountPoints(a, b, mounts, resolved, i) ==> MountTrace(b, mounts[i]) == MountTrace(a, mounts[i])
  }

  /** The first absent name of the target's own resolution lies inside another mount. The trace
      does not record that name, and a ".." after it can lead the target back out. */
  predicate MissingHidden(a: FileSystem, mounts: seq<Path>, resolved: seq<Path>, i: nat)
    requires |mounts| == |resolved| && i < |mounts|
  {
    var t := Trace(a, ImagePath(mounts[i], false), true);
    t.Resolved? && t.missing.Some? && StrictlyHides(mounts, resolved, i, t.missing.value)
  }

  /** Occupying the missing name ends the walk, unless nothing followed it. */
  lemma {:induction false} OccupyingMissing(a: FileSystem, pending: seq<string>, resolved: Path, links: nat, trace: seq<ImagePath>)
    requires links <= MAX_LINKS
    requires var r := Walk(a, false, true, pending, resolved, links, trace); r.Resolved? && r.missing.Some?
    ensures var r := Walk(a, false, true, pending, resolved, links, trace);
            && r.missing.value !in a
            && (r.path == r.missing.value || Walk(a[r.missing.value := Regular], false, true, pending, resolved, links, trace).Failed?)
    decreases MAX_LINKS - links, |pending|
  {
    var r := Walk(a, false, true, pending, resolved, links, trace);
    var part, rest := pending[0], pending[1..];
    var candidate := resolved + [part];
    if part == "" || part == "." {
      OccupyingMissing(a, rest, resolved, links, trace);
    } else if part == ".." {
      OccupyingMissing(a, rest, Parent(resolved), links, trace);
    } else if candidate in a {
      var traced := trace + [ImagePath(candidate, false && rest == [])];
      var next := if a[candidate].Link? then a[candidate].parts + rest else rest;
      var base := if !a[candidate].Link? then candidate else if a[candidate].absolute then [] else resolved;
      OccupyingMissing(a, next, base, if a[candidate].Link? then links + 1 else links, traced);
      assert candidate != r.missing.value;
    }
  }

  /** Accepted mount targets are stable exactly when no first missing name is hidden. */
  lemma {:induction false} MountTargetStableIff(a: FileSystem, mounts: seq<Path>, resolved: seq<Path>, i: nat)
    requires MountsResolve(a, mounts, resolved) && i < |mounts|
    ensures Stable(a, mounts, resolved, i) <==> !MissingHidden(a, mounts, resolved, i)
  {
    var p := ImagePath(mounts[i], false);
    var t := Trace(a, p, true);
    var names := MountTrace(a, mounts[i]).value;
    assert !HiddenByOther(mounts, resolved, i, names);
    forall k | 0 <= k < |names| ensures !StrictlyHides(mounts, resolved, i, names[k].path) {
      assert forall j :: 0 <= j < |mounts| && j != i ==> !Hidden(mounts[j], names) && !Hidden(resolved[j], names);
    }
    if MissingHidden(a, mounts, resolved, i) {
      var c := t.missing.value;
      var b := a[c := Regular];
      OccupyingMissing(a, mounts[i], [], 0, [p]);
      assert names[|names| - 1].path == t.path;
      assert AgreeOnMountPoints(a, b, mounts, resolved, i);
      assert MountTrace(b, mounts[i]).None?;
    } else {
      forall b: FileSystem | AgreeOnMountPoints(a, b, mounts, resolved, i)
        ensures MountTrace(b, mounts[i]) == MountTrace(a, mounts[i])
      {
        assert forall k :: 0 <= k < |t.trace| ==> t.trace[k] == names[k];
        assert SameNames(a, b, t);
        WalkAgrees(a, b, false, true, mounts[i], [], 0, [p]);
      }
    }
  }

  const ESCAPE: seq<string> := ["x", "..", "..", "y"]

  /** /a is a link to m/x/../../y, /m is a directory, and m/x is absent. */
  const ESCAPING: FileSystem := map[["a"] := Link(false, ["m"] + ESCAPE), ["m"] := Directory]

  lemma {:induction false} EscapeJoins()
    ensures Join(["m", "x"], ["..", "..", "y"]) == ["y"]
  {
    assert Parent(["m", "x"]) == ["m"] && Parent(["m"]) == [];
    assert Join([], ["y"]) == Join(["y"], []);
    assert ["..", "y"][1..] == ["y"] && ["..", "..", "y"][1..] == ["..", "y"];
    assert Join(["m"], ["..", "y"]) == Join([], ["y"]);
  }

  lemma {:induction false} EscapeStopsAtMissing(trace: seq<ImagePath>)
    ensures Walk(ESCAPING, false, true, ESCAPE, ["m"], 1, trace) == Resolved(["y"], trace, Some(["m", "x"]))
  {
    EscapeJoins();
    assert ["m"] + ["x"] == ["m", "x"] && ESCAPE[1..] == ["..", "..", "y"];
  }

  lemma {:induction false} EscapeResolves()
    ensures var p := ImagePath(["a"], false);
            Trace(ESCAPING, p, true) == Resolved(["y"], [p, p, ImagePath(["m"], false)], Some(["m", "x"]))
  {
    var p := ImagePath(["a"], false);
    var t := [p] + [p];
    assert [] + ["a"] == ["a"] && [] + ["m"] == ["m"];
    var pending := ["m"] + ESCAPE;
    assert pending[1..] == ESCAPE && pending + [] == pending && ["a"][1..] == [];
    assert Walk(ESCAPING, false, true, pending, [], 1, t) == Walk(ESCAPING, false, true, ESCAPE, ["m"], 1, t + [ImagePath(["m"], false)]);
    EscapeStopsAtMissing(t + [ImagePath(["m"], false)]);
    assert Trace(ESCAPING, p, true) == Walk(ESCAPING, false, true, pending, [], 1, t);
  }

  lemma {:induction false} DirectoryResolves()
    ensures var q := ImagePath(["m"], false); Trace(ESCAPING, q, true) == Resolved(["m"], [q, q], None)
  {
    assert [] + ["m"] == ["m"];
  }

  const ESCAPING_MOUNTS: seq<Path> := [["a"], ["m"]]
  const ESCAPING_TARGETS: seq<Path> := [["y"], ["m"]]

  lemma {:induction false} LinkNotHidden(trace: seq<ImagePath>)
    requires forall k :: 0 <= k < |trace| ==> trace[k].path in [["a"], ["m"], ["y"]]
    ensures !HiddenByOther(ESCAPING_MOUNTS, ESCAPING_TARGETS, 0, trace)
  {
    assert !Hidden(["m"], trace);
  }

  lemma {:induction false} DirectoryNotHidden(trace: seq<ImagePath>)
    requires forall k :: 0 <= k < |trace| ==> trace[k].path == ["m"]
    ensures !HiddenByOther(ESCAPING_MOUNTS, ESCAPING_TARGETS, 1, trace)
  {
    assert !Hidden(["a"], trace) && !Hidden(["y"], trace);
  }

  lemma {:induction false} EscapeAdmitted()
    ensures MountsResolve(ESCAPING, ESCAPING_MOUNTS, ESCAPING_TARGETS)
  {
    EscapeResolves();
    DirectoryResolves();
    LinkNotHidden(MountTrace(ESCAPING, ["a"]).value);
    DirectoryNotHidden(MountTrace(ESCAPING, ["m"]).value);
  }

  lemma {:induction false} EscapeMissingHidden()
    ensures MissingHidden(ESCAPING, ESCAPING_MOUNTS, ESCAPING_TARGETS, 0)
  {
    EscapeResolves();
    assert ESCAPING_TARGETS[1] == ["m"] && ["m"] < ["m", "x"];
  }

  /** The condition is not idle: with mounts at /a and /m this configuration is accepted, and the
      target of /a is at the mercy of what the mount at /m holds. */
  lemma {:induction false} AcceptedYetUnstable()
    ensures MountsResolve(ESCAPING, ESCAPING_MOUNTS, ESCAPING_TARGETS)
    ensures !Stable(ESCAPING, ESCAPING_MOUNTS, ESCAPING_TARGETS, 0)
  {
    EscapeAdmitted();
    EscapeMissingHidden();
    MountTargetStableIff(ESCAPING, ESCAPING_MOUNTS, ESCAPING_TARGETS, 0);
  }
}

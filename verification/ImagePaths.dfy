/** Paths inside an image: the strings the flattened tree is keyed by, and the components they stand for. */
module ImagePaths {
  import opened Common

  // ---------------------------------------------------------- components --

  /** `path`'s pieces between slashes. */
  function Pieces(path: string): (ps: seq<string>)
    ensures |ps| > 0
  {
    if path == "" then [""]
    else if path[0] == '/' then [""] + Pieces(path[1..])
    else
      var ps := Pieces(path[1..]);
      [[path[0]] + ps[0]] + ps[1..]
  }

  function Join(parts: seq<string>): string {
    if parts == [] then ""
    else if |parts| == 1 then parts[0]
    else parts[0] + "/" + Join(parts[1..])
  }

  /** A component that names something: not empty, not `.` or `..`, and without a slash. */
  predicate Plain(part: string) { part != "" && part != "." && part != ".." && '/' !in part }

  predicate Normal(parts: seq<string>) { forall i | 0 <= i < |parts| :: Plain(parts[i]) }

  predicate NoSlashes(parts: seq<string>) { forall i | 0 <= i < |parts| :: '/' !in parts[i] }

  /** Components as `Kept` leaves them, `..` among them. */
  predicate Clean(parts: seq<string>) {
    NoSlashes(parts) && forall i | 0 <= i < |parts| :: parts[i] != "" && parts[i] != "."
  }

  /** The pieces that count: the others are the root, `.` and doubled slashes. */
  function Kept(ps: seq<string>): seq<string> {
    if ps == [] then []
    else if ps[0] == "" || ps[0] == "." then Kept(ps[1..])
    else [ps[0]] + Kept(ps[1..])
  }

  predicate LeavesRoot(path: string) { ".." in Pieces(path) }

  /** `path` relative to the image root, or an error if it would leave the root. */
  method Normalise(path: string) returns (r: Option<string>)
    ensures r.None? <==> LeavesRoot(path)
    ensures r.Some? ==> r.value == Join(Kept(Pieces(path))) && Normal(Kept(Pieces(path)))
  {
    var ps := Pieces(path);
    PiecesPlain(path);
    var parts := [];
    for i := 0 to |ps|
      invariant ".." !in ps[..i] && parts == Kept(ps[..i]) && Normal(parts)
    {
      assert ps[..i + 1] == ps[..i] + [ps[i]];
      KeptAppend(ps[..i], ps[i]);
      if ps[i] == ".." {
        return None;
      }
      if ps[i] != "" && ps[i] != "." {
        parts := parts + [ps[i]];
      }
    }
    assert ps[..|ps|] == ps;
    return Some(Join(parts));
  }

  lemma {:induction false} PiecesPlain(path: string)
    ensures NoSlashes(Pieces(path))
  {
    if path != "" { PiecesPlain(path[1..]); }
  }

  lemma {:induction false} KeptAppend(ps: seq<string>, p: string)
    ensures Kept(ps + [p]) == if p == "" || p == "." then Kept(ps) else Kept(ps) + [p]
  {
    if ps != [] {
      KeptAppend(ps[1..], p);
      assert (ps + [p])[1..] == ps[1..] + [p];
    }
  }

  // ------------------------------------------------------ joining and back --

  lemma {:induction false} PiecesOfPlain(part: string)
    requires '/' !in part
    ensures Pieces(part) == [part]
  {
    if part != "" {
      PiecesOfPlain(part[1..]);
      assert part == [part[0]] + part[1..];
    }
  }

  lemma {:induction false} PiecesOfJoin2(part: string, rest: string)
    requires '/' !in part
    ensures Pieces(part + "/" + rest) == [part] + Pieces(rest)
  {
    if part == "" {
      assert part + "/" + rest == "/" + rest;
    } else {
      assert (part + "/" + rest)[1..] == part[1..] + "/" + rest;
      PiecesOfJoin2(part[1..], rest);
      assert part == [part[0]] + part[1..];
    }
  }

  /** Joining loses nothing. */
  lemma {:induction false} PiecesOfJoin(parts: seq<string>)
    requires parts != [] && NoSlashes(parts)
    ensures Pieces(Join(parts)) == parts
  {
    if |parts| == 1 {
      PiecesOfPlain(parts[0]);
    } else {
      PiecesOfJoin(parts[1..]);
      PiecesOfJoin2(parts[0], Join(parts[1..]));
    }
  }

  lemma {:induction false} KeptClean(parts: seq<string>)
    requires Clean(parts)
    ensures Kept(parts) == parts
  {
    if parts != [] { KeptClean(parts[1..]); }
  }

  lemma {:induction false} KeptIsClean(ps: seq<string>)
    requires NoSlashes(ps)
    ensures Clean(Kept(ps))
  {
    if ps != [] { KeptIsClean(ps[1..]); }
  }

  /** A normalised path stands for one sequence of components. */
  predicate IsPath(path: string) { Normal(Kept(Pieces(path))) && Join(Kept(Pieces(path))) == path }

  /** The components of a path. */
  function Parts(path: string): seq<string> { Kept(Pieces(path)) }

  lemma PartsAreClean(path: string)
    ensures Clean(Parts(path))
  {
    PiecesPlain(path);
    KeptIsClean(Pieces(path));
  }

  /** A path as its components are joined, `..` among them or not. */
  predicate InForm(path: string) { Join(Parts(path)) == path }

  lemma PartsOfJoin(parts: seq<string>)
    requires Clean(parts)
    ensures Parts(Join(parts)) == parts && InForm(Join(parts)) && (Normal(parts) ==> IsPath(Join(parts)))
  {
    if parts != [] {
      PiecesOfJoin(parts);
      KeptClean(parts);
    }
  }

  /** In a path that is in form no piece is dropped. */
  lemma PiecesAreParts(path: string)
    requires InForm(path) && path != ""
    ensures Pieces(path) == Parts(path)
  {
    PartsAreClean(path);
    PiecesOfJoin(Parts(path));
  }

  /** Normalising again changes nothing, and never fails. */
  lemma NormaliseIdempotent(path: string)
    requires IsPath(path)
    ensures !LeavesRoot(path) && Join(Kept(Pieces(path))) == path
  {
    var parts := Parts(path);
    if parts != [] { PiecesOfJoin(parts); }
  }

  // -------------------------------------------------------- below a path --

  /** `p` is strictly below the directory `dir`, as the tree tells it: by string prefix. */
  predicate Under(p: string, dir: string) { dir == "" || dir + "/" <= p }

  lemma {:induction false} JoinPrefix(d: seq<string>, rest: seq<string>)
    requires d != [] && rest != []
    ensures Join(d + rest) == Join(d) + "/" + Join(rest)
  {
    if |d| == 1 {
      assert (d + rest)[1..] == rest;
    } else {
      assert (d + rest)[1..] == d[1..] + rest;
      JoinPrefix(d[1..], rest);
    }
  }

  /** What the string prefix means: the components `d` properly begin `p`'s. */
  lemma BelowIsPrefix(p: string, d: seq<string>)
    requires InForm(p) && d != [] && NoSlashes(d) && Join(d) != ""
    ensures Under(p, Join(d)) <==> d < Parts(p)
    ensures p == Join(d) <==> Parts(p) == d
  {
    var pp := Parts(p);
    if d < pp {
      assert pp == d + pp[|d|..];
      JoinPrefix(d, pp[|d|..]);
    }
    if Under(p, Join(d)) {
      var rest := p[|Join(d)| + 1..];
      assert p == Join(d) + "/" + rest;
      PiecesOfDirRest(d, rest);
      PiecesAreParts(p);
    }
    if p == Join(d) {
      PiecesOfJoin(d);
      PiecesAreParts(p);
    }
  }

  lemma UnderIsPrefix(p: string, d: string)
    requires InForm(p) && InForm(d) && d != ""
    ensures Under(p, d) <==> Parts(d) < Parts(p)
  {
    PartsAreClean(d);
    BelowIsPrefix(p, Parts(d));
  }

  lemma Regroup(a: string, b: string, c: string)
    ensures (a + "/" + b) + "/" + c == a + "/" + (b + "/" + c)
  {
  }

  lemma {:induction false} PiecesOfDirRest(d: seq<string>, rest: string)
    requires d != [] && NoSlashes(d)
    ensures Pieces(Join(d) + "/" + rest) == d + Pieces(rest)
  {
    if |d| == 1 {
      PiecesOfJoin2(d[0], rest);
    } else {
      var tail := Join(d[1..]);
      calc {
        Pieces(Join(d) + "/" + rest);
      ==  { assert Join(d) == d[0] + "/" + tail; Regroup(d[0], tail, rest); }
        Pieces(d[0] + "/" + (tail + "/" + rest));
      ==  { PiecesOfJoin2(d[0], tail + "/" + rest); }
        [d[0]] + Pieces(tail + "/" + rest);
      ==  { PiecesOfDirRest(d[1..], rest); }
        [d[0]] + (d[1..] + Pieces(rest));
      ==
        d + Pieces(rest);
      }
    }
  }

  // ------------------------------------------------------- split and join --

  /** The index of the last slash, or -1. */
  function LastSlash(path: string): (i: int)
    ensures -1 <= i < |path|
    ensures i >= 0 ==> path[i] == '/'
    ensures forall j | i < j < |path| :: path[j] != '/'
  {
    if path == "" then -1
    else if path[|path| - 1] == '/' then |path| - 1
    else LastSlash(path[..|path| - 1])
  }

  /** A path's parent and final component; the parent of a top-level entry is "". */
  function Split(path: string): (r: (string, string))
    ensures '/' !in r.1
    ensures path == if LastSlash(path) < 0 then r.1 else r.0 + "/" + r.1
  {
    var i := LastSlash(path);
    if i < 0 then ("", path) else (path[..i], path[i + 1..])
  }

  function JoinDir(dir: string, name: string): string { if dir == "" then name else dir + "/" + name }

  /** Taking a path apart and putting it together gives it back. */
  lemma SplitJoin(path: string)
    requires InForm(path)
    ensures JoinDir(Split(path).0, Split(path).1) == path
    ensures path != "" ==>
      Split(path).1 == Parts(path)[|Parts(path)| - 1] && Split(path).0 == Join(Parts(path)[..|Parts(path)| - 1])
  {
    if path != "" {
      var parts := Parts(path);
      PartsAreClean(path);
      var front, last := parts[..|parts| - 1], parts[|parts| - 1];
      assert parts == front + [last];
      if front == [] {
        assert path == last;
      } else {
        JoinPrefix(front, [last]);
        assert path == Join(front) + "/" + last;
        JoinNotEmpty(front);
        assert LastSlash(path) == |Join(front)| by { LastSlashIs(Join(front), last); }
      }
    }
  }

  lemma {:induction false} LastSlashIs(dir: string, name: string)
    requires '/' !in name
    ensures LastSlash(dir + "/" + name) == |dir|
  {
    var path := dir + "/" + name;
    if name == "" {
      assert path[|path| - 1] == '/';
    } else {
      var shorter := name[..|name| - 1];
      LastSlashIs(dir, shorter);
      assert path[..|path| - 1] == dir + "/" + shorter;
      assert path[|path| - 1] == name[|name| - 1];
    }
  }

  lemma JoinNotEmpty(parts: seq<string>)
    requires parts != [] && Clean(parts)
    ensures Join(parts) != ""
  {
  }
}

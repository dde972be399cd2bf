/** The tree a guest boots from: the flattened image, the files every guest gets, and the order in which
    the tar that becomes its filesystem lists them. */
module Rootfs {
  import opened Common
  import opened Ordered
  import opened ImagePaths
  import opened Image

  datatype Item =
    | Layer(source: Source)
    | Guest
    | Dir                     // a directory the image does not list
  {
    predicate IsHardLink() { Layer? && source.kind.Link? }
    predicate IsDirectory() { Dir? || (Layer? && source.kind.Directory?) }
  }

  type Items = map<string, Item>

  const GUEST_FILES := {"init", "etc/resolv.conf", "etc/hosts"}
  const MOUNT_POINTS := {"proc", "sys", "dev"}

  /** `q` is a directory on the way to `p`. */
  predicate Above(q: string, p: string) { |q| < |p| && p[|q|] == '/' && p[..|q|] == q }

  predicate ClosedUp(items: Items) {
    forall p, m | p in items && 0 <= m < |p| && p[m] == '/' :: p[..m] in items
  }

  /** The directories on the way to `path`. */
  method Parents(path: string) returns (qs: set<string>)
    ensures forall q :: q in qs <==> Above(q, path)
  {
    qs := {};
    for i := 0 to |path|
      invariant forall q :: q in qs <==> Above(q, path) && |q| < i
    {
      if path[i] == '/' {
        qs := qs + {path[..i]};
      }
    }
  }

  /** The image's tree with the guest's files in place of the image's, and the mount points. */
  function OwnItems(tree: Tree): (items: Items)
    ensures items.Keys == tree.Keys + GUEST_FILES + MOUNT_POINTS
  {
    map p | p in tree.Keys + GUEST_FILES + MOUNT_POINTS ::
      if p in GUEST_FILES then Guest else if p in tree then Layer(tree[p]) else Dir
  }

  method AllParents(items: Items) returns (parents: seq<string>)
    ensures forall q :: q in parents <==> exists p :: p in items && Above(q, p)
  {
    var keys := Walk(items.Keys);
    parents := [];
    for i := 0 to |keys|
      invariant forall q :: q in parents <==> exists j :: 0 <= j < i && Above(q, keys[j])
    {
      var qs := Parents(keys[i]);
      var more := Walk(qs);
      parents := parents + more;
    }
    forall q ensures q in parents <==> exists p :: p in items && Above(q, p) {
      if p :| p in items && Above(q, p) {
        var j :| 0 <= j < |keys| && keys[j] == p;
      }
    }
  }

  method AddDirs(own: Items, dirs: seq<string>) returns (items: Items)
    ensures forall p :: p in items <==> p in own || p in dirs
    ensures forall p | p in items :: items[p] == if p in own then own[p] else Dir
  {
    items := own;
    for i := 0 to |dirs|
      invariant forall p :: p in items <==> p in own || p in dirs[..i]
      invariant forall p | p in items :: items[p] == if p in own then own[p] else Dir
    {
      if dirs[i] !in items {
        items := items[dirs[i] := Dir];
      }
      assert dirs[..i + 1] == dirs[..i] + [dirs[i]];
    }
    assert dirs[..|dirs|] == dirs;
  }

  /** The image's tree, the guest's files in place of the image's, the mount points, and every parent the
      layers did not list. */
  method WithGuestFiles(tree: Tree) returns (items: Items)
    ensures ClosedUp(items)
    ensures forall p | p in GUEST_FILES :: p in items && items[p] == Guest
    ensures forall p | p in tree && p !in GUEST_FILES :: p in items && items[p] == Layer(tree[p])
    ensures forall p | p in MOUNT_POINTS :: p in items
    ensures forall p | p in items && p !in tree && p !in GUEST_FILES ::
      items[p] == Dir && (p in MOUNT_POINTS || exists c :: (c in tree || c in GUEST_FILES) && Above(p, c))
  {
    var own := OwnItems(tree);
    var parents := AllParents(own);
    items := AddDirs(own, parents);
    forall p, m | p in items && 0 <= m < |p| && p[m] == '/' ensures p[..m] in items {
      assert Above(p[..m], p);
      if p !in own {
        var c :| c in own && Above(p, c);
        assert Above(p[..m], c);
      }
    }
    forall p | p in items && p !in own ensures exists c :: (c in tree || c in GUEST_FILES) && Above(p, c) {
      var c :| c in own && Above(p, c);
      assert c !in MOUNT_POINTS;
    }
  }

  // --------------------------------------------------------------- the tar --

  function LinkTarget(source: Source): string { if source.link.Some? then source.link.value else "" }

  /** What the hard link at `p` shares its inode with. */
  function TargetOf(items: Items, p: string): string
    requires p in items && items[p].IsHardLink()
  {
    Normalised(LinkTarget(items[p].source))
  }

  /** A hard link whose target is not a file of the tree. */
  predicate Dangles(items: Items, p: string)
    requires p in items && items[p].IsHardLink()
  {
    LeavesRoot(LinkTarget(items[p].source)) || TargetOf(items, p) !in items || items[TargetOf(items, p)].Dir?
  }

  /** `p` is written before `q`. */
  ghost predicate Precedes(out: seq<string>, p: string, q: string) {
    exists i, j :: 0 <= i < j < |out| && out[i] == p && out[j] == q
  }

  ghost predicate Distinct(out: seq<string>) { forall i, j | 0 <= i < j < |out| :: out[i] != out[j] }

  /** The paths that are not hard links, and those that are, each in path order. */
  method Partition(items: Items) returns (plain: seq<string>, links: seq<string>)
    ensures Ascending(plain) && Ascending(links)
    ensures forall p :: p in plain <==> p in items && !items[p].IsHardLink()
    ensures forall p :: p in links <==> p in items && items[p].IsHardLink()
  {
    var keys := Walk(items.Keys);
    plain, links := [], [];
    for i := 0 to |keys|
      invariant Ascending(plain) && Ascending(links)
      invariant forall p :: p in plain <==> p in keys[..i] && !items[p].IsHardLink()
      invariant forall p :: p in links <==> p in keys[..i] && items[p].IsHardLink()
    {
      assert keys[..i + 1] == keys[..i] + [keys[i]];
      forall p | p in keys[..i] ensures Less(p, keys[i]) { }
      if items[keys[i]].IsHardLink() {
        links := links + [keys[i]];
      } else {
        plain := plain + [keys[i]];
      }
    }
    assert keys[..|keys|] == keys;
  }

  ghost predicate Partitioned(items: Items, plain: seq<string>, links: seq<string>) {
    && Ascending(plain) && Ascending(links)
    && (forall p :: p in plain <==> p in items && !items[p].IsHardLink())
    && (forall p :: p in links <==> p in items && items[p].IsHardLink())
  }

  lemma DirsFirst(items: Items, plain: seq<string>, links: seq<string>, q: string, p: string)
    requires Partitioned(items, plain, links)
    requires q in items && p in items && items[q].IsDirectory() && q != "" && Under(p, q)
    ensures Precedes(plain + links, q, p)
  {
    if p in plain { PrefixLess(q, p); InOrder(plain, links, q, p); } else { PlainFirst(plain, links, q, p); }
  }

  lemma LinksAfterTargets(items: Items, plain: seq<string>, links: seq<string>, l: string)
    requires Partitioned(items, plain, links) && l in items && items[l].IsHardLink() && !Dangles(items, l)
    ensures Precedes(plain + links, TargetOf(items, l), l) <==>
      !items[TargetOf(items, l)].IsHardLink() || Less(TargetOf(items, l), l)
  {
    var target := TargetOf(items, l);
    if items[target].IsHardLink() { LinksInOrder(plain, links, target, l); } else { PlainFirst(plain, links, target, l); }
  }

  /** The order the paths are written in: everything but hard links in path order, then hard links in
      path order. */
  method WriteTar(items: Items) returns (r: Option<seq<string>>)
    ensures r.None? <==> exists p :: p in items && items[p].IsHardLink() && Dangles(items, p)
    ensures r.Some? ==> Distinct(r.value) && forall p :: p in r.value <==> p in items
    ensures r.Some? ==> forall q, p | q in items && p in items && items[q].IsDirectory() && q != "" && Under(p, q) ::
      Precedes(r.value, q, p)
    ensures r.Some? ==> forall l | l in items && items[l].IsHardLink() ::
      Precedes(r.value, TargetOf(items, l), l) <==>
      !items[TargetOf(items, l)].IsHardLink() || Less(TargetOf(items, l), l)
  {
    var plain, links := Partition(items);
    var out := plain;
    for i := 0 to |links|
      invariant out == plain + links[..i]
      invariant forall k | 0 <= k < i :: !Dangles(items, links[k])
    {
      var p := links[i];
      var target := Normalise(LinkTarget(items[p].source));
      if target.None? || target.value !in items || items[target.value].Dir? {
        return None;
      }
      out := out + [p];
      assert links[..i + 1] == links[..i] + [p];
    }
    assert links[..|links|] == links;
    WrittenOnce(plain, links);
    forall q, p | q in items && p in items && items[q].IsDirectory() && q != "" && Under(p, q) ensures Precedes(out, q, p) {
      DirsFirst(items, plain, links, q, p);
    }
    forall l | l in items && items[l].IsHardLink()
      ensures !Dangles(items, l)
      ensures Precedes(out, TargetOf(items, l), l) <==> !items[TargetOf(items, l)].IsHardLink() || Less(TargetOf(items, l), l)
    {
      var k :| 0 <= k < |links| && links[k] == l;
      LinksAfterTargets(items, plain, links, l);
    }
    return Some(out);
  }

  lemma WrittenOnce(plain: seq<string>, links: seq<string>)
    requires Ascending(plain) && Ascending(links) && forall p :: !(p in plain && p in links)
    ensures Distinct(plain + links)
  {
    var out := plain + links;
    forall i, j | 0 <= i < j < |out| ensures out[i] != out[j] {
      if j < |plain| {
        LessIrreflexive(plain[i]);
      } else if i < |plain| {
        assert out[i] in plain && out[j] in links;
      } else {
        LessIrreflexive(links[i - |plain|]);
      }
    }
  }

  lemma IndexOrder(ks: seq<string>, i: int, j: int)
    requires Ascending(ks) && 0 <= i < |ks| && 0 <= j < |ks| && Less(ks[i], ks[j])
    ensures i < j
  {
    if i == j { LessIrreflexive(ks[i]); } else if j < i { LessAsymmetric(ks[j], ks[i]); }
  }

  lemma InOrder(plain: seq<string>, links: seq<string>, q: string, p: string)
    requires Ascending(plain) && q in plain && p in plain && Less(q, p)
    ensures Precedes(plain + links, q, p)
  {
    var i :| 0 <= i < |plain| && plain[i] == q;
    var j :| 0 <= j < |plain| && plain[j] == p;
    IndexOrder(plain, i, j);
    assert (plain + links)[i] == q && (plain + links)[j] == p;
  }

  lemma PlainFirst(plain: seq<string>, links: seq<string>, q: string, p: string)
    requires q in plain && p in links
    ensures Precedes(plain + links, q, p)
  {
    var i :| 0 <= i < |plain| && plain[i] == q;
    var j :| 0 <= j < |links| && links[j] == p;
    assert (plain + links)[i] == q && (plain + links)[|plain| + j] == p;
  }

  lemma LinksInOrder(plain: seq<string>, links: seq<string>, q: string, p: string)
    requires Ascending(links) && q in links && p in links && q !in plain && p !in plain
    ensures Precedes(plain + links, q, p) <==> Less(q, p)
  {
    var out := plain + links;
    if Less(q, p) {
      var i :| 0 <= i < |links| && links[i] == q;
      var j :| 0 <= j < |links| && links[j] == p;
      IndexOrder(links, i, j);
      assert out[|plain| + i] == q && out[|plain| + j] == p;
    }
    if Precedes(out, q, p) {
      var i, j :| 0 <= i < j < |out| && out[i] == q && out[j] == p;
      assert i >= |plain| && links[i - |plain|] == q && links[j - |plain|] == p;
    }
  }

  lemma PlainName(name: string)
    requires IsPath(name) && '/' !in name
    ensures !LeavesRoot(name) && Normalised(name) == name
  {
    NormaliseIdempotent(name);
  }

  const LINK_TO_LINK: Items :=
    map["a" := Layer(Source(0, 0, Link, Some("b"))),
        "b" := Layer(Source(0, 1, Link, Some("c"))),
        "c" := Layer(Source(0, 2, Regular, None))]

  /** A hard link to a hard link may be written before it: `a` links to `b`, `b` to `c`, and `a` comes first. */
  lemma LinkToLinkFirst()
    ensures Partitioned(LINK_TO_LINK, ["c"], ["a", "b"])
    ensures TargetOf(LINK_TO_LINK, "a") == "b" && !Dangles(LINK_TO_LINK, "a")
    ensures !Precedes(["c"] + ["a", "b"], "b", "a")
  {
    PartsOfJoin(["b"]);
    assert Join(["b"]) == "b";
    PlainName("b");
    var out := ["c"] + ["a", "b"];
    assert out[0] == "c" && out[1] == "a" && out[2] == "b" && |out| == 3;
  }
}

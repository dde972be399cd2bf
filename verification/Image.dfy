/** Flattening an image's layers into one tree, in place and layer by layer. */
module Image {
  import opened Common
  import opened Ordered
  import opened ImagePaths

  datatype Kind = Regular | Continuous | Directory | Symlink | Link | Char | Block | Fifo | Unsupported

  /** A tar entry as a layer lists it. */
  datatype Raw = Raw(path: string, kind: Kind, link: Option<string>)

  /** Where one entry of the tree comes from: its layer, and its place in it. */
  datatype Source = Source(layer: nat, index: nat, kind: Kind, link: Option<string>)

  datatype Entry = Entry(path: string, source: Source)

  type Tree = map<string, Source>

  const OPAQUE := ".wh..wh..opq"
  const WHITEOUT := ".wh."

  predicate IsWhiteout(path: string) { WHITEOUT <= Split(path).1 }

  /** The whiteout entry at `path` hides `p`. */
  predicate Hides(path: string, p: string) {
    var (dir, name) := Split(path);
    if name == OPAQUE then Under(p, dir)
    else WHITEOUT <= name && (p == JoinDir(dir, name[4..]) || Under(p, JoinDir(dir, name[4..])))
  }

  // ------------------------------------------------ what applying a layer does --

  function RemoveUnder(tree: Tree, dir: string): Tree { map p | p in tree && !Under(p, dir) :: tree[p] }

  function Hide(tree: Tree, path: string): Tree { map p | p in tree && !Hides(path, p) :: tree[p] }

  function HideAll(tree: Tree, es: seq<Entry>): Tree {
    if es == [] then tree else Hide(HideAll(tree, es[..|es| - 1]), es[|es| - 1].path)
  }

  predicate HasDir(tree: Tree, path: string) { path in tree && tree[path].kind.Directory? }

  /** `e` takes the place of all that is below it, rather than merging with it. */
  predicate Replaces(tree: Tree, e: Entry) { !e.source.kind.Directory? || !HasDir(tree, e.path) }

  predicate IsPut(e: Entry) { !IsWhiteout(e.path) && e.path != "" }

  function Put(tree: Tree, e: Entry): Tree {
    if !IsPut(e) then tree
    else (if Replaces(tree, e) then RemoveUnder(tree, e.path) else tree)[e.path := e.source]
  }

  function PutAll(tree: Tree, es: seq<Entry>): Tree {
    if es == [] then tree else Put(PutAll(tree, es[..|es| - 1]), es[|es| - 1])
  }

  /** Whiteouts first, then entries. */
  function ApplyLayer(tree: Tree, es: seq<Entry>): Tree { PutAll(HideAll(tree, es), es) }

  function Normalised(path: string): string { Join(Kept(Pieces(path))) }

  function EntryOf(i: nat, j: nat, raw: Raw): Entry {
    Entry(Normalised(raw.path), Source(i, j, raw.kind, raw.link))
  }

  /** What layer `i` lists. */
  function Entries(i: nat, raws: seq<Raw>): (es: seq<Entry>)
    ensures |es| == |raws|
  {
    if raws == [] then []
    else
      var n := |raws| - 1;
      Entries(i, raws[..n]) + [EntryOf(i, n, raws[n])]
  }

  lemma {:induction false} EntriesAt(i: nat, raws: seq<Raw>, j: nat)
    requires j < |raws|
    ensures Entries(i, raws)[j] == EntryOf(i, j, raws[j])
  {
    var n := |raws| - 1;
    if j < n { EntriesAt(i, raws[..n], j); }
  }

  type Layers = seq<seq<Entry>>

  function EntriesOf(layers: seq<seq<Raw>>): (ls: Layers)
    ensures |ls| == |layers|
  {
    if layers == [] then []
    else
      var n := |layers| - 1;
      EntriesOf(layers[..n]) + [Entries(n, layers[n])]
  }

  lemma {:induction false} EntriesOfAt(layers: seq<seq<Raw>>, i: nat)
    requires i < |layers|
    ensures EntriesOf(layers)[i] == Entries(i, layers[i])
  {
    var n := |layers| - 1;
    if i < n { EntriesOfAt(layers[..n], i); }
  }

  /** The tree of the first `n` layers. */
  function TreeOf(ls: Layers, n: nat): Tree
    requires n <= |ls|
  {
    if n == 0 then map[] else ApplyLayer(TreeOf(ls, n - 1), ls[n - 1])
  }

  function FlattenTo(layers: seq<seq<Raw>>): Tree { TreeOf(EntriesOf(layers), |layers|) }

  // ------------------------------------------------------------- what is refused --

  predicate RefusedEntry(path: string, kind: Kind, link: Option<string>) {
    !IsWhiteout(path) &&
    (kind.Unsupported? || (kind.Link? && LeavesRoot(if link.Some? then link.value else "")))
  }

  predicate RefusedRaw(raw: Raw) {
    LeavesRoot(raw.path) || RefusedEntry(Normalised(raw.path), raw.kind, raw.link)
  }

  predicate Refused(raws: seq<Raw>) { exists j :: 0 <= j < |raws| && RefusedRaw(raws[j]) }

  method Accepts(path: string, kind: Kind, link: Option<string>) returns (ok: bool)
    ensures ok <==> !RefusedEntry(path, kind, link)
  {
    if IsWhiteout(path) {
      return true;
    }
    if kind.Unsupported? {
      return false;
    }
    if kind.Link? {
      var target := Normalise(if link.Some? then link.value else "");
      return target.Some?;
    }
    return true;
  }

  // ------------------------------------------------------------- in place --

  class Flattened {
    var tree: Tree

    constructor ()
      ensures tree == map[]
    {
      tree := map[];
    }

    /** Removes everything below `dir`: the tree is walked from the first key at or after `dir/`
        for as long as keys begin with it. */
    method RemoveChildren(dir: string)
      modifies this
      ensures tree == RemoveUnder(old(tree), dir)
    {
      if dir == "" {
        tree := map[];
        return;
      }
      var prefix := dir + "/";
      var keys := Walk(tree.Keys);
      var i := 0;
      while i < |keys| && Less(keys[i], prefix)
        invariant 0 <= i <= |keys|
        invariant forall j | 0 <= j < i :: Less(keys[j], prefix)
      {
        i := i + 1;
      }
      var first := i;
      while i < |keys| && prefix <= keys[i]
        invariant first <= i <= |keys|
        invariant forall j | first <= j < i :: prefix <= keys[j]
      {
        i := i + 1;
      }
      ScanExact(keys, prefix, first, i);
      var children := keys[first..i];
      assert forall p | p in tree :: p in children <==> prefix <= p;
      RemoveAll(children);
    }

    method RemoveAll(paths: seq<string>)
      modifies this
      ensures tree == map p | p in old(tree) && p !in paths :: old(tree)[p]
    {
      for k := 0 to |paths|
        invariant tree == map p | p in old(tree) && p !in paths[..k] :: old(tree)[p]
      {
        tree := tree - {paths[k]};
        assert paths[..k + 1] == paths[..k] + [paths[k]];
      }
      assert paths[..|paths|] == paths;
    }

    method Remove(path: string)
      modifies this
      ensures tree == map p | p in old(tree) && p != path && !Under(p, path) :: old(tree)[p]
    {
      tree := tree - {path};
      RemoveChildren(path);
    }

    /** Applies layer `i` on top of the tree built from the layers below it. */
    method Apply(i: nat, raws: seq<Raw>) returns (ok: bool)
      modifies this
      ensures ok <==> !Refused(raws)
      ensures ok ==> tree == ApplyLayer(old(tree), Entries(i, raws))
    {
      var entries: seq<Entry> := [];
      for j := 0 to |raws|
        invariant entries == Entries(i, raws[..j])
        invariant forall k | 0 <= k < j :: !LeavesRoot(raws[k].path)
        invariant tree == old(tree)
      {
        var path := Normalise(raws[j].path);
        if path.None? {
          return false;
        }
        entries := entries + [Entry(path.value, Source(i, j, raws[j].kind, raws[j].link))];
        assert raws[..j + 1][..j] == raws[..j];
      }
      assert raws[..|raws|] == raws;
      ApplyWhiteouts(entries);
      ok := ApplyEntries(entries);
      forall j | 0 <= j < |raws| ensures entries[j] == EntryOf(i, j, raws[j]) { EntriesAt(i, raws, j); }
    }

    /** What one whiteout removes; nothing, for an entry that is none. */
    method ApplyWhiteout(path: string)
      modifies this
      ensures tree == Hide(old(tree), path)
    {
      var (dir, name) := Split(path);
      if name == OPAQUE {
        RemoveChildren(dir);
      } else if WHITEOUT <= name {
        Remove(JoinDir(dir, name[4..]));
      }
    }

    method ApplyWhiteouts(entries: seq<Entry>)
      modifies this
      ensures tree == HideAll(old(tree), entries)
    {
      ghost var was := tree;
      for j := 0 to |entries|
        invariant tree == HideAll(was, entries[..j])
      {
        ApplyWhiteout(entries[j].path);
        assert entries[..j + 1][..j] == entries[..j];
      }
      assert entries[..|entries|] == entries;
    }

    /** Inserts an entry; anything but a directory over a directory replaces a whole subtree. */
    method ApplyEntry(e: Entry)
      requires !IsWhiteout(e.path)
      modifies this
      ensures tree == Put(old(tree), e)
    {
      if e.path == "" {
        return;
      }
      var wasDir := e.path in tree && tree[e.path].kind.Directory?;
      if !e.source.kind.Directory? || !wasDir {
        RemoveChildren(e.path);
      }
      tree := tree[e.path := e.source];
    }

    method ApplyEntries(entries: seq<Entry>) returns (ok: bool)
      modifies this
      ensures ok <==> forall k | 0 <= k < |entries| ::
        !RefusedEntry(entries[k].path, entries[k].source.kind, entries[k].source.link)
      ensures ok ==> tree == PutAll(old(tree), entries)
    {
      ghost var was := tree;
      for j := 0 to |entries|
        invariant tree == PutAll(was, entries[..j])
        invariant forall k | 0 <= k < j :: !RefusedEntry(entries[k].path, entries[k].source.kind, entries[k].source.link)
      {
        ok := Accepts(entries[j].path, entries[j].source.kind, entries[j].source.link);
        if !ok {
          return;
        }
        if !IsWhiteout(entries[j].path) {
          ApplyEntry(entries[j]);
        }
        assert entries[..j + 1][..j] == entries[..j];
      }
      assert entries[..|entries|] == entries;
      return true;
    }
  }

  ghost predicate Refuses(layers: seq<seq<Raw>>, i: nat)
    requires i < |layers|
  {
    Refused(layers[i])
  }

  /** `trees` holds the tree before each layer, and the last. */
  ghost predicate AreTrees(layers: seq<seq<Raw>>, trees: seq<Tree>) {
    && |trees| == |layers| + 1 && trees[0] == map[] && trees[|layers|] == FlattenTo(layers)
    && forall i | 0 <= i < |layers| :: IsNext(layers, trees, i)
  }

  ghost predicate IsNext(layers: seq<seq<Raw>>, trees: seq<Tree>, i: int)
    requires 0 <= i < |layers| && |trees| == |layers| + 1
  {
    trees[i + 1] == ApplyLayer(trees[i], Entries(i, layers[i]))
  }

  lemma TreesOf(layers: seq<seq<Raw>>) returns (trees: seq<Tree>)
    ensures AreTrees(layers, trees)
  {
    var ls := EntriesOf(layers);
    trees := seq(|layers| + 1, n requires 0 <= n <= |layers| => TreeOf(ls, n));
    forall i | 0 <= i < |layers| ensures IsNext(layers, trees, i) { EntriesOfAt(layers, i); }
  }

  method ApplyNext(flat: Flattened, layers: seq<seq<Raw>>, i: nat, ghost trees: seq<Tree>) returns (ok: bool)
    requires i < |layers| && AreTrees(layers, trees) && flat.tree == trees[i]
    modifies flat
    ensures ok <==> !Refuses(layers, i)
    ensures ok ==> flat.tree == trees[i + 1]
  {
    assert IsNext(layers, trees, i);
    ok := flat.Apply(i, layers[i]);
  }

  /** Merges the layers, bottom first; `None` when one of them is refused. */
  method Open(layers: seq<seq<Raw>>) returns (r: Option<Tree>)
    ensures r.None? <==> exists i :: 0 <= i < |layers| && Refuses(layers, i)
    ensures r.Some? ==> r.value == FlattenTo(layers)
  {
    var flat := new Flattened();
    ghost var trees := TreesOf(layers);
    for i := 0 to |layers|
      invariant fresh(flat) && flat.tree == trees[i]
      invariant forall k | 0 <= k < i :: !Refuses(layers, k)
    {
      var ok := ApplyNext(flat, layers, i, trees);
      if !ok {
        return None;
      }
    }
    return Some(flat.tree);
  }

  /** The ordered scan finds exactly the keys with the prefix. */
  lemma ScanExact(keys: seq<string>, prefix: string, first: nat, end: nat)
    requires Ascending(keys) && first <= end <= |keys|
    requires forall j | 0 <= j < first :: Less(keys[j], prefix)
    requires first < |keys| ==> !Less(keys[first], prefix)
    requires forall j | first <= j < end :: prefix <= keys[j]
    requires end < |keys| ==> !(prefix <= keys[end])
    ensures forall j | 0 <= j < |keys| :: prefix <= keys[j] <==> first <= j < end
  {
    forall j | 0 <= j < |keys| && prefix <= keys[j] ensures first <= j < end {
      if prefix != keys[j] { PrefixLess(prefix, keys[j]); }
      if j < first {
        if prefix == keys[j] { LessIrreflexive(prefix); } else { LessAsymmetric(prefix, keys[j]); }
      } else if j > end {
        LessTotal(prefix, keys[first]);
        if first < end && prefix != keys[first] { PrefixLess(prefix, keys[first]); }
        if first < end && prefix != keys[first] { LessTransitive(prefix, keys[first], keys[end]); }
        PrefixConvex(prefix, keys[end], keys[j]);
      }
    }
  }
}

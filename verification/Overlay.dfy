/** What a list of layers means, said of positions in the layers alone, and that flattening gives it. */
module Overlay {
  import opened Common
  import opened ImagePaths
  import opened Image

  predicate InRange(ls: Layers, i: int, j: int) { 0 <= i < |ls| && 0 <= j < |ls[i]| }

  /** A position at which the next entry comes up, the end of a layer included. */
  predicate Upto(ls: Layers, i: int, j: int) { 0 <= i < |ls| && 0 <= j <= |ls[i]| }

  predicate Before(i: int, j: int, i': int, j': int) { i < i' || (i == i' && j < j') }

  // ------------------------------------------------- what entries do, in components --

  /** The entry whose components are `w` whites out the path whose components are `p`: an opaque marker whites out all
      that is below its directory; another name after `.wh.` what has that name there, with all that is below it; and
      `.wh.` alone, at the root, everything. */
  predicate WhitesOut(w: seq<string>, p: seq<string>) {
    w != [] &&
    var dir, name := w[..|w| - 1], w[|w| - 1];
    if name == OPAQUE then dir < p
    else WHITEOUT <= name && (dir + [name[|WHITEOUT|..]] <= p || (dir == [] && name == WHITEOUT))
  }

  /** The entry at the components `w` goes into the tree: it is not the root's, and no whiteout. */
  predicate GoesIn(w: seq<string>) { w != [] && !(WHITEOUT <= w[|w| - 1]) }

  /** Some whiteout of the layer covers `p`. */
  ghost predicate Covered(es: seq<Entry>, p: string) {
    exists j :: 0 <= j < |es| && WhitesOut(Parts(es[j].path), Parts(p))
  }

  /** Paths as reading a layer leaves them. */
  predicate Formed(es: seq<Entry>) { forall j | 0 <= j < |es| :: InForm(es[j].path) }

  predicate AllFormed(ls: Layers) { forall i | 0 <= i < |ls| :: Formed(ls[i]) }

  /** A path that the tree can have. */
  predicate InTree(p: string) { InForm(p) && p != "" }

  lemma JoinDirIs(dir: seq<string>, name: string)
    requires Clean(dir)
    ensures JoinDir(Join(dir), name) == Join(dir + [name])
  {
    if dir != [] {
      JoinNotEmpty(dir);
      JoinPrefix(dir, [name]);
    } else {
      assert dir + [name] == [name];
    }
  }

  /** What is removed for a name after `.wh.`, by string, is what is whited out, by components. */
  lemma RemovedIs(dir: seq<string>, x: string, p: string)
    requires Clean(dir) && '/' !in x && InTree(p)
    ensures var path := JoinDir(Join(dir), x);
            p == path || Under(p, path) <==> dir + [x] <= Parts(p) || (dir == [] && x == "")
  {
    JoinDirIs(dir, x);
    if dir != [] || x != "" {
      if dir != [] { JoinPrefix(dir, [x]); } else { assert dir + [x] == [x]; }
      BelowIsPrefix(p, dir + [x]);
    }
  }

  lemma OpaqueIs(dir: seq<string>, p: string)
    requires Clean(dir) && InTree(p)
    ensures Under(p, Join(dir)) <==> dir < Parts(p)
  {
    if dir != [] {
      JoinNotEmpty(dir);
      BelowIsPrefix(p, dir);
    }
  }

  /** The code's whiteouts, by string, are the components'. */
  lemma HidesIs(path: string, p: string)
    requires InForm(path) && InTree(p)
    ensures Hides(path, p) <==> WhitesOut(Parts(path), Parts(p))
  {
    SplitJoin(path);
    PartsAreClean(path);
    if path != "" {
      var w := Parts(path);
      var dir, name := w[..|w| - 1], w[|w| - 1];
      assert Split(path) == (Join(dir), name);
      if name == OPAQUE {
        OpaqueIs(dir, p);
      } else if WHITEOUT <= name {
        RemovedIs(dir, name[|WHITEOUT|..], p);
        assert name == WHITEOUT <==> name[|WHITEOUT|..] == "";
      }
    }
  }

  lemma IsPutIs(e: Entry)
    requires InForm(e.path)
    ensures IsPut(e) <==> GoesIn(Parts(e.path))
  {
    SplitJoin(e.path);
  }

  // ------------------------------------------------------------------ who wins --

  /** Entry `j` of layer `i` holds `p` when entry `j'` of layer `i'` comes up: it is at `p`, no later
      layer up to `i'` whites it out, and no entry after it takes its place. */
  ghost predicate Wins(ls: Layers, i: int, j: int, i': int, j': int, p: string)
    requires Upto(ls, i', j')
    decreases i', j', 0
  {
    && InRange(ls, i, j) && Before(i, j, i', j') && GoesIn(Parts(p)) && ls[i][j].path == p
    && (forall k | i < k <= i' :: !Covered(ls[k], p))
    && (forall k, l | InRange(ls, k, l) && Before(i, j, k, l) && Before(k, l, i', j') :: !Clears(ls, k, l, p))
  }

  /** `q` is a directory some entry lists when entry `j` of layer `i` comes up. */
  ghost predicate Listed(ls: Layers, i: int, j: int, q: string)
    requires Upto(ls, i, j)
    decreases i, j, 1
  {
    exists k, l :: Wins(ls, k, l, i, j, q) && InRange(ls, k, l) && ls[k][l].source.kind.Directory?
  }

  /** Entry `j` of layer `i` takes the place of what was at `p`: it is at `p` itself, or above it and not
      a directory over a listed directory. */
  ghost predicate Clears(ls: Layers, i: int, j: int, p: string)
    requires InRange(ls, i, j)
    decreases i, j, 2
  {
    var e := ls[i][j];
    var w := Parts(e.path);
    GoesIn(w) && (w == Parts(p) || (w < Parts(p) && (!e.source.kind.Directory? || !Listed(ls, i, j, e.path))))
  }

  /** The tree when entry `j` of layer `i` comes up. */
  ghost function TreeAt(ls: Layers, i: int, j: int): Tree
    requires Upto(ls, i, j)
    decreases i, 1
  {
    PutAll(HideAll(TreeBelow(ls, i), ls[i]), ls[i][..j])
  }

  ghost function TreeBelow(ls: Layers, i: int): Tree
    requires 0 <= i <= |ls|
    decreases i, 0
  {
    if i == 0 then map[] else TreeAt(ls, i - 1, |ls[i - 1]|)
  }

  // ------------------------------------------------------------ the two steps --

  /** Some whiteout of the layer hides `p`, by string. */
  ghost predicate Hidden(es: seq<Entry>, p: string) { exists j :: 0 <= j < |es| && Hides(es[j].path, p) }

  lemma HiddenLast(es: seq<Entry>, p: string)
    requires es != []
    ensures Hidden(es, p) <==> Hidden(es[..|es| - 1], p) || Hides(es[|es| - 1].path, p)
  {
    assert es == es[..|es| - 1] + [es[|es| - 1]];
  }

  lemma {:induction false} HideAllHides(tree: Tree, es: seq<Entry>)
    ensures forall p :: p in HideAll(tree, es) <==> p in tree && !Hidden(es, p)
    ensures forall p | p in HideAll(tree, es) :: HideAll(tree, es)[p] == tree[p]
  {
    if es != [] {
      HideAllHides(tree, es[..|es| - 1]);
      forall p ensures p in HideAll(tree, es) <==> p in tree && !Hidden(es, p) { HiddenLast(es, p); }
    }
  }

  lemma HiddenIsCovered(es: seq<Entry>, p: string)
    requires Formed(es) && InTree(p)
    ensures Hidden(es, p) <==> Covered(es, p)
  {
    forall j | 0 <= j < |es| ensures Hides(es[j].path, p) <==> WhitesOut(Parts(es[j].path), Parts(p)) {
      HidesIs(es[j].path, p);
    }
  }

  /** A layer's whiteouts take from the tree exactly the paths that one of them covers, wherever they are listed. */
  lemma HideAllIs(tree: Tree, es: seq<Entry>)
    requires Formed(es) && forall p | p in tree :: InTree(p)
    ensures forall p :: p in HideAll(tree, es) <==> p in tree && !Covered(es, p)
    ensures forall p | p in HideAll(tree, es) :: HideAll(tree, es)[p] == tree[p]
  {
    HideAllHides(tree, es);
    forall p | p in tree ensures Hidden(es, p) <==> Covered(es, p) { HiddenIsCovered(es, p); }
  }

  /** The next entry of a layer: what it does not clear stays, and it holds its own path. */
  lemma WinsAfterEntry(ls: Layers, i: int, j: int, i': int, j': int, p: string)
    requires InRange(ls, i', j')
    ensures Wins(ls, i, j, i', j' + 1, p) <==>
      || (Wins(ls, i, j, i', j', p) && !Clears(ls, i', j', p))
      || (i == i' && j == j' && GoesIn(Parts(p)) && ls[i'][j'].path == p)
  {
  }

  /** The next layer's whiteouts. */
  lemma WinsAfterWhiteouts(ls: Layers, i: int, j: int, i': int, p: string)
    requires 0 < i' < |ls|
    ensures Wins(ls, i, j, i', 0, p) <==> Wins(ls, i, j, i' - 1, |ls[i' - 1]|, p) && !Covered(ls[i'], p)
  {
  }

  // --------------------------------------------------------------- the theorem --

  /** `tree` is the meaning of the layers up to entry `j'` of layer `i'`. */
  ghost predicate IsMeaning(ls: Layers, i': int, j': int, tree: Tree)
    requires Upto(ls, i', j')
  {
    && (forall i, j, p | Wins(ls, i, j, i', j', p) :: InRange(ls, i, j) && p in tree && tree[p] == ls[i][j].source)
    && (forall p | p in tree :: exists i, j :: Wins(ls, i, j, i', j', p))
  }

  /** What is in the tree is in form. */
  lemma WinnerInTree(ls: Layers, i: int, j: int, i': int, j': int, p: string)
    requires AllFormed(ls) && Upto(ls, i', j') && Wins(ls, i, j, i', j', p)
    ensures InTree(p)
  {
    assert Formed(ls[i]);
  }

  lemma ClearsIs(ls: Layers, i: int, j: int, tree: Tree, p: string)
    requires AllFormed(ls) && InRange(ls, i, j) && IsMeaning(ls, i, j, tree) && InTree(p)
    ensures var e := ls[i][j];
            Clears(ls, i, j, p) <==> IsPut(e) && (p == e.path || (Under(p, e.path) && Replaces(tree, e)))
  {
    var e := ls[i][j];
    assert Formed(ls[i]);
    IsPutIs(e);
    MeansDir(ls, i, j, tree, e.path);
    if IsPut(e) {
      UnderIsPrefix(p, e.path);
      if Parts(e.path) == Parts(p) { assert e.path == Join(Parts(e.path)) && p == Join(Parts(p)); }
    }
  }

  lemma MeansDir(ls: Layers, i: int, j: int, tree: Tree, q: string)
    requires Upto(ls, i, j) && IsMeaning(ls, i, j, tree)
    ensures HasDir(tree, q) <==> Listed(ls, i, j, q)
  {
    if HasDir(tree, q) {
      var k, l :| Wins(ls, k, l, i, j, q);
    }
  }

  lemma HoldsAfterEntry(ls: Layers, i': int, j': int, tree: Tree, p: string)
    requires AllFormed(ls) && InRange(ls, i', j') && IsMeaning(ls, i', j', tree)
    ensures p in Put(tree, ls[i'][j']) <==>
      (p in tree && !Clears(ls, i', j', p)) || (GoesIn(Parts(p)) && p == ls[i'][j'].path)
  {
    assert Formed(ls[i']);
    IsPutIs(ls[i'][j']);
    if p in tree {
      var i, j :| Wins(ls, i, j, i', j', p);
      WinnerInTree(ls, i, j, i', j', p);
      ClearsIs(ls, i', j', tree, p);
    }
  }

  lemma WinnerAfterEntry(ls: Layers, i': int, j': int, tree: Tree, i: int, j: int, p: string)
    requires AllFormed(ls) && InRange(ls, i', j') && IsMeaning(ls, i', j', tree) && Wins(ls, i, j, i', j' + 1, p)
    ensures InRange(ls, i, j) && p in Put(tree, ls[i'][j']) && Put(tree, ls[i'][j'])[p] == ls[i][j].source
  {
    HoldsAfterEntry(ls, i', j', tree, p);
    WinsAfterEntry(ls, i, j, i', j', p);
    assert Formed(ls[i']);
    IsPutIs(ls[i'][j']);
    if Wins(ls, i, j, i', j', p) && !Clears(ls, i', j', p) {
      WinnerInTree(ls, i, j, i', j', p);
      ClearsIs(ls, i', j', tree, p);
    }
  }

  lemma WonAfterEntry(ls: Layers, i': int, j': int, tree: Tree, p: string)
    requires AllFormed(ls) && InRange(ls, i', j') && IsMeaning(ls, i', j', tree) && p in Put(tree, ls[i'][j'])
    ensures exists i, j, next :: next == j' + 1 && Wins(ls, i, j, i', next, p)
  {
    HoldsAfterEntry(ls, i', j', tree, p);
    var next := j' + 1;
    if GoesIn(Parts(p)) && p == ls[i'][j'].path {
      WinsAfterEntry(ls, i', j', i', j', p);
      assert Wins(ls, i', j', i', next, p);
    } else {
      var i, j :| Wins(ls, i, j, i', j', p);
      WinsAfterEntry(ls, i, j, i', j', p);
      assert Wins(ls, i, j, i', next, p);
    }
  }

  lemma MeaningAfterEntry(ls: Layers, i': int, j': int, tree: Tree)
    requires AllFormed(ls) && InRange(ls, i', j') && IsMeaning(ls, i', j', tree)
    ensures IsMeaning(ls, i', j' + 1, Put(tree, ls[i'][j']))
  {
    var tree', next := Put(tree, ls[i'][j']), j' + 1;
    forall i, j, p | Wins(ls, i, j, i', next, p) ensures InRange(ls, i, j) && p in tree' && tree'[p] == ls[i][j].source {
      WinnerAfterEntry(ls, i', j', tree, i, j, p);
    }
    forall p | p in tree' ensures exists i, j :: Wins(ls, i, j, i', next, p) {
      WonAfterEntry(ls, i', j', tree, p);
    }
  }

  lemma WonAfterWhiteouts(ls: Layers, i': int, tree: Tree, p: string)
    requires 0 < i' < |ls| && IsMeaning(ls, i' - 1, |ls[i' - 1]|, tree) && p in tree && !Covered(ls[i'], p)
    ensures exists i, j :: Wins(ls, i, j, i', 0, p)
  {
    var i, j :| Wins(ls, i, j, i' - 1, |ls[i' - 1]|, p);
    WinsAfterWhiteouts(ls, i, j, i', p);
  }

  lemma MeaningInTree(ls: Layers, i: int, j: int, tree: Tree, p: string)
    requires AllFormed(ls) && Upto(ls, i, j) && IsMeaning(ls, i, j, tree) && p in tree
    ensures InTree(p)
  {
    var k, l :| Wins(ls, k, l, i, j, p);
    WinnerInTree(ls, k, l, i, j, p);
  }

  lemma HidesFromMeaning(ls: Layers, i: int, j: int, tree: Tree, es: seq<Entry>)
    requires AllFormed(ls) && Upto(ls, i, j) && IsMeaning(ls, i, j, tree) && Formed(es)
    ensures forall p :: p in HideAll(tree, es) <==> p in tree && !Covered(es, p)
    ensures forall p | p in HideAll(tree, es) :: HideAll(tree, es)[p] == tree[p]
  {
    forall p | p in tree ensures InTree(p) { MeaningInTree(ls, i, j, tree, p); }
    HideAllIs(tree, es);
  }

  lemma MeaningAfterWhiteouts(ls: Layers, i': int, tree: Tree)
    requires AllFormed(ls) && 0 < i' < |ls| && IsMeaning(ls, i' - 1, |ls[i' - 1]|, tree)
    ensures IsMeaning(ls, i', 0, HideAll(tree, ls[i']))
  {
    HidesFromMeaning(ls, i' - 1, |ls[i' - 1]|, tree, ls[i']);
    var tree' := HideAll(tree, ls[i']);
    forall i, j, p | Wins(ls, i, j, i', 0, p) ensures InRange(ls, i, j) && p in tree' && tree'[p] == ls[i][j].source {
      WinsAfterWhiteouts(ls, i, j, i', p);
    }
    forall p | p in tree' ensures exists i, j :: Wins(ls, i, j, i', 0, p) { WonAfterWhiteouts(ls, i', tree, p); }
  }

  lemma MeaningAtFirst(ls: Layers)
    requires AllFormed(ls) && ls != []
    ensures IsMeaning(ls, 0, 0, HideAll(map[], ls[0]))
  {
    HideAllHides(map[], ls[0]);
  }

  /** At every entry of every layer, the tree built in place is the meaning of what came before it. */
  lemma {:induction false} TreeIsMeaning(ls: Layers, i: int, j: int)
    requires AllFormed(ls) && Upto(ls, i, j)
    ensures IsMeaning(ls, i, j, TreeAt(ls, i, j))
    decreases i, j
  {
    if j == 0 {
      if i == 0 {
        MeaningAtFirst(ls);
      } else {
        TreeIsMeaning(ls, i - 1, |ls[i - 1]|);
        MeaningAfterWhiteouts(ls, i, TreeBelow(ls, i));
      }
      assert ls[i][..0] == [];
    } else {
      TreeIsMeaning(ls, i, j - 1);
      MeaningAfterEntry(ls, i, j - 1, TreeAt(ls, i, j - 1));
      assert ls[i][..j][..j - 1] == ls[i][..j - 1];
    }
  }

  /** Whatever the layers list, reading them puts every path in form. */
  lemma ReadInForm(layers: seq<seq<Raw>>)
    ensures AllFormed(EntriesOf(layers))
  {
    var ls := EntriesOf(layers);
    forall i | 0 <= i < |layers| ensures Formed(ls[i]) { LayerInForm(i, layers[i]); EntriesOfAt(layers, i); }
  }

  lemma LayerInForm(i: nat, raws: seq<Raw>)
    ensures Formed(Entries(i, raws))
  {
    forall j | 0 <= j < |raws| ensures InForm(Entries(i, raws)[j].path) {
      EntriesAt(i, raws, j);
      PartsAreClean(raws[j].path);
      PartsOfJoin(Parts(raws[j].path));
    }
  }

  lemma {:induction false} FlattenIsTree(ls: Layers, n: nat)
    requires n <= |ls|
    ensures TreeOf(ls, n) == TreeBelow(ls, n)
  {
    if n > 0 {
      FlattenIsTree(ls, n - 1);
      assert ls[n - 1][..|ls[n - 1]|] == ls[n - 1];
    }
  }

  /** Each entry says where it was listed. */
  lemma PlaceOf(layers: seq<seq<Raw>>, i: int, j: int)
    requires InRange(EntriesOf(layers), i, j)
    ensures i < |layers| && j < |layers[i]| && EntriesOf(layers)[i][j] == EntryOf(i, j, layers[i][j])
  {
    EntriesOfAt(layers, i);
    EntriesAt(i, layers[i], j);
  }

  /** For every list of layers: a path of the flattened tree holds an entry exactly when that entry is at
      the path, no later layer's whiteout or opaque marker covers it, and no later entry took its place. */
  lemma FlattenIsMeaning(layers: seq<seq<Raw>>)
    requires layers != []
    ensures var ls: Layers := EntriesOf(layers);
            Upto(ls, |ls| - 1, |ls[|ls| - 1]|) && IsMeaning(ls, |ls| - 1, |ls[|ls| - 1]|, FlattenTo(layers))
  {
    var ls: Layers := EntriesOf(layers);
    FlattenIsTree(ls, |ls|);
    ReadInForm(layers);
    TreeIsMeaning(ls, |ls| - 1, |ls[|ls| - 1]|);
  }

  /** The entry says where it is listed. */
  predicate InItsPlace(ls: Layers, i: int, j: int)
    requires InRange(ls, i, j)
  {
    ls[i][j].source.layer == i && ls[i][j].source.index == j
  }

  lemma HoldsWhatWins(ls: Layers, tree: Tree, i: int, j: int, p: string)
    requires ls != [] && InRange(ls, i, j) && IsMeaning(ls, |ls| - 1, |ls[|ls| - 1]|, tree)
    requires forall k, l | InRange(ls, k, l) :: InItsPlace(ls, k, l)
    ensures p in tree && tree[p] == ls[i][j].source <==> Wins(ls, i, j, |ls| - 1, |ls[|ls| - 1]|, p)
  {
    if p in tree && tree[p] == ls[i][j].source {
      var k, l :| Wins(ls, k, l, |ls| - 1, |ls[|ls| - 1]|, p);
      assert InItsPlace(ls, k, l) && InItsPlace(ls, i, j);
    }
  }

  /** The same, of one entry: it is what the tree has at `p` exactly when it wins there. */
  lemma FlattenHolds(layers: seq<seq<Raw>>, i: int, j: int, p: string)
    requires layers != [] && InRange(EntriesOf(layers), i, j)
    ensures var ls: Layers := EntriesOf(layers);
            p in FlattenTo(layers) && FlattenTo(layers)[p] == ls[i][j].source <==>
            Wins(ls, i, j, |ls| - 1, |ls[|ls| - 1]|, p)
  {
    var ls: Layers := EntriesOf(layers);
    FlattenIsMeaning(layers);
    forall k, l | InRange(ls, k, l) ensures InItsPlace(ls, k, l) { PlaceOf(layers, k, l); }
    HoldsWhatWins(ls, FlattenTo(layers), i, j, p);
  }

  // ------------------------------------------------------------- what is refused --

  /** An entry is refused exactly when its path leads out of the image, or when it is no whiteout and of an
      unsupported type or a hard link that leads out. */
  lemma RefusedExactly(raw: Raw)
    ensures var w, target := Parts(raw.path), if raw.link.Some? then raw.link.value else "";
            RefusedRaw(raw) <==>
            || ".." in Pieces(raw.path)
            || ((w == [] || GoesIn(w)) && (raw.kind.Unsupported? || (raw.kind.Link? && ".." in Pieces(target))))
  {
    PartsAreClean(raw.path);
    PartsOfJoin(Parts(raw.path));
    SplitJoin(Normalised(raw.path));
  }

  lemma KeptFrom(ps: seq<string>, part: string)
    requires part in Kept(ps)
    ensures part in ps
  {
  }

  /** Each path of the flattened tree is some entry's, as the layer lists it. */
  lemma FromEntry(layers: seq<seq<Raw>>, p: string) returns (i: int, j: int)
    requires p in FlattenTo(layers)
    ensures 0 <= i < |layers| && 0 <= j < |layers[i]| && p == Normalised(layers[i][j].path) && GoesIn(Parts(p))
    ensures FlattenTo(layers)[p].kind == layers[i][j].kind && FlattenTo(layers)[p].link == layers[i][j].link
  {
    var ls: Layers := EntriesOf(layers);
    FlattenIsMeaning(layers);
    i, j :| Wins(ls, i, j, |ls| - 1, |ls[|ls| - 1]|, p);
    PlaceOf(layers, i, j);
  }

  lemma UnrefusedWithin(raw: Raw)
    requires !RefusedRaw(raw) && GoesIn(Parts(Normalised(raw.path)))
    ensures IsPath(Normalised(raw.path)) && !raw.kind.Unsupported?
    ensures raw.kind.Link? ==> !LeavesRoot(if raw.link.Some? then raw.link.value else "")
  {
    RefusedExactly(raw);
    PartsAreClean(raw.path);
    PartsOfJoin(Parts(raw.path));
    if ".." in Parts(raw.path) { KeptFrom(Pieces(raw.path), ".."); }
  }

  /** Nothing in a tree that is opened leads out of it: every path and every hard link stays within the image, and
      every entry is of a type that is supported. */
  lemma OpenedStaysWithin(layers: seq<seq<Raw>>, p: string)
    requires (forall i | 0 <= i < |layers| :: !Refuses(layers, i)) && p in FlattenTo(layers)
    ensures IsPath(p) && p != ""
    ensures var source := FlattenTo(layers)[p];
            && !source.kind.Unsupported?
            && (source.kind.Link? ==> !LeavesRoot(if source.link.Some? then source.link.value else ""))
  {
    var i, j := FromEntry(layers, p);
    assert !Refuses(layers, i) && !RefusedRaw(layers[i][j]);
    UnrefusedWithin(layers[i][j]);
  }

  // --------------------------------------------- directories that merge always --

  /** The rule of the image specification: a directory always merges with what is below it. */
  function Overlaid(tree: Tree, e: Entry): Tree {
    if !IsPut(e) then tree
    else (if e.source.kind.Directory? then tree else RemoveUnder(tree, e.path))[e.path := e.source]
  }

  ghost function OverlaidAll(tree: Tree, es: seq<Entry>): Tree {
    if es == [] then tree else Overlaid(OverlaidAll(tree, es[..|es| - 1]), es[|es| - 1])
  }

  ghost function OverlayAt(ls: Layers, i: int, j: int): Tree
    requires Upto(ls, i, j)
    decreases i, 1
  {
    OverlaidAll(HideAll(OverlayBelow(ls, i), ls[i]), ls[i][..j])
  }

  ghost function OverlayBelow(ls: Layers, i: int): Tree
    requires 0 <= i <= |ls|
    decreases i, 0
  {
    if i == 0 then map[] else OverlayAt(ls, i - 1, |ls[i - 1]|)
  }

  /** A directory is never listed over one that was only implied by what is below it. */
  ghost predicate NoneImplied(ls: Layers) {
    forall i, j | InRange(ls, i, j) && IsPut(ls[i][j]) && ls[i][j].source.kind.Directory? ::
      MergesAt(TreeAt(ls, i, j), ls[i][j].path)
  }

  ghost predicate MergesAt(tree: Tree, q: string) {
    HasDir(tree, q) || forall p | p in tree :: !Under(p, q)
  }

  lemma TreeNext(ls: Layers, i: int, j: int)
    requires InRange(ls, i, j)
    ensures TreeAt(ls, i, j + 1) == Put(TreeAt(ls, i, j), ls[i][j])
    ensures OverlayAt(ls, i, j + 1) == Overlaid(OverlayAt(ls, i, j), ls[i][j])
  {
    assert ls[i][..j + 1][..j] == ls[i][..j];
  }

  lemma PutMerges(tree: Tree, e: Entry)
    requires IsPut(e) && e.source.kind.Directory?
    ensures Put(tree, e) == Overlaid(tree, e) <==> HasDir(tree, e.path) || forall p | p in tree && p != e.path :: !Under(p, e.path)
  {
    if !HasDir(tree, e.path) {
      if p :| p in tree && p != e.path && Under(p, e.path) {
        assert p in Overlaid(tree, e) && p !in Put(tree, e);
      } else {
        assert Put(tree, e) == Overlaid(tree, e);
      }
    }
  }

  lemma NotUnderItself(p: string)
    requires p != ""
    ensures !Under(p, p)
  {
  }

  lemma {:induction false} OverlayHolds(ls: Layers, i: int, j: int)
    requires NoneImplied(ls) && Upto(ls, i, j)
    ensures TreeAt(ls, i, j) == OverlayAt(ls, i, j)
    decreases i, j
  {
    if j == 0 {
      if i > 0 { OverlayHolds(ls, i - 1, |ls[i - 1]|); }
      assert ls[i][..0] == [];
    } else {
      OverlayHolds(ls, i, j - 1);
      TreeNext(ls, i, j - 1);
      var e := ls[i][j - 1];
      if IsPut(e) && e.source.kind.Directory? {
        assert MergesAt(TreeAt(ls, i, j - 1), e.path);
        PutMerges(TreeAt(ls, i, j - 1), e);
      }
    }
  }

  /** The tree is the specification's at every entry exactly when no directory is listed over an implied one. */
  lemma OverlayExactly(ls: Layers)
    ensures (forall i, j | Upto(ls, i, j) :: TreeAt(ls, i, j) == OverlayAt(ls, i, j)) <==> NoneImplied(ls)
  {
    if NoneImplied(ls) {
      forall i, j | Upto(ls, i, j) ensures TreeAt(ls, i, j) == OverlayAt(ls, i, j) { OverlayHolds(ls, i, j); }
    }
    if forall i, j | Upto(ls, i, j) :: TreeAt(ls, i, j) == OverlayAt(ls, i, j) {
      forall i, j | InRange(ls, i, j) && IsPut(ls[i][j]) && ls[i][j].source.kind.Directory?
        ensures MergesAt(TreeAt(ls, i, j), ls[i][j].path)
      {
        TreeNext(ls, i, j);
        assert Upto(ls, i, j) && Upto(ls, i, j + 1);
        PutMerges(TreeAt(ls, i, j), ls[i][j]);
        NotUnderItself(ls[i][j].path);
      }
    }
  }

  // ----------------------------------------------------- layers that list parents --

  /** Every directory above a path of the tree is in it, as a directory. */
  ghost predicate ParentsIn(tree: Tree, p: string) {
    forall m | 0 <= m < |p| && p[m] == '/' :: HasDir(tree, p[..m])
  }

  ghost predicate Closed(tree: Tree) { forall p | p in tree :: ParentsIn(tree, p) }

  /** Each entry's directories are listed before it, in its layer or below. */
  ghost predicate ParentsFirst(ls: Layers) {
    forall i, j | InRange(ls, i, j) && IsPut(ls[i][j]) :: ParentsIn(TreeAt(ls, i, j), ls[i][j].path)
  }

  lemma UnderChain(p: string, m: int, q: string)
    requires 0 <= m < |p| && p[m] == '/' && (p[..m] == q || Under(p[..m], q))
    ensures Under(p, q)
  {
  }

  lemma HideKeepsClosed(tree: Tree, es: seq<Entry>)
    requires Closed(tree)
    ensures Closed(HideAll(tree, es))
  {
    HideAllHides(tree, es);
    var tree' := HideAll(tree, es);
    forall p, m | p in tree' && 0 <= m < |p| && p[m] == '/' ensures HasDir(tree', p[..m]) {
      assert HasDir(tree, p[..m]);
      if Hidden(es, p[..m]) {
        var j :| 0 <= j < |es| && Hides(es[j].path, p[..m]);
        HidesBelow(es[j].path, p, m);
      }
    }
  }

  lemma HidesBelow(path: string, p: string, m: int)
    requires 0 <= m < |p| && p[m] == '/' && Hides(path, p[..m])
    ensures Hides(path, p)
  {
    var (dir, name) := Split(path);
    if name == OPAQUE {
      UnderChain(p, m, dir);
    } else {
      UnderChain(p, m, JoinDir(dir, name[4..]));
    }
  }

  lemma PutKeepsClosed(tree: Tree, e: Entry)
    requires Closed(tree) && (IsPut(e) ==> ParentsIn(tree, e.path))
    ensures Closed(Put(tree, e))
  {
    var tree' := Put(tree, e);
    if IsPut(e) {
      forall p, m | p in tree' && 0 <= m < |p| && p[m] == '/' ensures HasDir(tree', p[..m]) {
        assert p in tree || p == e.path;
        assert ParentsIn(tree, p);
        assert HasDir(tree, p[..m]);
        if p[..m] == e.path || Under(p[..m], e.path) { UnderChain(p, m, e.path); }
      }
    }
  }

  lemma {:induction false} StaysClosed(ls: Layers, i: int, j: int)
    requires ParentsFirst(ls) && Upto(ls, i, j)
    ensures Closed(TreeAt(ls, i, j))
    decreases i, j
  {
    if j == 0 {
      if i > 0 { StaysClosed(ls, i - 1, |ls[i - 1]|); }
      HideKeepsClosed(TreeBelow(ls, i), ls[i]);
      assert ls[i][..0] == [];
    } else {
      StaysClosed(ls, i, j - 1);
      TreeNext(ls, i, j - 1);
      PutKeepsClosed(TreeAt(ls, i, j - 1), ls[i][j - 1]);
    }
  }

  /** Layers that list every directory before what is in it, as layer tars do, are read as the
      specification says. */
  lemma ParentsFirstOverlays(ls: Layers)
    requires ParentsFirst(ls)
    ensures NoneImplied(ls)
  {
    forall i, j | InRange(ls, i, j) && IsPut(ls[i][j]) && ls[i][j].source.kind.Directory?
      ensures MergesAt(TreeAt(ls, i, j), ls[i][j].path)
    {
      StaysClosed(ls, i, j);
      var tree, q := TreeAt(ls, i, j), ls[i][j].path;
      if p :| p in tree && Under(p, q) {
        assert p[|q|] == '/' && p[..|q|] == q;
      }
    }
  }

  /** A directory listed over one that was only implied clears it: a layer with `d/x` and then one with
      the directory `d` lose `x`. */
  lemma ImpliedDirCleared()
    ensures var ls := [[Entry("d/x", Source(0, 0, Regular, None))], [Entry("d", Source(1, 0, Directory, None))]];
            && "d/x" !in TreeAt(ls, 1, 1)
            && "d/x" in OverlayAt(ls, 1, 1)
  {
    var e, f := Entry("d/x", Source(0, 0, Regular, None)), Entry("d", Source(1, 0, Directory, None));
    var ls := [[e], [f]];
    assert LastSlash("d") == -1 && Split("d") == ("", "d");
    var path := "d/x";
    assert path == "d" + "/" + "x";
    LastSlashIs("d", "x");
    assert LastSlash(path) == 1 && path[..1] == "d" && path[2..] == "x";
    assert Split(path) == ("d", "x");
    assert IsPut(e) && IsPut(f);
    assert ls[0][..0] == [] && ls[1][..0] == [];
    TreeNext(ls, 0, 0);
    TreeNext(ls, 1, 0);
    assert !Hidden(ls[0], "d/x") && !Hidden(ls[1], "d/x");
    HideAllHides(map[], ls[0]);
    assert TreeAt(ls, 0, 1) == map["d/x" := e.source];
    assert OverlayAt(ls, 0, 1) == map["d/x" := e.source];
    HideAllHides(TreeAt(ls, 0, 1), ls[1]);
    assert "d/x" in TreeAt(ls, 1, 0) && "d" !in TreeAt(ls, 1, 0);
    assert Under("d/x", "d");
  }

  lemma SparesParent(path: string)
    requires path != "" ==> path[0] != '/'
    requires Split(path).1 == OPAQUE && path != OPAQUE
    ensures !Hides(path, Split(path).0)
  {
    assert Split(path).0 == "" ==> path == Split(path).1;
  }

  lemma SparesSibling(path: string)
    requires path != "" ==> path[0] != '/'
    requires WHITEOUT <= Split(path).1 && Split(path).1 != OPAQUE && path != WHITEOUT
    ensures !Hides(path, JoinDir(Split(path).0, Split(path).1[4..]) + "0")
  {
    var (dir, name) := Split(path);
    var hidden := JoinDir(dir, name[4..]);
    assert dir == "" ==> path == name;
    assert hidden != "" by { if dir == "" { assert name == WHITEOUT + name[4..]; } }
    assert (hidden + "0")[|hidden|] == '0';
  }

  /** Besides the root's opaque marker, a whiteout of the empty name at the root hides everything below
      its layer too, and nothing else does. */
  lemma HidesEverything(path: string)
    requires path != "" ==> path[0] != '/'
    ensures (forall p :: Hides(path, p)) <==> path == OPAQUE || path == WHITEOUT
  {
    if path == OPAQUE || path == WHITEOUT {
      NoSlash(path);
    } else if Split(path).1 == OPAQUE {
      SparesParent(path);
    } else if WHITEOUT <= Split(path).1 {
      SparesSibling(path);
    } else {
      assert !Hides(path, "");
    }
  }

  lemma NoSlash(path: string)
    requires path == OPAQUE || path == WHITEOUT
    ensures LastSlash(path) == -1 && Split(path) == ("", path)
  {
    assert '/' !in path;
  }
}

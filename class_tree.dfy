/**
 * The class tree TVTK builds over a module's classes: one node per class with its
 * inheritance level, its parents and its children, and the nodes grouped into layers by level.
 * A hierarchy is the list of the module's classes in definition order; a class names its
 * bases by their positions, which come before it, so the bases relation is acyclic.
 */
module ClassTree {
  import opened Common

  datatype ClassDef = ClassDef(name: string, bases: seq<nat>)

  type Hierarchy = seq<ClassDef>

  /** Every base of a class is a class defined before it. */
  predicate WellFormed(h: Hierarchy)
  {
    forall i, k :: 0 <= i < |h| && 0 <= k < |h[i].bases| ==> h[i].bases[k] < i
  }

  // ----- `get_level`, the reference definition -----

  /** `get_level(klass)`: 0 without bases, else one more than the largest level of a base. */
  function Level(h: Hierarchy, i: nat): nat
    requires WellFormed(h) && i < |h|
    decreases i, 1
  {
    if h[i].bases == [] then 0 else 1 + MaxBaseLevel(h, i, |h[i].bases|)
  }

  /** The largest level among the first `k` bases of class `i`. */
  function MaxBaseLevel(h: Hierarchy, i: nat, k: nat): nat
    requires WellFormed(h) && i < |h| && 0 < k <= |h[i].bases|
    decreases i, 0, k
  {
    var l := Level(h, h[i].bases[k - 1]);
    if k == 1 then l
    else
      var m := MaxBaseLevel(h, i, k - 1);
      if m < l then l else m
  }

  lemma {:induction false} MaxBaseLevelIsMax(h: Hierarchy, i: nat, k: nat)
    requires WellFormed(h) && i < |h| && 0 < k <= |h[i].bases|
    ensures forall j :: 0 <= j < k ==> Level(h, h[i].bases[j]) <= MaxBaseLevel(h, i, k)
    ensures exists j :: 0 <= j < k && Level(h, h[i].bases[j]) == MaxBaseLevel(h, i, k)
    decreases k
  {
    if k > 1 {
      MaxBaseLevelIsMax(h, i, k - 1);
    } else {
      assert Level(h, h[i].bases[0]) == MaxBaseLevel(h, i, 1);
    }
  }

  /**
   * A class is at level 0 exactly when it has no bases; every base is at a lower level, and
   * some base is exactly one level lower.
   */
  lemma LevelOfBases(h: Hierarchy, i: nat)
    requires WellFormed(h) && i < |h|
    ensures Level(h, i) == 0 <==> h[i].bases == []
    ensures forall k :: 0 <= k < |h[i].bases| ==> Level(h, h[i].bases[k]) < Level(h, i)
    ensures h[i].bases != [] ==> exists k :: 0 <= k < |h[i].bases| && Level(h, h[i].bases[k]) + 1 == Level(h, i)
  {
    if h[i].bases != [] {
      MaxBaseLevelIsMax(h, i, |h[i].bases|);
    }
  }

  // ----- The tree, built in one pass over the classes -----

  /** The largest entry of `levels` at the first `k` positions of `bases`. */
  function MaxAt(levels: seq<nat>, bases: seq<nat>, k: nat): nat
    requires 0 < k <= |bases| && forall j :: 0 <= j < |bases| ==> bases[j] < |levels|
  {
    var l := levels[bases[k - 1]];
    if k == 1 then l
    else
      var m := MaxAt(levels, bases, k - 1);
      if m < l then l else m
  }

  /** A class's level from the levels already given to the classes before it. */
  function LevelFrom(levels: seq<nat>, bases: seq<nat>): nat
    requires forall j :: 0 <= j < |bases| ==> bases[j] < |levels|
  {
    if bases == [] then 0 else 1 + MaxAt(levels, bases, |bases|)
  }

  /** The levels of the first `n` classes, each computed from those before it. */
  function Levels(h: Hierarchy, n: nat): (levels: seq<nat>)
    requires WellFormed(h) && n <= |h|
    ensures |levels| == n
  {
    if n == 0 then []
    else
      var levels := Levels(h, n - 1);
      var bases := h[n - 1].bases;
      assert forall j :: 0 <= j < |bases| ==> bases[j] < n - 1;
      levels + [LevelFrom(levels, bases)]
  }

  lemma {:induction false} MaxAtAgrees(h: Hierarchy, levels: seq<nat>, i: nat, k: nat)
    requires WellFormed(h) && i < |h| && |levels| == i && 0 < k <= |h[i].bases|
    requires forall j :: 0 <= j < i ==> levels[j] == Level(h, j)
    ensures MaxAt(levels, h[i].bases, k) == MaxBaseLevel(h, i, k)
    decreases k
  {
    if k > 1 {
      MaxAtAgrees(h, levels, i, k - 1);
    }
  }

  /** The tree's one-pass levels are `get_level`'s levels. */
  lemma {:induction false} LevelsAgree(h: Hierarchy, n: nat)
    requires WellFormed(h) && n <= |h|
    ensures forall i :: 0 <= i < n ==> Levels(h, n)[i] == Level(h, i)
  {
    if n > 0 {
      LevelsAgree(h, n - 1);
      var levels := Levels(h, n - 1);
      assert Levels(h, n) == levels + [LevelFrom(levels, h[n - 1].bases)];
      if h[n - 1].bases != [] {
        MaxAtAgrees(h, levels, n - 1, |h[n - 1].bases|);
      }
    }
  }

  /** The children of class `j` among the first `n` classes, in the order they are linked. */
  function Children(h: Hierarchy, n: nat, j: nat): seq<nat>
    requires n <= |h|
  {
    if n == 0 then []
    else Children(h, n - 1, j) + (if j in h[n - 1].bases then [n - 1] else [])
  }

  /** The classes at a given level, in definition order. */
  function Layer(levels: seq<nat>, k: nat): seq<nat>
  {
    if levels == [] then []
    else Layer(levels[..|levels| - 1], k) + (if levels[|levels| - 1] == k then [|levels| - 1] else [])
  }

  /** One more than the largest level, or 0 for an empty module. */
  function Height(levels: seq<nat>): (n: nat)
    ensures forall i :: 0 <= i < |levels| ==> levels[i] < n
  {
    if levels == [] then 0
    else
      var m := Height(levels[..|levels| - 1]);
      assert forall i :: 0 <= i < |levels| - 1 ==> levels[..|levels| - 1][i] == levels[i];
      if m <= levels[|levels| - 1] then levels[|levels| - 1] + 1 else m
  }

  /** A node of the tree: its class's name, its level, its parents and its children. */
  datatype Node = Node(name: string, level: nat, parents: seq<nat>, children: seq<nat>)

  /** The tree: `nodes` in definition order, and `tree[k]` the positions of the nodes at level `k`. */
  datatype Tree = Tree(nodes: seq<Node>, tree: seq<seq<nat>>)

  /** `ClassTree(module).create()` over a hierarchy. */
  function Create(h: Hierarchy): (t: Tree)
    requires WellFormed(h)
    ensures |t.nodes| == |h|
  {
    var levels := Levels(h, |h|);
    Tree(seq(|h|, i requires 0 <= i < |h| => Node(h[i].name, levels[i], h[i].bases, Children(h, |h|, i))),
         seq(Height(levels), k requires 0 <= k => Layer(levels, k)))
  }

  // ----- The invariants the class-tree tests check -----

  /** Every node's level is `get_level` of its class. */
  lemma NodeLevels(h: Hierarchy)
    requires WellFormed(h)
    ensures forall i :: 0 <= i < |h| ==> Create(h).nodes[i].level == Level(h, i)
  {
    LevelsAgree(h, |h|);
  }

  lemma {:induction false} LayerMembers(levels: seq<nat>, k: nat)
    ensures forall i: int :: i in Layer(levels, k) <==> 0 <= i < |levels| && levels[i] == k
  {
    if levels != [] {
      var init := levels[..|levels| - 1];
      LayerMembers(init, k);
      assert forall i :: 0 <= i < |init| ==> init[i] == levels[i];
    }
  }

  /** The sizes of the first `m` layers, added up. */
  function LayerSizes(levels: seq<nat>, m: nat): nat
  {
    if m == 0 then 0 else LayerSizes(levels, m - 1) + |Layer(levels, m - 1)|
  }

  lemma {:induction false} LayerSizesSnoc(levels: seq<nat>, x: nat, m: nat)
    ensures LayerSizes(levels + [x], m) == LayerSizes(levels, m) + (if x < m then 1 else 0)
  {
    var longer := levels + [x];
    assert longer[..|longer| - 1] == levels;
    if m > 0 {
      LayerSizesSnoc(levels, x, m - 1);
    }
  }

  lemma {:induction false} LayerSizesCount(levels: seq<nat>, m: nat)
    requires forall i :: 0 <= i < |levels| ==> levels[i] < m
    ensures LayerSizes(levels, m) == |levels|
  {
    if levels == [] {
      LayerSizesEmpty(m);
    } else {
      var init := levels[..|levels| - 1];
      assert init + [levels[|levels| - 1]] == levels;
      assert forall i :: 0 <= i < |init| ==> init[i] == levels[i];
      LayerSizesCount(init, m);
      LayerSizesSnoc(init, levels[|levels| - 1], m);
    }
  }

  lemma {:induction false} LayerSizesEmpty(m: nat)
    ensures LayerSizes([], m) == 0
  {
    if m > 0 {
      LayerSizesEmpty(m - 1);
    }
  }

  /**
   * The layers partition the nodes: their sizes add up to the number of nodes, each node
   * lies in the layer of its level, and a layer holds only nodes of that level.
   */
  lemma LayersPartition(h: Hierarchy)
    requires WellFormed(h)
    ensures var t := Create(h);
            LayerSizes(Levels(h, |h|), |t.tree|) == |t.nodes|
            && (forall k, i :: 0 <= k < |t.tree| && i in t.tree[k] ==> i < |t.nodes| && t.nodes[i].level == k)
            && (forall i :: 0 <= i < |t.nodes| ==> t.nodes[i].level < |t.tree| && i in t.tree[t.nodes[i].level])
  {
    var levels := Levels(h, |h|);
    LayerSizesCount(levels, Height(levels));
    forall k | 0 <= k < Height(levels) {
      LayerMembers(levels, k);
    }
  }

  /** The first layer holds exactly the classes without bases. */
  lemma RootLayer(h: Hierarchy)
    requires WellFormed(h) && h != []
    ensures var t := Create(h);
            |t.tree| > 0 && forall i: int :: i in t.tree[0] <==> 0 <= i < |h| && h[i].bases == []
  {
    var levels := Levels(h, |h|);
    LevelsAgree(h, |h|);
    LayerMembers(levels, 0);
    forall i | 0 <= i < |h| {
      LevelOfBases(h, i);
    }
  }

  lemma {:induction false} ChildrenMembers(h: Hierarchy, n: nat, j: nat)
    requires n <= |h|
    ensures forall c: int :: c in Children(h, n, j) <==> 0 <= c < n && j in h[c].bases
  {
    if n > 0 {
      ChildrenMembers(h, n - 1, j);
    }
  }

  /**
   * Parents and children agree: a node's parents are its class's bases, and a node is among
   * the children of another exactly when that other is one of its bases.
   */
  lemma ParentChild(h: Hierarchy)
    requires WellFormed(h)
    ensures var t := Create(h);
            (forall i :: 0 <= i < |h| ==> t.nodes[i].parents == h[i].bases && t.nodes[i].name == h[i].name)
            && (forall p, c :: 0 <= p < |h| && 0 <= c < |h| ==> (c in t.nodes[p].children <==> p in t.nodes[c].parents))
  {
    forall p | 0 <= p < |h| {
      ChildrenMembers(h, |h|, p);
    }
  }

  // ----- Ancestors along a single-inheritance chain -----

  predicate SingleInheritance(h: Hierarchy)
  {
    forall i :: 0 <= i < |h| ==> |h[i].bases| <= 1
  }

  /** `get_ancestors` on a single-inheritance chain: the parent, its parent, and so on up to the root. */
  function Ancestors(h: Hierarchy, i: nat): (a: seq<nat>)
    requires WellFormed(h) && SingleInheritance(h) && i < |h|
    ensures forall k :: 0 <= k < |a| ==> a[k] < i
    decreases i
  {
    if h[i].bases == [] then []
    else
      var p := h[i].bases[0];
      assert p < i;
      [p] + Ancestors(h, p)
  }

  /** `a` is reached from `i` by following bases one or more times. */
  predicate AncestorOf(h: Hierarchy, a: nat, i: nat)
    requires WellFormed(h) && i < |h|
    decreases i
  {
    exists k :: 0 <= k < |h[i].bases| && (h[i].bases[k] == a || AncestorOf(h, a, h[i].bases[k]))
  }

  /**
   * On a single-inheritance chain the ancestors start with the parent, each next one is the
   * parent of the one before, the last is a root, there are as many as the level, and they
   * are exactly the classes reachable through bases (never the class itself).
   */
  lemma {:induction false} AncestorsChain(h: Hierarchy, i: nat)
    requires WellFormed(h) && SingleInheritance(h) && i < |h|
    ensures var a := Ancestors(h, i);
            |a| == Level(h, i)
            && (a != [] ==> a[0] == h[i].bases[0] && h[a[|a| - 1]].bases == [])
            && (forall k :: 0 <= k < |a| - 1 ==> h[a[k]].bases == [a[k + 1]])
            && (forall x :: x in a <==> AncestorOf(h, x, i))
            && i !in a
    decreases i
  {
    if h[i].bases != [] {
      var p := h[i].bases[0];
      assert h[i].bases == [p];
      AncestorsChain(h, p);
      var rest := Ancestors(h, p);
      var a := [p] + rest;
      assert Level(h, i) == 1 + Level(h, p) by {
        assert MaxBaseLevel(h, i, 1) == Level(h, p);
      }
      forall k | 0 <= k < |a| - 1 ensures h[a[k]].bases == [a[k + 1]] {
        if k == 0 {
          if rest != [] {
            assert a[1] == rest[0];
            assert |h[p].bases| == 1;
          }
        } else {
          assert a[k] == rest[k - 1] && a[k + 1] == rest[k];
        }
      }
      forall x ensures x in a <==> AncestorOf(h, x, i) {
        if AncestorOf(h, x, i) {
          var k :| 0 <= k < |h[i].bases| && (h[i].bases[k] == x || AncestorOf(h, x, h[i].bases[k]));
          assert k == 0;
        }
      }
    }
  }

  /** `get_node(name)`: the first node with that name. */
  function FindNode(h: Hierarchy, name: string): (r: Option<nat>)
    ensures r.Some? ==> r.value < |h| && h[r.value].name == name
                        && forall j :: 0 <= j < r.value ==> h[j].name != name
    ensures r.None? <==> forall j :: 0 <= j < |h| ==> h[j].name != name
  {
    FirstWith(h, (c: ClassDef) => c.name, name)
  }

  // ----- The VTK array hierarchy and the built-in exception chain -----

  /** A single-inheritance chain: each named class derives from the one named before it. */
  function Chain(names: seq<string>): (h: Hierarchy)
    ensures |h| == |names| && WellFormed(h) && SingleInheritance(h)
    ensures forall i :: 0 <= i < |h| ==> h[i] == ClassDef(names[i], if i == 0 then [] else [i - 1])
  {
    seq(|names|, i requires 0 <= i < |names| => ClassDef(names[i], if i == 0 then [] else [i - 1]))
  }

  /** The positions below `i`, nearest first. */
  function Below(i: nat): seq<nat>
  {
    if i == 0 then [] else [i - 1] + Below(i - 1)
  }

  /** In a chain, the ancestors of a class are all the classes before it, nearest first. */
  lemma {:induction false} ChainAncestors(names: seq<string>, i: nat)
    requires i < |names|
    ensures Ancestors(Chain(names), i) == Below(i)
  {
    if i > 0 {
      ChainAncestors(names, i - 1);
    }
  }

  const VtkArrays: Hierarchy := Chain(["vtkObjectBase", "vtkObject", "vtkAbstractArray", "vtkDataArray"])

  lemma VtkArraysLevels()
    ensures WellFormed(VtkArrays) && Levels(VtkArrays, 4) == [0, 1, 2, 3]
  {
    assert WellFormed(VtkArrays);
    assert Levels(VtkArrays, 1) == [0];
    assert Levels(VtkArrays, 2) == [0, 1];
    assert Levels(VtkArrays, 3) == [0, 1, 2];
  }

  /** `get_node('vtkObject')` is the node of that name, and its first parent is `vtkObjectBase`. */
  lemma VtkObjectNode()
    ensures FindNode(VtkArrays, "vtkObject") == Some(1)
    ensures WellFormed(VtkArrays) && Create(VtkArrays).nodes[1].parents == [0]
    ensures VtkArrays[0].name == "vtkObjectBase"
  {
    assert WellFormed(VtkArrays);
    assert VtkArrays[0].name != "vtkObject";
    ParentChild(VtkArrays);
  }

  /** The first layer is `vtkObjectBase` alone. */
  lemma VtkRootLayer()
    ensures WellFormed(VtkArrays) && Create(VtkArrays).tree[0] == [0]
  {
    VtkArraysLevels();
    var levels := [0, 1, 2, 3];
    LayerOfLevels(levels);
    HeightOfLevels(levels);
  }

  lemma LayerOfLevels(levels: seq<nat>)
    requires levels == [0, 1, 2, 3]
    ensures Layer(levels, 0) == [0]
  {
    assert levels[..3] == [0, 1, 2] && levels[..3][..2] == [0, 1] && levels[..3][..2][..1] == [0];
    assert Layer([0], 0) == [0] by {
      assert [0][..0] == [];
    }
    assert Layer([0, 1], 0) == [0];
    assert Layer([0, 1, 2], 0) == [0];
  }

  lemma HeightOfLevels(levels: seq<nat>)
    requires levels == [0, 1, 2, 3]
    ensures Height(levels) == 4
  {
    assert levels[..3] == [0, 1, 2] && levels[..3][..2] == [0, 1] && levels[..3][..2][..1] == [0];
    assert Height([0]) == 1 by {
      assert [0][..0] == [];
    }
    assert Height([0, 1]) == 2;
    assert Height([0, 1, 2]) == 3;
  }

  /** `vtkDataArray`'s ancestors are `vtkAbstractArray`, `vtkObject` and `vtkObjectBase`, in that order. */
  lemma VtkDataArrayAncestors()
    ensures WellFormed(VtkArrays) && SingleInheritance(VtkArrays)
    ensures Ancestors(VtkArrays, 3) == [2, 1, 0]
  {
    ChainAncestors(["vtkObjectBase", "vtkObject", "vtkAbstractArray", "vtkDataArray"], 3);
    assert Below(3) == [2, 1, 0];
  }

  /** The exception chain of the built-in module, `TabError` at the bottom. */
  const ExceptionNames := ["object", "BaseException", "Exception", "StandardError",
                           "SyntaxError", "IndentationError", "TabError"]

  const Exceptions: Hierarchy := Chain(ExceptionNames)

  lemma TabErrorAncestors()
    ensures WellFormed(Exceptions) && SingleInheritance(Exceptions)
    ensures Exceptions[6].name == "TabError" && Exceptions[5].name == "IndentationError"
    ensures Ancestors(Exceptions, 6) == [5, 4, 3, 2, 1, 0]
  {
    ChainAncestors(ExceptionNames, 6);
    assert Below(6) == [5, 4, 3, 2, 1, 0];
  }

  /** `TabError` is six levels below `object`. */
  lemma TabErrorLevel()
    ensures WellFormed(Exceptions) && Level(Exceptions, 6) == 6
  {
    TabErrorAncestors();
    AncestorsChain(Exceptions, 6);
  }
}

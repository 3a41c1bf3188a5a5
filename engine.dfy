/**
 * The Mayavi engine's scene bookkeeping: the managed scenes, the current scene, object and
 * selection, the viewer references, the scene-name counter, and the guards on adding
 * sources and filters.  A TVTK scene (the render window a Mayavi scene wraps) is an opaque
 * number; a Mayavi scene is a value carrying that number and a name.  `error(...)` is a
 * failed outcome with nothing changed.
 */
module MayaviEngine {
  import opened Common

  /** A Mayavi scene: the TVTK scene it wraps, and its name. */
  datatype Scene = Scene(tvtk: nat, name: string)

  /** An object of the pipeline tree, as far as the engine tells objects apart. */
  datatype Node =
    | SceneNode(scene: Scene)                                    // a Mayavi scene (a Base)
    | PipelineNode(id: nat, running: bool, sceneAttr: Option<nat>) // a source, filter or module (a Base)
    | AdderNode(id: nat, sceneAttr: Option<nat>)                  // a tree "add" node
    | OtherNode(id: nat, sceneAttr: Option<nat>)                  // any other object

  /** `isinstance(obj, Base)`. */
  predicate IsBase(n: Node)
  {
    n.SceneNode? || n.PipelineNode?
  }

  /** `obj.scene`: a scene's own TVTK scene, otherwise the attribute if the object has one. */
  function SceneAttr(n: Node): Option<nat>
  {
    if n.SceneNode? then Some(n.scene.tvtk) else n.sceneAttr
  }

  /** One `add_child` call made by the engine: the child added under the parent. */
  datatype Child = Child(parent: Node, child: Node)

  datatype EngineError =
    | UnmanagedScene  // "This scene is not managed by mayavi"
    | NoValidObject   // "No valid current object, please select an active object."
    | NotActive       // "Current object is not active, please select an active object."
    | NoData          // "No data: cannot use a Filter/Module/ModuleManager."

  datatype Outcome = Done | Failed(error: EngineError)

  /** What the tree shows under the engine: its scenes, or a single "add scene" node. */
  datatype UiChild = SceneChild(scene: Scene) | SceneAdder

  // ----- Selection rules, as functions of the engine's fields -----

  /** `_get_current_scene`: none, the only scene, the recorded current scene, or the last scene. */
  function CurrentSceneOf(scenes: seq<Scene>, current: Option<Scene>): (r: Option<Scene>)
    ensures r.None? <==> scenes == []
    ensures |scenes| == 1 ==> r == Some(scenes[0])
    ensures (current.None? || current.value in scenes) && r.Some? ==> r.value in scenes
  {
    if |scenes| == 0 then None
    else if |scenes| == 1 then Some(scenes[0])
    else if current.Some? then current
    else Some(scenes[|scenes| - 1])
  }

  /** With several scenes, the recorded current scene wins, and without one the last scene is taken. */
  lemma CurrentSceneSeveral(scenes: seq<Scene>, current: Option<Scene>)
    requires |scenes| >= 2
    ensures current.Some? ==> CurrentSceneOf(scenes, current) == current
    ensures current.None? ==> CurrentSceneOf(scenes, current) == Some(scenes[|scenes| - 1])
  {
  }

  /** `_get_current_object`: the recorded current object, else the current scene, else nothing. */
  function CurrentObjectOf(obj: Option<Node>, scenes: seq<Scene>, current: Option<Scene>): (r: Option<Node>)
    ensures r.None? <==> obj.None? && scenes == []
    ensures obj.Some? ==> r == obj
    ensures obj.None? && r.Some? ==> r.value.SceneNode? && r.value.scene == CurrentSceneOf(scenes, current).value
  {
    if obj.Some? then obj
    else match CurrentSceneOf(scenes, current)
      case Some(s) => Some(SceneNode(s))
      case None => None
  }

  /** `_set_current_selection`: only a Base or an adder node is kept; anything else becomes None. */
  function SelectionFilter(obj: Option<Node>): (r: Option<Node>)
    ensures r.Some? <==> obj.Some? && (IsBase(obj.value) || obj.value.AdderNode?)
    ensures r.Some? ==> r == obj
  {
    match obj
    case Some(n) => if IsBase(n) || n.AdderNode? then obj else None
    case None => None
  }

  /** Setting the selection twice is setting it once. */
  lemma SelectionFilterIdempotent(obj: Option<Node>)
    ensures SelectionFilter(SelectionFilter(obj)) == SelectionFilter(obj)
  {
  }

  /** Position of the first managed scene wrapping the given TVTK scene. */
  function FirstManaged(scenes: seq<Scene>, tvtk: nat): (r: Option<nat>)
    ensures r.Some? ==> r.value < |scenes| && scenes[r.value].tvtk == tvtk
                        && forall j :: 0 <= j < r.value ==> scenes[j].tvtk != tvtk
    ensures r.None? <==> forall j :: 0 <= j < |scenes| ==> scenes[j].tvtk != tvtk
  {
    FirstWith(scenes, (s: Scene) => s.tvtk, tvtk)
  }

  predicate Manages(scenes: seq<Scene>, tvtk: nat)
  {
    exists j :: 0 <= j < |scenes| && scenes[j].tvtk == tvtk
  }

  /** The scenes left by `remove_scene(tvtk)`: the first scene wrapping it is dropped. */
  function Removed(scenes: seq<Scene>, tvtk: nat): (r: seq<Scene>)
    ensures |r| == if Manages(scenes, tvtk) then |scenes| - 1 else |scenes|
    ensures !Manages(scenes, tvtk) ==> r == scenes
  {
    match FirstManaged(scenes, tvtk)
    case None => scenes
    case Some(k) => scenes[..k] + scenes[k + 1..]
  }

  predicate DistinctScenes(scenes: seq<Scene>)
  {
    forall i, j :: 0 <= i < j < |scenes| ==> scenes[i].tvtk != scenes[j].tvtk
  }

  /** The scenes other than the one at `k`, in order. */
  lemma DropAt(scenes: seq<Scene>, k: nat)
    requires k < |scenes|
    ensures var r := scenes[..k] + scenes[k + 1..];
            |r| == |scenes| - 1
            && (forall i :: 0 <= i < k ==> r[i] == scenes[i])
            && (forall i :: k <= i < |r| ==> r[i] == scenes[i + 1])
  {
  }

  lemma DropAtDistinct(scenes: seq<Scene>, k: nat)
    requires k < |scenes| && DistinctScenes(scenes)
    ensures DistinctScenes(scenes[..k] + scenes[k + 1..])
  {
    var r := scenes[..k] + scenes[k + 1..];
    DropAt(scenes, k);
    forall i, j | 0 <= i < j < |r| ensures r[i].tvtk != r[j].tvtk {
      var i' := if i < k then i else i + 1;
      var j' := if j < k then j else j + 1;
      assert r[i] == scenes[i'] && r[j] == scenes[j'];
    }
  }

  lemma DropAtMembers(scenes: seq<Scene>, k: nat)
    requires k < |scenes| && DistinctScenes(scenes)
    ensures forall s :: s in scenes[..k] + scenes[k + 1..] <==> s in scenes && s.tvtk != scenes[k].tvtk
  {
    var r := scenes[..k] + scenes[k + 1..];
    DropAt(scenes, k);
    forall s | s in scenes && s.tvtk != scenes[k].tvtk ensures s in r {
      var i :| 0 <= i < |scenes| && scenes[i] == s;
      if i < k {
        assert r[i] == s;
      } else {
        assert r[i - 1] == s;
      }
    }
    forall s | s in r ensures s in scenes && s.tvtk != scenes[k].tvtk {
      var i :| 0 <= i < |r| && r[i] == s;
      var i' := if i < k then i else i + 1;
      assert r[i] == scenes[i'] && i' != k;
    }
  }

  /**
   * When scenes wrap distinct TVTK scenes, removing one keeps exactly the others, in order and
   * still distinct: the scenes before the removed position stay where they were and the ones
   * after it move up by one.
   */
  lemma RemovedKeepsOthers(scenes: seq<Scene>, tvtk: nat)
    requires DistinctScenes(scenes)
    ensures DistinctScenes(Removed(scenes, tvtk))
    ensures forall s :: s in Removed(scenes, tvtk) <==> s in scenes && s.tvtk != tvtk
    ensures FirstManaged(scenes, tvtk).Some? ==>
              var k, r := FirstManaged(scenes, tvtk).value, Removed(scenes, tvtk);
              (forall i :: 0 <= i < k ==> r[i] == scenes[i])
              && (forall i :: k <= i < |r| ==> r[i] == scenes[i + 1])
  {
    match FirstManaged(scenes, tvtk)
    case None => {}
    case Some(k) => {
      DropAt(scenes, k);
      DropAtDistinct(scenes, k);
      DropAtMembers(scenes, k);
    }
  }

  /** Removing the last of distinct scenes leaves the ones before it. */
  lemma RemoveLast(scenes: seq<Scene>)
    requires DistinctScenes(scenes) && scenes != []
    ensures Removed(scenes, scenes[|scenes| - 1].tvtk) == scenes[..|scenes| - 1]
  {
    var n := |scenes|;
    var k := FirstManaged(scenes, scenes[n - 1].tvtk);
    assert k == Some(n - 1);
  }

  /** `_on_select`: the first managed scene wrapping the selected object's TVTK scene, if any. */
  function SceneOfSelection(scenes: seq<Scene>, obj: Node): (r: Option<Scene>)
    ensures r.Some? ==> r.value in scenes && SceneAttr(obj) == Some(r.value.tvtk)
    ensures r.None? <==> SceneAttr(obj).None? || !Manages(scenes, SceneAttr(obj).value)
  {
    match SceneAttr(obj)
    case None => None
    case Some(t) =>
      match FirstManaged(scenes, t)
      case None => None
      case Some(k) => Some(scenes[k])
  }

  /** Where `add_source` puts a source. */
  datatype SourceTarget = IntoScene(scene: Scene) | IntoNewScene | NotManaged

  /**
   * `add_source`'s choice of scene: a given scene must be managed (the managed scene wrapping
   * the same TVTK scene is used); with none given the current scene is used, and with no
   * scene at all a new one is made.
   */
  function SourceTargetOf(scenes: seq<Scene>, given: Option<Scene>, current: Option<Scene>): (r: SourceTarget)
    ensures given.Some? ==> (r == NotManaged <==> !Manages(scenes, given.value.tvtk))
    ensures given.Some? && r.IntoScene? ==> r.scene in scenes && r.scene.tvtk == given.value.tvtk
    ensures given.None? ==> r != NotManaged
    ensures given.None? ==> (r == IntoNewScene <==> scenes == [])
    ensures given.None? && r.IntoScene? ==> Some(r.scene) == CurrentSceneOf(scenes, current)
  {
    match given
    case Some(g) =>
      (match FirstManaged(scenes, g.tvtk)
       case None => NotManaged
       case Some(k) => IntoScene(scenes[k]))
    case None =>
      (match CurrentSceneOf(scenes, current)
       case None => IntoNewScene
       case Some(s) => IntoScene(s))
  }

  /**
   * `add_filter`'s guard on the target object: it must be a Base that is not a scene and is
   * running; otherwise the error the source reports.
   */
  function FilterTargetOf(obj: Option<Node>): (r: Result<Node, EngineError>)
    ensures r.Ok? <==> obj.Some? && obj.value.PipelineNode? && obj.value.running
    ensures r.Ok? ==> r.value == obj.value
    ensures r == Err(NoValidObject) <==> obj.None? || !IsBase(obj.value)
    ensures r == Err(NoData) <==> obj.Some? && obj.value.SceneNode?
    ensures r == Err(NotActive) <==> obj.Some? && obj.value.PipelineNode? && !obj.value.running
  {
    match obj
    case None => Err(NoValidObject)
    case Some(n) =>
      if !IsBase(n) then Err(NoValidObject)
      else if n.SceneNode? then Err(NoData)
      else if n.running then Ok(n)
      else Err(NotActive)
  }

  /** `_get_children_ui_list`: the scenes, or a single adder node when helpers are shown and there are none. */
  function ChildrenUiListOf(scenes: seq<Scene>, showHelpers: bool): (r: seq<UiChild>)
    ensures showHelpers && scenes == [] ==> r == [SceneAdder]
    ensures !(showHelpers && scenes == []) ==>
              |r| == |scenes| && forall i :: 0 <= i < |r| ==> r[i] == SceneChild(scenes[i])
  {
    if showHelpers && scenes == [] then [SceneAdder]
    else seq(|scenes|, i requires 0 <= i < |scenes| => SceneChild(scenes[i]))
  }

  /** Decimal digits of a natural number. */
  function NatToString(n: nat): (s: string)
    ensures |s| >= 1 && forall i :: 0 <= i < |s| ==> '0' <= s[i] <= '9'
  {
    var d := ['0', '1', '2', '3', '4', '5', '6', '7', '8', '9'];
    if n < 10 then [d[n]] else NatToString(n / 10) + [d[n % 10]]
  }

  /** The number a string of decimal digits spells. */
  function DigitsValue(s: string): nat
    requires forall i :: 0 <= i < |s| ==> '0' <= s[i] <= '9'
  {
    if s == [] then 0 else 10 * DigitsValue(s[..|s| - 1]) + (s[|s| - 1] as int - '0' as int)
  }

  /** `%d` is the decimal representation: its digits spell the number back. */
  lemma {:induction false} NatToStringValue(n: nat)
    ensures DigitsValue(NatToString(n)) == n
  {
    if n >= 10 {
      NatToStringValue(n / 10);
      var s := NatToString(n);
      assert s[..|s| - 1] == NatToString(n / 10);
    }
  }

  /** `'TVTK Scene %d' % n`. */
  function SceneTitle(n: nat): string
  {
    "TVTK Scene " + NatToString(n)
  }

  /** Distinct counter values give distinct scene titles. */
  lemma SceneTitleInjective(m: nat, n: nat)
    ensures SceneTitle(m) == SceneTitle(n) <==> m == n
  {
    if SceneTitle(m) == SceneTitle(n) {
      assert NatToString(m) == SceneTitle(m)[11..];
      assert NatToString(n) == SceneTitle(n)[11..];
      NatToStringValue(m);
      NatToStringValue(n);
    }
  }

  /** The TVTK scene numbers of some scenes. */
  function TvtkSet(ss: seq<Scene>): set<nat>
  {
    set s | s in ss :: s.tvtk
  }

  /** The viewer map after each of `ss`'s TVTK scenes is recorded, in order, as its own viewer. */
  function WithViewers(m: map<nat, nat>, ss: seq<Scene>): map<nat, nat>
  {
    if ss == [] then m else WithViewers(m, ss[..|ss| - 1])[ss[|ss| - 1].tvtk := ss[|ss| - 1].tvtk]
  }

  /** Recording viewers adds exactly the scenes' numbers, each mapped to itself, and keeps the rest. */
  lemma {:induction false} WithViewersEntries(m: map<nat, nat>, ss: seq<Scene>)
    ensures WithViewers(m, ss).Keys == m.Keys + TvtkSet(ss)
    ensures forall t :: t in TvtkSet(ss) ==> WithViewers(m, ss)[t] == t
    ensures forall t :: t in m && t !in TvtkSet(ss) ==> WithViewers(m, ss)[t] == m[t]
  {
    if ss != [] {
      var init := ss[..|ss| - 1];
      WithViewersEntries(m, init);
      assert ss == init + [ss[|ss| - 1]];
      assert TvtkSet(ss) == TvtkSet(init) + {ss[|ss| - 1].tvtk};
    }
  }

  /** Recording one more scene's viewer after `ss`'s. */
  lemma AppendViewer(m: map<nat, nat>, ss: seq<Scene>, s: Scene)
    ensures WithViewers(m, ss + [s]) == WithViewers(m, ss)[s.tvtk := s.tvtk]
    ensures TvtkSet(ss + [s]) == TvtkSet(ss) + {s.tvtk}
  {
    assert (ss + [s])[..|ss|] == ss;
  }

  /** The numbers of the scenes from `k` on are scene `k`'s and those of the scenes after it. */
  lemma TvtkSetStep(ss: seq<Scene>, k: nat)
    requires k < |ss|
    ensures TvtkSet(ss[k..]) == TvtkSet(ss[k + 1..]) + {ss[k].tvtk}
  {
    assert ss[k..] == [ss[k]] + ss[k + 1..];
  }

  /** The scenes left by a removal are among the scenes before it. */
  lemma RemovedWithin(scenes: seq<Scene>, tvtk: nat)
    ensures forall s :: s in Removed(scenes, tvtk) ==> s in scenes
  {
    match FirstManaged(scenes, tvtk)
    case None => {}
    case Some(k) => {
      DropAt(scenes, k);
    }
  }

  /** `scene_id_generator`: yields 1, 2, 3, ... */
  class IdGenerator {
    var n: nat

    constructor ()
      ensures n == 1
    {
      n := 1;
    }

    method Next() returns (v: nat)
      modifies this
      ensures v == old(n) && n == old(n) + 1
    {
      v := n;
      n := n + 1;
    }
  }

  class Engine {
    var scenes: seq<Scene>
    var currentScene: Option<Scene>       // `_current_scene`
    var currentObject: Option<Node>       // `_current_object`
    var currentSelection: Option<Node>    // `_current_selection`
    var viewerRef: map<nat, nat>          // `_viewer_ref`: TVTK scene -> viewer
    var children: seq<Child>              // the `add_child` calls made so far
    var nextTvtk: nat                     // the number of the next TVTK scene the scene factory makes
    ghost var seen: set<nat>              // every TVTK scene the engine has been given
    const generator: IdGenerator

    /** The recorded current scene is managed, and the selection is a Base or an adder node. */
    predicate Valid()
      reads this
    {
      (currentScene.None? || currentScene.value in scenes)
      && SelectionFilter(currentSelection) == currentSelection
    }

    /**
     * Every managed scene wraps a TVTK scene the engine has been given, and the scene factory's
     * next number is above all of those, so a new TVTK scene is never one seen before.
     */
    ghost predicate Numbered()
      reads this
    {
      (forall t | t in seen :: t < nextTvtk)
      && (forall s | s in scenes :: s.tvtk in seen)
    }

    constructor (gen: IdGenerator)
      ensures Valid() && Numbered() && generator == gen
      ensures scenes == [] && currentScene == None && currentObject == None && currentSelection == None
      ensures viewerRef == map[] && children == [] && nextTvtk == 1 && seen == {}
    {
      scenes, currentScene, currentObject, currentSelection := [], None, None, None;
      viewerRef, children := map[], [];
      nextTvtk, seen := 1, {};
      generator := gen;
    }

    /** The `current_scene` property. */
    function CurrentScene(): (r: Option<Scene>)
      reads this
      ensures r.None? <==> scenes == []
      ensures Valid() && r.Some? ==> r.value in scenes
    {
      CurrentSceneOf(scenes, currentScene)
    }

    /** The `current_object` property. */
    function CurrentObject(): Option<Node>
      reads this
    {
      CurrentObjectOf(currentObject, scenes, currentScene)
    }

    /** The `children_ui_list` property, given the `show_helper_nodes` preference. */
    function ChildrenUiList(showHelpers: bool): seq<UiChild>
      reads this
    {
      ChildrenUiListOf(scenes, showHelpers)
    }

    /** The `current_selection` setter. */
    method SetCurrentSelection(obj: Option<Node>)
      modifies this
      ensures currentSelection == SelectionFilter(obj)
      ensures scenes == old(scenes) && currentScene == old(currentScene) && currentObject == old(currentObject)
      ensures viewerRef == old(viewerRef) && children == old(children)
      ensures nextTvtk == old(nextTvtk) && seen == old(seen)
      ensures old(Valid()) ==> Valid()
    {
      currentSelection := SelectionFilter(obj);
    }

    /**
     * `add_scene(tvtk, name)`: the new Mayavi scene is appended and becomes the current one.
     * Without a name it takes the TVTK scene's own name, or else the next generated title.
     * The TVTK scene is now one the engine has seen.
     */
    method AddScene(tvtk: nat, name: Option<string>, tvtkName: Option<string>) returns (s: Scene)
      modifies this, generator
      ensures scenes == old(scenes) + [s] && s.tvtk == tvtk
      ensures name.Some? ==> s.name == name.value && generator.n == old(generator.n)
      ensures name.None? && tvtkName.Some? ==> s.name == tvtkName.value && generator.n == old(generator.n)
      ensures name.None? && tvtkName.None? ==> s.name == SceneTitle(old(generator.n)) && generator.n == old(generator.n) + 1
      ensures currentScene == Some(s)
      ensures currentObject == old(currentObject) && currentSelection == old(currentSelection)
      ensures viewerRef == old(viewerRef) && children == old(children)
      ensures seen == old(seen) + {tvtk}
      ensures nextTvtk == if tvtk < old(nextTvtk) then old(nextTvtk) else tvtk + 1
      ensures old(Valid()) ==> Valid()
      ensures old(Numbered()) ==> Numbered()
    {
      var title: string;
      if name.Some? {
        title := name.value;
      } else if tvtkName.Some? {
        title := tvtkName.value;
      } else {
        var k := generator.Next();
        title := SceneTitle(k);
      }
      s := Scene(tvtk, title);
      scenes := scenes + [s];
      currentScene := Some(s);
      seen := seen + {tvtk};
      if nextTvtk <= tvtk {
        nextTvtk := tvtk + 1;
      }
    }

    /**
     * `remove_scene(tvtk)` as the source has it: the first scene wrapping the TVTK scene is
     * dropped and its viewer reference forgotten, but the recorded current scene is kept even
     * when it is the scene just removed.
     */
    method RemoveSceneAsWritten(tvtk: nat)
      modifies this
      ensures scenes == Removed(old(scenes), tvtk)
      ensures viewerRef == old(viewerRef) - {tvtk}
      ensures currentScene == old(currentScene)
      ensures currentObject == old(currentObject) && currentSelection == old(currentSelection)
      ensures children == old(children)
      ensures nextTvtk == old(nextTvtk) && seen == old(seen)
      ensures old(Numbered()) ==> Numbered()
    {
      RemovedWithin(scenes, tvtk);
      scenes := Removed(scenes, tvtk);
      viewerRef := viewerRef - {tvtk};
    }

    /**
     * `remove_scene(tvtk)` with the current scene cleared when it is no longer managed, so the
     * engine stays valid.
     */
    method RemoveScene(tvtk: nat)
      modifies this
      ensures scenes == Removed(old(scenes), tvtk)
      ensures viewerRef == old(viewerRef) - {tvtk}
      ensures currentScene == if old(currentScene).Some? && old(currentScene).value !in scenes then None
                              else old(currentScene)
      ensures currentObject == old(currentObject) && currentSelection == old(currentSelection)
      ensures children == old(children)
      ensures nextTvtk == old(nextTvtk) && seen == old(seen)
      ensures old(Valid()) ==> Valid()
      ensures old(Numbered()) ==> Numbered()
    {
      RemoveSceneAsWritten(tvtk);
      if currentScene.Some? && currentScene.value !in scenes {
        currentScene := None;
      }
    }

    /**
     * `new_scene()`: the scene factory makes a viewer around a new TVTK scene, one the engine
     * has never been given; the viewer is remembered under it and the scene is added with a
     * generated title.
     */
    method NewScene() returns (s: Scene)
      modifies this, generator
      ensures s.tvtk == old(nextTvtk) && s.name == SceneTitle(old(generator.n))
      ensures scenes == old(scenes) + [s] && currentScene == Some(s)
      ensures viewerRef == old(viewerRef)[s.tvtk := s.tvtk]
      ensures generator.n == old(generator.n) + 1
      ensures currentObject == old(currentObject) && currentSelection == old(currentSelection)
      ensures children == old(children)
      ensures nextTvtk == old(nextTvtk) + 1 && seen == old(seen) + {s.tvtk}
      ensures old(Numbered()) ==> s.tvtk !in old(seen) && Numbered()
      ensures old(Valid()) ==> Valid()
      ensures old(Numbered()) && old(DistinctScenes(scenes)) ==> DistinctScenes(scenes)
    {
      var t := nextTvtk;
      viewerRef := viewerRef[t := t];
      s := AddScene(t, None, None);
    }

    /**
     * `close_scene(scene)`: removes the scene it wraps through `remove_scene` as the source has
     * it, so the recorded current scene is kept; closing the windows is left to VTK.
     */
    method CloseScene(scene: Scene)
      modifies this
      ensures scenes == Removed(old(scenes), scene.tvtk)
      ensures viewerRef == old(viewerRef) - {scene.tvtk}
      ensures currentScene == old(currentScene)
      ensures currentObject == old(currentObject) && currentSelection == old(currentSelection)
      ensures children == old(children)
      ensures nextTvtk == old(nextTvtk) && seen == old(seen)
      ensures old(Numbered()) ==> Numbered()
    {
      RemoveSceneAsWritten(scene.tvtk);
    }

    /**
     * `close_scene(self.scenes[-1])`: one scene fewer, and with distinct scenes exactly the last
     * one gone; its viewer is forgotten, and the current scene, object and selection and the
     * pipeline are kept.
     */
    method CloseLastScene()
      requires scenes != []
      modifies this
      ensures |scenes| == |old(scenes)| - 1
      ensures DistinctScenes(old(scenes)) ==> DistinctScenes(scenes) && scenes == old(scenes)[..|old(scenes)| - 1]
      ensures viewerRef == old(viewerRef) - {old(scenes)[|old(scenes)| - 1].tvtk}
      ensures currentScene == old(currentScene) && currentSelection == old(currentSelection)
      ensures currentObject == old(currentObject) && children == old(children)
      ensures generator.n == old(generator.n) && nextTvtk == old(nextTvtk) && seen == old(seen)
      ensures old(Numbered()) ==> Numbered()
    {
      var last := scenes[|scenes| - 1];
      assert Manages(scenes, last.tvtk) by {
        assert scenes[|scenes| - 1].tvtk == last.tvtk;
      }
      if DistinctScenes(scenes) {
        RemoveLast(scenes);
        RemovedKeepsOthers(scenes, last.tvtk);
      }
      CloseScene(last);
    }

    /**
     * Closes scenes from the end until only `saved` are left.  Only viewers are forgotten; with
     * distinct scenes exactly those of the closed scenes.  The current scene, object and
     * selection and the pipeline are kept.
     */
    method CloseExtraScenes(saved: nat)
      requires saved <= |scenes|
      modifies this
      ensures |scenes| == saved
      ensures DistinctScenes(old(scenes)) ==> scenes == old(scenes)[..saved]
      ensures forall t | t in viewerRef :: t in old(viewerRef) && viewerRef[t] == old(viewerRef)[t]
      ensures DistinctScenes(old(scenes)) ==> viewerRef == old(viewerRef) - TvtkSet(old(scenes)[saved..])
      ensures currentScene == old(currentScene) && currentSelection == old(currentSelection)
      ensures currentObject == old(currentObject) && children == old(children)
      ensures generator.n == old(generator.n) && nextTvtk == old(nextTvtk) && seen == old(seen)
      ensures old(Numbered()) ==> Numbered()
    {
      ghost var original := scenes;
      var extra := |scenes| - saved;
      var i := 0;
      while i < extra
        invariant 0 <= i <= extra
        invariant |scenes| == |original| - i
        invariant DistinctScenes(original) ==> DistinctScenes(scenes) && scenes == original[..|original| - i]
        invariant forall t | t in viewerRef :: t in old(viewerRef) && viewerRef[t] == old(viewerRef)[t]
        invariant DistinctScenes(original) ==> viewerRef == old(viewerRef) - TvtkSet(original[|original| - i..])
        invariant currentScene == old(currentScene) && currentSelection == old(currentSelection)
        invariant currentObject == old(currentObject) && children == old(children)
        invariant generator.n == old(generator.n) && nextTvtk == old(nextTvtk) && seen == old(seen)
        invariant old(Numbered()) ==> Numbered()
      {
        CloseOneMore(original, old(viewerRef));
        i := i + 1;
      }
    }

    /**
     * One step of `CloseExtraScenes`: the last scene is closed, and with distinct scenes the
     * closed ones remain a suffix of `original` whose viewers are all forgotten.
     */
    method CloseOneMore(ghost original: seq<Scene>, ghost base: map<nat, nat>)
      requires scenes != [] && |scenes| <= |original|
      requires forall t | t in viewerRef :: t in base && viewerRef[t] == base[t]
      requires DistinctScenes(original) ==>
                 DistinctScenes(scenes) && scenes == original[..|scenes|]
                 && viewerRef == base - TvtkSet(original[|scenes|..])
      modifies this
      ensures |scenes| == |old(scenes)| - 1
      ensures forall t | t in viewerRef :: t in base && viewerRef[t] == base[t]
      ensures DistinctScenes(original) ==>
                DistinctScenes(scenes) && scenes == original[..|scenes|]
                && viewerRef == base - TvtkSet(original[|scenes|..])
      ensures currentScene == old(currentScene) && currentSelection == old(currentSelection)
      ensures currentObject == old(currentObject) && children == old(children)
      ensures generator.n == old(generator.n) && nextTvtk == old(nextTvtk) && seen == old(seen)
      ensures old(Numbered()) ==> Numbered()
    {
      ghost var before := scenes;
      CloseLastScene();
      if DistinctScenes(original) {
        var k := |before| - 1;
        assert before[..k] == original[..k];
        assert before[k] == original[k];
        TvtkSetStep(original, k);
      }
    }

    /**
     * Makes new scenes until there are `saved`.  This works from any state, also one whose
     * recorded current scene is no longer managed: once a scene is made, the last one is current.
     * The new scenes take the factory's next numbers in turn and their viewers are recorded;
     * the current object and selection and the pipeline are kept.
     */
    method OpenMissingScenes(saved: nat)
      requires saved >= |scenes|
      modifies this, generator
      ensures |scenes| == saved && scenes[..|old(scenes)|] == old(scenes)
      ensures forall j :: |old(scenes)| <= j < saved ==> scenes[j].tvtk == old(nextTvtk) + (j - |old(scenes)|)
      ensures viewerRef == WithViewers(old(viewerRef), scenes[|old(scenes)|..])
      ensures generator.n == old(generator.n) + (saved - |old(scenes)|)
      ensures nextTvtk == old(nextTvtk) + (saved - |old(scenes)|)
      ensures seen == old(seen) + TvtkSet(scenes[|old(scenes)|..])
      ensures saved == |old(scenes)| ==> currentScene == old(currentScene)
      ensures saved > |old(scenes)| ==> currentScene == Some(scenes[saved - 1])
      ensures currentObject == old(currentObject) && currentSelection == old(currentSelection)
      ensures children == old(children)
      ensures old(Valid()) ==> Valid()
      ensures old(Numbered()) ==> Numbered()
      ensures old(Numbered()) && DistinctScenes(old(scenes)) ==> DistinctScenes(scenes)
    {
      var start := |scenes|;
      var missing := saved - |scenes|;
      var i := 0;
      while i < missing
        invariant 0 <= i <= missing
        invariant |scenes| == start + i && scenes[..start] == old(scenes)
        invariant forall j :: start <= j < start + i ==> scenes[j].tvtk == old(nextTvtk) + (j - start)
        invariant viewerRef == WithViewers(old(viewerRef), scenes[start..])
        invariant generator.n == old(generator.n) + i && nextTvtk == old(nextTvtk) + i
        invariant seen == old(seen) + TvtkSet(scenes[start..])
        invariant i == 0 ==> currentScene == old(currentScene)
        invariant i > 0 ==> currentScene == Some(scenes[|scenes| - 1])
        invariant currentObject == old(currentObject) && currentSelection == old(currentSelection)
        invariant children == old(children)
        invariant old(Valid()) ==> Valid()
        invariant old(Numbered()) ==> Numbered()
        invariant old(Numbered()) && DistinctScenes(old(scenes)) ==> DistinctScenes(scenes)
      {
        ghost var before := scenes;
        OpenOneMore(start, old(viewerRef), old(seen));
        assert scenes[..start] == before[..start];
        i := i + 1;
      }
    }

    /**
     * One step of `OpenMissingScenes`: one more new scene after those made since position
     * `start`, with the viewers and numbers of all of them accounted for.
     */
    method OpenOneMore(ghost start: nat, ghost base: map<nat, nat>, ghost seen0: set<nat>)
      requires start <= |scenes|
      requires viewerRef == WithViewers(base, scenes[start..]) && seen == seen0 + TvtkSet(scenes[start..])
      modifies this, generator
      ensures |scenes| == |old(scenes)| + 1 && scenes[..|old(scenes)|] == old(scenes)
      ensures scenes[|scenes| - 1].tvtk == old(nextTvtk) && currentScene == Some(scenes[|scenes| - 1])
      ensures viewerRef == WithViewers(base, scenes[start..]) && seen == seen0 + TvtkSet(scenes[start..])
      ensures generator.n == old(generator.n) + 1 && nextTvtk == old(nextTvtk) + 1
      ensures currentObject == old(currentObject) && currentSelection == old(currentSelection)
      ensures children == old(children)
      ensures old(Valid()) ==> Valid()
      ensures old(Numbered()) ==> Numbered()
      ensures old(Numbered()) && old(DistinctScenes(scenes)) ==> DistinctScenes(scenes)
    {
      ghost var added := scenes[start..];
      var s := NewScene();
      assert scenes[start..] == added + [s];
      AppendViewer(base, added, s);
      assert scenes[..|old(scenes)|] == old(scenes);
    }

    /**
     * `__set_pure_state__`: as many scenes as the saved state had; surplus scenes are closed
     * from the end and missing ones are made new.  When the scenes wrap distinct TVTK scenes,
     * closing removes exactly the last ones.  Closing keeps the recorded current scene, even
     * one it closes; making scenes leaves the last new one current.  The current object and
     * selection and the pipeline are kept.  Restoring each scene's own state is left out.
     */
    method SetPureState(saved: nat)
      modifies this, generator
      ensures |scenes| == saved
      ensures saved <= |old(scenes)| && DistinctScenes(old(scenes)) ==> scenes == old(scenes)[..saved]
      ensures saved <= |old(scenes)| ==>
                forall t | t in viewerRef :: t in old(viewerRef) && viewerRef[t] == old(viewerRef)[t]
      ensures saved <= |old(scenes)| && DistinctScenes(old(scenes)) ==>
                viewerRef == old(viewerRef) - TvtkSet(old(scenes)[saved..])
      ensures saved <= |old(scenes)| ==>
                currentScene == old(currentScene) && generator.n == old(generator.n)
                && nextTvtk == old(nextTvtk) && seen == old(seen)
      ensures saved >= |old(scenes)| ==> scenes[..|old(scenes)|] == old(scenes)
      ensures saved >= |old(scenes)| ==>
                (forall j :: |old(scenes)| <= j < saved ==> scenes[j].tvtk == old(nextTvtk) + (j - |old(scenes)|))
                && viewerRef == WithViewers(old(viewerRef), scenes[|old(scenes)|..])
                && generator.n == old(generator.n) + (saved - |old(scenes)|)
                && nextTvtk == old(nextTvtk) + (saved - |old(scenes)|)
      ensures saved > |old(scenes)| ==> currentScene == Some(scenes[saved - 1])
      ensures currentObject == old(currentObject) && currentSelection == old(currentSelection)
      ensures children == old(children)
      ensures saved >= |old(scenes)| && old(Valid()) ==> Valid()
      ensures old(Numbered()) ==> Numbered()
    {
      if saved < |scenes| {
        CloseExtraScenes(saved);
      } else {
        OpenMissingScenes(saved);
        assert saved <= |old(scenes)| ==> scenes == scenes[..|old(scenes)|];
      }
    }

    /**
     * `add_source(src, scene)`: an unmanaged scene is an error and changes nothing; otherwise
     * the source is added under the chosen scene (a new one when there is none), and becomes
     * the current object.
     */
    method AddSource(src: Node, given: Option<Scene>) returns (r: Outcome)
      modifies this, generator
      ensures old(Valid()) ==> Valid()
      ensures old(Numbered()) ==> Numbered()
      ensures var target := SourceTargetOf(old(scenes), given, old(currentScene));
              match target
              case NotManaged =>
                r == Failed(UnmanagedScene) && scenes == old(scenes) && currentScene == old(currentScene)
                && currentObject == old(currentObject) && children == old(children)
                && viewerRef == old(viewerRef) && generator.n == old(generator.n)
                && nextTvtk == old(nextTvtk) && seen == old(seen)
              case IntoScene(sc) =>
                r == Done && scenes == old(scenes) && currentScene == old(currentScene)
                && children == old(children) + [Child(SceneNode(sc), src)] && currentObject == Some(src)
                && viewerRef == old(viewerRef) && generator.n == old(generator.n)
                && nextTvtk == old(nextTvtk) && seen == old(seen)
              case IntoNewScene =>
                r == Done && |scenes| == 1 && currentScene == Some(scenes[0])
                && scenes[0] == Scene(old(nextTvtk), SceneTitle(old(generator.n)))
                && children == old(children) + [Child(SceneNode(scenes[0]), src)] && currentObject == Some(src)
                && viewerRef == old(viewerRef)[scenes[0].tvtk := scenes[0].tvtk] && generator.n == old(generator.n) + 1
                && nextTvtk == old(nextTvtk) + 1 && seen == old(seen) + {scenes[0].tvtk}
      ensures currentSelection == old(currentSelection)
    {
      var target := SourceTargetOf(scenes, given, currentScene);
      match target {
        case NotManaged =>
          r := Failed(UnmanagedScene);
        case IntoScene(sc) =>
          children := children + [Child(SceneNode(sc), src)];
          currentObject := Some(src);
          r := Done;
        case IntoNewScene =>
          var s := NewScene();
          assert CurrentScene() == Some(s);
          children := children + [Child(SceneNode(s), src)];
          currentObject := Some(src);
          r := Done;
      }
    }

    /**
     * `add_filter(fil, obj)`: the filter is added under the given object, or else the current
     * object, only when that is a running pipeline object; it then becomes the current object.
     * Otherwise the error is reported and nothing changes.
     */
    method AddFilter(fil: Node, obj: Option<Node>) returns (r: Outcome)
      modifies this
      ensures var target := FilterTargetOf(if obj.Some? then obj else old(CurrentObject()));
              match target
              case Ok(parent) =>
                r == Done && children == old(children) + [Child(parent, fil)] && currentObject == Some(fil)
              case Err(e) =>
                r == Failed(e) && children == old(children) && currentObject == old(currentObject)
      ensures scenes == old(scenes) && currentScene == old(currentScene)
      ensures currentSelection == old(currentSelection) && viewerRef == old(viewerRef)
      ensures nextTvtk == old(nextTvtk) && seen == old(seen)
    {
      var target := FilterTargetOf(if obj.Some? then obj else CurrentObject());
      match target {
        case Ok(parent) =>
          children := children + [Child(parent, fil)];
          currentObject := Some(fil);
          r := Done;
        case Err(e) =>
          r := Failed(e);
      }
    }

    /**
     * `_on_select(obj)`: the object becomes the current selection (through the selection
     * filter) and the current object, and the managed scene a selected node belongs to, if any,
     * the current scene.  Selecting `None` has no scene, so the current scene is kept.
     */
    method OnSelect(obj: Option<Node>)
      modifies this
      ensures currentSelection == SelectionFilter(obj) && currentObject == obj
      ensures currentScene == match obj
                              case None => old(currentScene)
                              case Some(n) =>
                                match SceneOfSelection(old(scenes), n)
                                case Some(s) => Some(s)
                                case None => old(currentScene)
      ensures scenes == old(scenes) && viewerRef == old(viewerRef) && children == old(children)
      ensures nextTvtk == old(nextTvtk) && seen == old(seen)
      ensures old(Valid()) ==> Valid()
    {
      SetCurrentSelection(obj);
      currentObject := obj;
      if obj.Some? {
        match SceneOfSelection(scenes, obj.value) {
          case Some(s) =>
            currentScene := Some(s);
          case None =>
        }
      }
    }

    /** `_on_scene_activated`: the managed scene wrapping the activated TVTK scene becomes current. */
    method OnSceneActivated(tvtk: nat)
      modifies this
      ensures currentScene == match FirstManaged(old(scenes), tvtk)
                              case Some(k) => Some(old(scenes)[k])
                              case None => old(currentScene)
      ensures scenes == old(scenes) && currentObject == old(currentObject) && currentSelection == old(currentSelection)
      ensures viewerRef == old(viewerRef) && children == old(children)
      ensures nextTvtk == old(nextTvtk) && seen == old(seen)
      ensures old(Valid()) ==> Valid()
    {
      match FirstManaged(scenes, tvtk) {
        case Some(k) =>
          currentScene := Some(scenes[k]);
        case None =>
      }
    }

    /**
     * `_on_scene_closed`: a viewer closing removes the scene it shows through `remove_scene` as
     * the source has it, so the recorded current scene is kept.
     */
    method OnSceneClosed(tvtk: nat)
      modifies this
      ensures scenes == Removed(old(scenes), tvtk) && viewerRef == old(viewerRef) - {tvtk}
      ensures currentScene == old(currentScene)
      ensures currentObject == old(currentObject) && currentSelection == old(currentSelection)
      ensures children == old(children)
      ensures nextTvtk == old(nextTvtk) && seen == old(seen)
      ensures old(Numbered()) ==> Numbered()
    {
      RemoveSceneAsWritten(tvtk);
    }
  }

  /** The scene-title counter yields 1, 2, 3 on its first three calls. */
  method GeneratorSequence() returns (a: nat, b: nat, c: nat)
    ensures a == 1 && b == 2 && c == 3
  {
    var gen := new IdGenerator();
    a := gen.Next();
    b := gen.Next();
    c := gen.Next();
  }

  /**
   * Three scenes are added and the current (last) one is removed from the engine as the source
   * does it: `current_scene` then answers a scene the engine no longer manages.
   */
  method StaleCurrentScene() returns (current: Option<Scene>, managed: bool)
    ensures current.Some? && !managed
  {
    var gen := new IdGenerator();
    var e := new Engine(gen);
    var s1 := e.AddScene(1, Some("a"), None);
    var s2 := e.AddScene(2, Some("b"), None);
    var s3 := e.AddScene(3, Some("c"), None);
    assert e.scenes == [s1, s2, s3];
    e.RemoveSceneAsWritten(3);
    assert FirstManaged([s1, s2, s3], 3) == Some(2);
    assert e.scenes == [s1, s2];
    current := e.CurrentScene();
    managed := current.Some? && current.value in e.scenes;
  }

  /** The same steps with the corrected removal: the remaining last scene is current. */
  method CurrentSceneAfterRemoval() returns (current: Option<Scene>, managed: bool)
    ensures current == Some(Scene(2, "b")) && managed
  {
    var gen := new IdGenerator();
    var e := new Engine(gen);
    var s1 := e.AddScene(1, Some("a"), None);
    var s2 := e.AddScene(2, Some("b"), None);
    var s3 := e.AddScene(3, Some("c"), None);
    assert e.scenes == [s1, s2, s3];
    e.RemoveScene(3);
    assert FirstManaged([s1, s2, s3], 3) == Some(2);
    assert e.scenes == [s1, s2];
    current := e.CurrentScene();
    managed := current.Some? && current.value in e.scenes;
  }

  /**
   * Two new scenes, the second closed, then a third new one: the third wraps a TVTK scene of
   * its own, so the closed scene stays unmanaged and adding a source to it is refused.
   */
  method ClosedNumberNotReused() returns (closed: Scene, third: Scene, r: Outcome)
    ensures third.tvtk != closed.tvtk && r == Failed(UnmanagedScene)
  {
    var gen := new IdGenerator();
    var e := new Engine(gen);
    var first := e.NewScene();
    closed := e.NewScene();
    assert e.scenes == [first, closed] && first.tvtk == 1 && closed.tvtk == 2;
    e.CloseScene(closed);
    assert FirstManaged([first, closed], 2) == Some(1);
    assert e.scenes == [first];
    third := e.NewScene();
    assert e.scenes == [first, third] && third.tvtk == 3;
    assert !Manages(e.scenes, closed.tvtk);
    r := e.AddSource(PipelineNode(0, true, None), Some(closed));
  }

  /** Reconciling to a saved count of one scene, then of three, from two new scenes. */
  method PureStateCounts() returns (afterShrink: nat, afterGrow: nat, kept: Scene, first: Scene)
    ensures afterShrink == 1 && afterGrow == 3 && kept == first
  {
    var gen := new IdGenerator();
    var e := new Engine(gen);
    first := e.NewScene();
    var second := e.NewScene();
    e.SetPureState(1);
    afterShrink := |e.scenes|;
    kept := e.scenes[0];
    e.SetPureState(3);
    afterGrow := |e.scenes|;
  }
}

/**
 * The rendering objects the app drives, as opaque handles: the SceneView
 * nodes it wires together, the `MutableList<ModelInstance>` it uses as an
 * instance pool, and the model loader that creates instances in batches.
 */
module SceneGraph {
  import opened Base

  /** A tracked pose handed out by the AR session. */
  datatype Anchor = Anchor(id: nat)

  /** A camera frame of the AR session. */
  datatype Frame = Frame(id: nat)

  /** One renderable instance of a model file; `serial` tells instances apart. */
  datatype Instance = Instance(asset: string, serial: nat)

  /** The transforms an editable node reports while the user manipulates it. */
  datatype EditTransform = Position | Rotation | Scale

  /** What a node renders. Scale targets are kept as the literals the code passes. */
  datatype NodeKind =
    | AnchorNode(anchor: Anchor)
    | ModelNode(instance: Instance, scaleToUnits: real)
    | CubeNode

  /** The batch size of `createInstancedModel(model, 10)`. */
  const BatchSize: nat := 10

  /** The instances one call of `createInstancedModel` returns when `first` instances exist already. */
  function Batch(asset: string, first: nat, count: nat): seq<Instance> {
    seq(count, i requires 0 <= i < count => Instance(asset, first + i))
  }

  /** The instance loader; `created` counts every instance it has produced. */
  class ModelLoader {
    var created: nat

    constructor ()
      ensures created == 0
    {
      created := 0;
    }

    /** `createInstancedModel(model, count)`: `count` new instances of `asset`. */
    method CreateInstancedModel(asset: string, count: nat) returns (batch: seq<Instance>)
      modifies this
      ensures batch == Batch(asset, old(created), count)
      ensures created == old(created) + count
    {
      batch := Batch(asset, created, count);
      created := created + count;
    }
  }

  /** The pool contents after `if (isEmpty()) this += createInstancedModel(asset, 10)`. */
  function Refilled(items: seq<Instance>, asset: string, created: nat): seq<Instance> {
    if items == [] then Batch(asset, created, BatchSize) else items
  }

  /** The instance a take hands out: the last one after the refill. */
  function Taken(items: seq<Instance>, asset: string, created: nat): Instance {
    var r := Refilled(items, asset, created);
    if r == [] then Instance(asset, created) else r[|r| - 1]
  }

  /** The pool contents after a take: the refilled pool without its last element. */
  function AfterTake(items: seq<Instance>, asset: string, created: nat): seq<Instance> {
    var r := Refilled(items, asset, created);
    if r == [] then [] else r[..|r| - 1]
  }

  /** Taking from an empty pool creates exactly ten instances, hands out the last one and keeps nine. */
  lemma TakeFromEmptyPool(asset: string, created: nat)
    ensures |Refilled([], asset, created)| == BatchSize
    ensures Taken([], asset, created) == Instance(asset, created + BatchSize - 1)
    ensures AfterTake([], asset, created) == Batch(asset, created, BatchSize - 1)
  {
    var r := Refilled([], asset, created);
    assert r[BatchSize - 1] == Instance(asset, created + BatchSize - 1);
    assert AfterTake([], asset, created) == r[..BatchSize - 1];
  }

  /** Taking from a non-empty pool refills nothing and removes exactly the last element (LIFO). */
  lemma TakeFromNonEmptyPool(items: seq<Instance>, asset: string, created: nat)
    requires items != []
    ensures Refilled(items, asset, created) == items
    ensures Taken(items, asset, created) == items[|items| - 1]
    ensures AfterTake(items, asset, created) == items[..|items| - 1]
    ensures AfterTake(items, asset, created) + [Taken(items, asset, created)] == items
  {
  }

  /** A second emptiness check right after a refill never refills again. */
  lemma RefillIsIdempotent(items: seq<Instance>, asset: string, created: nat, later: nat)
    ensures Refilled(Refilled(items, asset, created), asset, later) == Refilled(items, asset, created)
    ensures Refilled(items, asset, created) != []
  {
    if items == [] {
      assert Refilled(items, asset, created)[0] == Instance(asset, created);
    }
  }

  /** The `MutableList<ModelInstance>` a screen keeps as its instance pool. */
  class InstanceList {
    var items: seq<Instance>

    constructor ()
      ensures items == []
    {
      items := [];
    }

    /** `apply { if (isEmpty()) this += modelLoader.createInstancedModel(asset, 10) }` */
    method RefillIfEmpty(loader: ModelLoader, asset: string)
      modifies this, loader
      ensures items == Refilled(old(items), asset, old(loader.created))
      ensures loader.created == old(loader.created) + (if old(items) == [] then BatchSize else 0)
    {
      if items == [] {
        var batch := loader.CreateInstancedModel(asset, BatchSize);
        items := items + batch;
      }
    }

    /** `removeAt(index)`; Kotlin throws on an index out of range, which no caller passes. */
    method RemoveAt(index: nat) returns (x: Instance)
      requires index < |items|
      modifies this
      ensures x == old(items[index])
      ensures items == old(items[..index] + items[index + 1..])
    {
      x := items[index];
      items := items[..index] + items[index + 1..];
    }

    /** `removeLast()`; Kotlin throws on an empty list, which no caller passes. */
    method RemoveLast() returns (x: Instance)
      requires items != []
      modifies this
      ensures x == old(items[|items| - 1])
      ensures items == old(items[..|items| - 1])
    {
      x := items[|items| - 1];
      items := items[..|items| - 1];
    }

    method Clear()
      modifies this
      ensures items == []
    {
      items := [];
    }
  }

  /**
   * A scene node. `onEditingChanged` stands for the callback
   * `{ transforms -> box.isVisible = transforms.isNotEmpty() }`: it names the
   * bounding box the callback drives, or is null when no callback is installed.
   */
  class Node {
    const kind: NodeKind
    var children: seq<Node>
    var isVisible: bool
    var isEditable: bool
    var isShadowReceiver: bool
    var isPositionEditable: bool
    var isScaleEditable: bool
    var isRotationEditable: bool
    var onEditingChanged: Node?

    /** A new, visible, childless node without an editing callback; the other flags start as the library sets them. */
    constructor (kind: NodeKind)
      ensures this.kind == kind && children == [] && isVisible && onEditingChanged == null
    {
      this.kind := kind;
      children := [];
      isVisible := true;
      isEditable := false;
      isShadowReceiver := true;
      isPositionEditable := false;
      isScaleEditable := false;
      isRotationEditable := false;
      onEditingChanged := null;
    }

    /** `addChildNode(child)` */
    method AddChildNode(child: Node)
      modifies this`children
      ensures children == old(children) + [child]
    {
      children := children + [child];
    }

    /** The library reporting a change of the transforms being edited on this node: the installed callback runs. */
    method EditingChanged(transforms: set<EditTransform>)
      modifies (if onEditingChanged == null then {} else {onEditingChanged})`isVisible
      ensures onEditingChanged != null ==> onEditingChanged.isVisible == (transforms != {})
    {
      if onEditingChanged != null {
        onEditingChanged.isVisible := transforms != {};
      }
    }
  }

  /** Visibility of a bounding box after a run of editing events, each setting it from its own transform set. */
  function VisibilityAfter(initial: bool, events: seq<set<EditTransform>>): bool
    decreases |events|
  {
    if events == [] then initial else VisibilityAfter(events[0] != {}, events[1..])
  }

  /** Last event wins: after any non-empty run of events the box is visible iff the last event's set is non-empty. */
  lemma {:induction false} LastEditingEventWins(initial: bool, events: seq<set<EditTransform>>)
    requires events != []
    ensures VisibilityAfter(initial, events) == (events[|events| - 1] != {})
    decreases |events|
  {
    if |events| > 1 {
      LastEditingEventWins(events[0] != {}, events[1..]);
    }
  }

  /** Visibility is not the OR of the two nodes' editing states: the node still being edited does not keep the box shown. */
  lemma VisibilityIsNotOrCombined()
    ensures !VisibilityAfter(false, [{Rotation}, {}])
  {
  }

  /** The scene state every AR screen remembers: placed nodes, the latest frame, the pool and its loader. */
  class SceneState {
    var childNodes: seq<Node>
    var frame: Option<Frame>
    const instances: InstanceList
    const modelLoader: ModelLoader

    constructor ()
      ensures childNodes == [] && frame == None
      ensures fresh(instances) && fresh(modelLoader)
      ensures instances.items == [] && modelLoader.created == 0
    {
      childNodes := [];
      frame := None;
      instances := new InstanceList();
      modelLoader := new ModelLoader();
    }

    /** `childNodes.clear(); modelInstance.clear(); frame.value = null` */
    method Reset()
      modifies this, instances
      ensures childNodes == [] && frame == None && instances.items == []
    {
      childNodes := [];
      instances.Clear();
      frame := None;
    }
  }
}

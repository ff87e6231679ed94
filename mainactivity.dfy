/**
 * The AR view of com/example/dna/MainActivity.kt: one "dna.glb" model placed
 * automatically on the first upward-facing plane, and another on every tap
 * that misses the placed nodes.
 */
module MainActivity {
  import opened Base
  import opened SceneGraph
  import opened ArCore

  /** The asset the view instantiates. */
  const DnaAsset := "dna.glb"

  /** `scaleToUnits = 0.5f`: fits the model in a 0.5 m cube. */
  const ScaleToUnits: real := 0.5

  /**
   * The shape this file's `createAnchorNode` returns: an anchor node for
   * `anchor` whose only child is a model node of `instance` that receives no
   * shadows, cannot be moved, can be scaled and rotated, and has no children;
   * no editing callback is installed.
   */
  ghost predicate IsDnaPlacement(a: Node, anchor: Anchor, instance: Instance)
    reads a, a.children
  {
    && a.kind == AnchorNode(anchor)
    && a.onEditingChanged == null
    && |a.children| == 1
    && var m := a.children[0];
       && m.kind == ModelNode(instance, ScaleToUnits)
       && !m.isShadowReceiver
       && !m.isPositionEditable
       && m.isScaleEditable
       && m.isRotationEditable
       && m.children == []
       && m.onEditingChanged == null
  }

  /** `createAnchorNode`: refill an empty pool with ten "dna.glb" instances, pop the last, attach it under a new anchor node. */
  method CreateAnchorNode(modelLoader: ModelLoader, modelInstances: InstanceList, anchor: Anchor)
    returns (anchorNode: Node)
    modifies modelLoader, modelInstances
    ensures modelInstances.items == AfterTake(old(modelInstances.items), DnaAsset, old(modelLoader.created))
    ensures modelLoader.created == old(modelLoader.created) + (if old(modelInstances.items) == [] then BatchSize else 0)
    ensures IsDnaPlacement(anchorNode, anchor, Taken(old(modelInstances.items), DnaAsset, old(modelLoader.created)))
    ensures fresh(anchorNode) && fresh(anchorNode.children[0])
  {
    anchorNode := new Node(AnchorNode(anchor));
    modelInstances.RefillIfEmpty(modelLoader, DnaAsset);
    var instance := modelInstances.RemoveLast();
    var modelNode := new Node(ModelNode(instance, ScaleToUnits));
    modelNode.isShadowReceiver := false;
    modelNode.isPositionEditable := false;
    modelNode.isScaleEditable := true;
    modelNode.isRotationEditable := true;
    anchorNode.AddChildNode(modelNode);
  }

  /** The remembered state of `ARView` and its two callbacks. */
  class ArView {
    const scene: SceneState

    constructor ()
      ensures fresh(scene) && fresh(scene.instances) && fresh(scene.modelLoader)
      ensures scene.childNodes == [] && scene.frame == None && scene.instances.items == []
    {
      scene := new SceneState();
    }

    /** `onSessionUpdated`: record the frame; while nothing is placed, place one model on the first upward-facing plane. */
    method OnSessionUpdated(updatedFrame: Frame, updatedPlanes: seq<Plane>)
      modifies scene, scene.instances, scene.modelLoader
      ensures scene.frame == Some(updatedFrame)
      ensures var a := AutoPlacementAnchor(updatedPlanes);
        var placed := old(scene.childNodes) == [] && a.Some?;
        && (placed ==>
              && |scene.childNodes| == 1
              && fresh(scene.childNodes[0])
              && IsDnaPlacement(scene.childNodes[0], a.value,
                   Taken(old(scene.instances.items), DnaAsset, old(scene.modelLoader.created)))
              && scene.instances.items == AfterTake(old(scene.instances.items), DnaAsset, old(scene.modelLoader.created)))
        && (!placed ==>
              && scene.childNodes == old(scene.childNodes)
              && scene.instances.items == old(scene.instances.items)
              && scene.modelLoader.created == old(scene.modelLoader.created))
    {
      scene.frame := Some(updatedFrame);
      if scene.childNodes == [] {
        var plane := FirstOrNull(updatedPlanes, IsUpwardFacing);
        if plane.Some? && plane.value.centerAnchor.Some? {
          var node := CreateAnchorNode(scene.modelLoader, scene.instances, plane.value.centerAnchor.value);
          scene.childNodes := scene.childNodes + [node];
        }
      }
    }

    /**
     * `onSingleTapConfirmed(motionEvent, node)`: `tapped` is the node the tap
     * landed on and `hits` is what `frame.hitTest(x, y)` returns. A tap on empty
     * space with a frame, a first valid hit and an anchor appends one model;
     * anything else changes nothing.
     */
    method OnSingleTapConfirmed(tapped: Node?, hits: seq<HitResult>)
      modifies scene, scene.instances, scene.modelLoader
      ensures var a := TapAnchor(hits);
        var placed := tapped == null && old(scene.frame).Some? && a.Some?;
        && (placed ==>
              && |scene.childNodes| == |old(scene.childNodes)| + 1
              && scene.childNodes[..|old(scene.childNodes)|] == old(scene.childNodes)
              && fresh(scene.childNodes[|old(scene.childNodes)|])
              && IsDnaPlacement(scene.childNodes[|old(scene.childNodes)|], a.value,
                   Taken(old(scene.instances.items), DnaAsset, old(scene.modelLoader.created)))
              && scene.instances.items == AfterTake(old(scene.instances.items), DnaAsset, old(scene.modelLoader.created))
              && scene.frame == old(scene.frame))
        && (!placed ==> unchanged(scene) && unchanged(scene.instances) && unchanged(scene.modelLoader))
    {
      if tapped == null && scene.frame.Some? {
        var hit := FirstOrNull(hits, IsValidHit);
        if hit.Some? && hit.value.anchor.Some? {
          var node := CreateAnchorNode(scene.modelLoader, scene.instances, hit.value.anchor.value);
          scene.childNodes := scene.childNodes + [node];
        }
      }
    }
  }
}

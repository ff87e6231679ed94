/**
 * `ARScreen` (com/example/dna/ui/screen/ARScreen.kt): shows the model of one
 * letter; models are placed by tapping only.
 */
module ArScreen {
  import opened Base
  import opened Utils
  import opened SceneGraph
  import opened ArCore
  import opened ModelCache

  /** What the screen shows: only the spinner, nothing at all (the error branch draws nothing), or the scene. */
  datatype ArView = Progress | Blank | Scene

  function ViewOf(isLoading: bool, modelFile: Option<string>): ArView {
    if isLoading then Progress else if modelFile.None? then Blank else Scene
  }

  /** While loading only the spinner shows; a missing file after loading renders nothing; the scene needs a file. */
  lemma ViewGating(isLoading: bool, modelFile: Option<string>)
    ensures ViewOf(isLoading, modelFile) == Progress <==> isLoading
    ensures ViewOf(isLoading, modelFile) == Blank <==> !isLoading && modelFile.None?
    ensures ViewOf(isLoading, modelFile) == Scene <==> !isLoading && modelFile.Some?
  {
  }

  class Screen {
    /** The navigation argument: the letter to show. */
    const model: string
    var modelFile: Option<string>
    var isLoading: bool
    const scene: SceneState

    constructor (model: string)
      ensures this.model == model && modelFile == None && isLoading
      ensures fresh(scene) && fresh(scene.instances) && fresh(scene.modelLoader)
      ensures scene.childNodes == [] && scene.frame == None && scene.instances.items == []
    {
      this.model := model;
      modelFile := None;
      isLoading := true;
      scene := new SceneState();
    }

    /**
     * `LaunchedEffect(model)`: show loading, resolve the letter and download its
     * file. An unknown letter throws before any download (the returned error),
     * leaving the spinner on and the cache untouched.
     */
    method LoadModel(loader: AppwriteModelLoader, now: int, fetch: Fetch, copy: Copy) returns (thrown: Option<Error>)
      modifies this`isLoading, this`modelFile, loader`cacheDir, loader`requests
      ensures model !in Alphabets ==>
        && thrown == Some(UnknownAlphabet(model))
        && isLoading && modelFile == old(modelFile)
        && loader.cacheDir == old(loader.cacheDir) && loader.requests == old(loader.requests)
      ensures model in Alphabets ==>
        var d := DownloadSpec(old(loader.cacheDir), Alphabets[model], now, fetch, copy);
        && thrown == None && !isLoading
        && modelFile == d.file
        && loader.cacheDir == d.dir
        && loader.requests == old(loader.requests) + (if d.fetched then [(loader.bucketId, Alphabets[model])] else [])
    {
      isLoading := true;
      var fileName := GetModelForAlphabet(model);
      if fileName.Failure? {
        return Some(fileName.error);
      }
      modelFile := loader.DownloadModel(fileName.value, now, fetch, copy);
      isLoading := false;
      thrown := None;
    }

    /** `onSessionUpdated`: only records the frame, and only while the scene is composed. */
    method OnSessionUpdated(updatedFrame: Frame)
      modifies scene
      ensures ViewOf(isLoading, modelFile) == Scene ==> scene.frame == Some(updatedFrame)
      ensures ViewOf(isLoading, modelFile) != Scene ==> scene.frame == old(scene.frame)
      ensures scene.childNodes == old(scene.childNodes)
    {
      if ViewOf(isLoading, modelFile) == Scene {
        scene.frame := Some(updatedFrame);
      }
    }

    /**
     * `onSingleTapConfirmed(e, node)`: a tap on empty space with a frame, a first
     * valid hit that yields an anchor, and a loaded file appends one boxed
     * placement; anything else changes nothing.
     */
    method OnSingleTapConfirmed(tapped: Node?, hits: seq<HitResult>)
      modifies scene, scene.instances, scene.modelLoader
      ensures var a := TapAnchor(hits);
        var placed := ViewOf(isLoading, modelFile) == Scene && tapped == null && old(scene.frame).Some? && a.Some?;
        && (placed ==>
              && |scene.childNodes| == |old(scene.childNodes)| + 1
              && scene.childNodes[..|old(scene.childNodes)|] == old(scene.childNodes)
              && fresh(scene.childNodes[|old(scene.childNodes)|])
              && IsBoxedPlacement(scene.childNodes[|old(scene.childNodes)|], a.value,
                   Taken(old(scene.instances.items), modelFile.value, old(scene.modelLoader.created)))
              && scene.instances.items == AfterTake(old(scene.instances.items), modelFile.value, old(scene.modelLoader.created))
              && scene.frame == old(scene.frame))
        && (!placed ==> unchanged(scene) && unchanged(scene.instances) && unchanged(scene.modelLoader))
    {
      if ViewOf(isLoading, modelFile) != Scene || tapped != null || scene.frame.None? {
        return;
      }
      var hit := FirstOrNull(hits, IsValidHit);
      if hit.Some? && hit.value.anchor.Some? {
        if modelFile.Some? {
          var node := CreateAnchorNode(scene.modelLoader, scene.instances, hit.value.anchor.value, modelFile.value);
          scene.childNodes := scene.childNodes + [node];
        }
      }
    }
  }
}

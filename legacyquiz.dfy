/**
 * The older `QuizScreen` (com/example/dna/ui/screen/QuizScreen.kt): no
 * pre-fetch, and nothing but a spinner or the error text until the model file
 * is loaded.
 */
module LegacyQuizScreen {
  import opened Base
  import opened Utils
  import opened SceneGraph
  import opened ArCore
  import opened ModelCache
  import opened QuizRules

  /** What the screen shows: only the spinner, only the error text, or the scene with score and answers. */
  datatype LegacyView = Progress | ErrorText | Playing

  function ViewOf(isLoading: bool, modelFile: Option<string>): LegacyView {
    if isLoading then Progress else if modelFile.None? then ErrorText else Playing
  }

  /** While loading only the spinner shows; after loading a missing file shows only the error text. */
  lemma ViewGating(isLoading: bool, modelFile: Option<string>)
    ensures ViewOf(isLoading, modelFile) == Progress <==> isLoading
    ensures ViewOf(isLoading, modelFile) == ErrorText <==> !isLoading && modelFile.None?
    ensures ViewOf(isLoading, modelFile) == Playing <==> !isLoading && modelFile.Some?
  {
  }

  class Quiz {
    var score: Int32
    var model: (string, string)
    var modelFile: Option<string>
    var isLoading: bool
    var listOfAnswers: seq<string>
    const scene: SceneState

    ghost predicate Valid()
      reads this
    {
      && model.0 in Alphabets && model.1 == Alphabets[model.0]
      && IsAnswerList(model.0, listOfAnswers)
    }

    constructor ()
      ensures Valid() && score == 0 && modelFile == None && isLoading
      ensures fresh(scene) && fresh(scene.instances) && fresh(scene.modelLoader)
      ensures scene.childNodes == [] && scene.frame == None && scene.instances.items == []
    {
      var first := RandomModel();
      var answers := NewAnswerList(first.0);
      score := 0;
      model := first;
      modelFile := None;
      isLoading := true;
      listOfAnswers := answers;
      scene := new SceneState();
    }

    /** `LaunchedEffect(model.value.second)`: loading shown, the current file downloaded, loading hidden. */
    method LoadModel(loader: AppwriteModelLoader, now: int, fetch: Fetch, copy: Copy)
      requires Valid()
      modifies this`isLoading, this`modelFile, loader`cacheDir, loader`requests
      ensures Valid() && !isLoading
      ensures var d := DownloadSpec(old(loader.cacheDir), model.1, now, fetch, copy);
        && modelFile == d.file
        && loader.cacheDir == d.dir
        && loader.requests == old(loader.requests) + (if d.fetched then [(loader.bucketId, model.1)] else [])
    {
      isLoading := true;
      modelFile := loader.DownloadModel(model.1, now, fetch, copy);
      isLoading := false;
    }

    /** `onSessionUpdated`; the scene is composed only while `Playing`. */
    method OnSessionUpdated(updatedFrame: Frame, updatedPlanes: seq<Plane>)
      requires Valid()
      modifies scene, scene.instances, scene.modelLoader
      ensures Valid()
      ensures ViewOf(isLoading, modelFile) != Playing ==>
        unchanged(scene) && unchanged(scene.instances) && unchanged(scene.modelLoader)
      ensures ViewOf(isLoading, modelFile) == Playing ==> scene.frame == Some(updatedFrame)
      ensures var a := AutoPlacementAnchor(updatedPlanes);
        var placed := ViewOf(isLoading, modelFile) == Playing && old(scene.childNodes) == [] && a.Some?;
        && (placed ==>
              && |scene.childNodes| == 1
              && fresh(scene.childNodes[0])
              && IsBoxedPlacement(scene.childNodes[0], a.value,
                   Taken(old(scene.instances.items), modelFile.value, old(scene.modelLoader.created)))
              && scene.instances.items == AfterTake(old(scene.instances.items), modelFile.value, old(scene.modelLoader.created)))
        && (!placed ==>
              && scene.childNodes == old(scene.childNodes)
              && scene.instances.items == old(scene.instances.items)
              && scene.modelLoader.created == old(scene.modelLoader.created))
    {
      if ViewOf(isLoading, modelFile) == Playing {
        AutoPlaceOnSessionUpdate(scene, modelFile, updatedFrame, updatedPlanes);
      }
    }

    /**
     * An answer button's `onClick`; the buttons exist only while `Playing`. A
     * correct answer adds 1 to the score, draws a fresh random question, rebuilds
     * the answers and resets the scene; a wrong one changes nothing.
     */
    method OnAnswerClick(answer: string)
      requires Valid()
      modifies this, scene, scene.instances
      ensures Valid()
      ensures var correct := ViewOf(old(isLoading), old(modelFile)) == Playing && answer == old(model.0);
        && (correct ==>
              && score == Increment(old(score))
              && modelFile == old(modelFile) && isLoading == old(isLoading)
              && scene.childNodes == [] && scene.frame == None && scene.instances.items == [])
        && (!correct ==> unchanged(this) && unchanged(scene) && unchanged(scene.instances))
    {
      if ViewOf(isLoading, modelFile) != Playing {
        return;
      }
      if answer == model.0 {
        score := Increment(score);
        model := RandomModel();
        listOfAnswers := NewAnswerList(model.0);
        scene.Reset();
      }
    }
  }
}

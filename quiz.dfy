/**
 * `QuizScreen` (com/razorquake/dna/ui/screen/QuizScreen.kt): the quiz with a
 * pre-fetched next question. Compose state cells are fields; each callback the
 * screen installs is a method.
 */
module QuizScreen {
  import opened Base
  import opened Utils
  import opened SceneGraph
  import opened ArCore
  import opened ModelCache
  import opened QuizRules

  /** What the screen shows: the error text alone, or the scene with the answer row (and a spinner while loading). */
  datatype QuizView = ErrorText | Playing(answersEnabled: bool, progressShown: bool)

  function ViewOf(isLoading: bool, modelFile: Option<string>): QuizView {
    if modelFile.None? && !isLoading then ErrorText else Playing(!isLoading, isLoading)
  }

  /** The error text shows only after loading ended without a file; otherwise the buttons are enabled exactly when not loading. */
  lemma ViewGating(isLoading: bool, modelFile: Option<string>)
    ensures ViewOf(isLoading, modelFile) == ErrorText <==> !isLoading && modelFile.None?
    ensures ViewOf(isLoading, modelFile).Playing? ==>
      ViewOf(isLoading, modelFile).answersEnabled == !isLoading && ViewOf(isLoading, modelFile).progressShown == isLoading
    ensures isLoading ==> ViewOf(isLoading, modelFile) == Playing(false, true)
  {
  }

  /** A question: a letter and its model file. */
  predicate IsQuestion(m: (string, string)) {
    m.0 in Alphabets && m.1 == Alphabets[m.0]
  }

  class Quiz {
    var score: Int32
    var model: (string, string)
    var nextModel: Option<(string, string)>
    var modelFile: Option<string>
    var isLoading: bool
    var listOfAnswers: seq<string>
    const scene: SceneState

    /**
     * The current and the pre-fetched question are table pairs, the answer list
     * fits the current letter, and the pool holds instances only once a node is
     * placed: it starts empty and is cleared together with the nodes.
     */
    ghost predicate Valid()
      reads this, scene, scene.instances
    {
      && IsQuestion(model)
      && (nextModel.Some? ==> IsQuestion(nextModel.value))
      && IsAnswerList(model.0, listOfAnswers)
      && (scene.childNodes == [] ==> scene.instances.items == [])
    }

    /** The screen's first composition: score 0, a random question, no pre-fetch yet, loading. */
    constructor ()
      ensures Valid() && score == 0 && nextModel == None && modelFile == None && isLoading
      ensures fresh(scene) && fresh(scene.instances) && fresh(scene.modelLoader)
      ensures scene.childNodes == [] && scene.frame == None && scene.instances.items == []
    {
      var first := RandomModel();
      var answers := NewAnswerList(first.0);
      score := 0;
      model := first;
      nextModel := None;
      modelFile := None;
      isLoading := true;
      listOfAnswers := answers;
      scene := new SceneState();
    }

    /** `LaunchedEffect(Unit) { nextModel.value = Utils.randomModel() }` */
    method PrefetchNext()
      requires Valid()
      modifies this`nextModel
      ensures Valid() && nextModel.Some?
    {
      var next := RandomModel();
      nextModel := Some(next);
    }

    /** The start of `LaunchedEffect(model.value.second)`: `isLoading.value = true`. */
    method StartLoading()
      requires Valid()
      modifies this`isLoading
      ensures Valid() && isLoading
    {
      isLoading := true;
    }

    /** The rest of that effect: download the current question's file, then hide the spinner. */
    method FinishLoading(loader: AppwriteModelLoader, now: int, fetch: Fetch, copy: Copy)
      requires Valid()
      modifies this`isLoading, this`modelFile, loader`cacheDir, loader`requests
      ensures Valid() && !isLoading
      ensures var d := DownloadSpec(old(loader.cacheDir), model.1, now, fetch, copy);
        && modelFile == d.file
        && loader.cacheDir == d.dir
        && loader.requests == old(loader.requests) + (if d.fetched then [(loader.bucketId, model.1)] else [])
    {
      modelFile := loader.DownloadModel(model.1, now, fetch, copy);
      isLoading := false;
    }

    /** `onSessionUpdated`; the scene is not composed while the error text shows, so no update arrives then. */
    method OnSessionUpdated(updatedFrame: Frame, updatedPlanes: seq<Plane>)
      requires Valid()
      modifies scene, scene.instances, scene.modelLoader
      ensures Valid()
      ensures ViewOf(isLoading, modelFile) == ErrorText ==>
        unchanged(scene) && unchanged(scene.instances) && unchanged(scene.modelLoader)
      ensures ViewOf(isLoading, modelFile) != ErrorText ==> scene.frame == Some(updatedFrame)
      ensures var a := AutoPlacementAnchor(updatedPlanes);
        var placed := ViewOf(isLoading, modelFile) != ErrorText && old(scene.childNodes) == [] && a.Some? && modelFile.Some?;
        && (placed ==>
              && |scene.childNodes| == 1
              && fresh(scene.childNodes[0])
              && IsBoxedPlacement(scene.childNodes[0], a.value,
                   Taken(old(scene.instances.items), modelFile.value, old(scene.modelLoader.created)))
              && scene.instances.items == AfterTake(old(scene.instances.items), modelFile.value, old(scene.modelLoader.created))
              && scene.childNodes[0].children[0].kind.instance.asset == modelFile.value)
        && (!placed ==>
              && scene.childNodes == old(scene.childNodes)
              && scene.instances.items == old(scene.instances.items)
              && scene.modelLoader.created == old(scene.modelLoader.created))
    {
      ghost var created0 := scene.modelLoader.created;
      if ViewOf(isLoading, modelFile) != ErrorText {
        AutoPlaceOnSessionUpdate(scene, modelFile, updatedFrame, updatedPlanes);
        if modelFile.Some? {
          TakeFromEmptyPool(modelFile.value, created0);
        }
      }
    }

    /**
     * `onSessionUpdated` with the loaded file checked against the current
     * question: a file left over from the previous question is not placed, so
     * the placed instance is always the current letter's model.
     */
    method OnSessionUpdatedCorrected(updatedFrame: Frame, updatedPlanes: seq<Plane>)
      requires Valid()
      modifies scene, scene.instances, scene.modelLoader
      ensures Valid()
      ensures ViewOf(isLoading, modelFile) == ErrorText ==>
        unchanged(scene) && unchanged(scene.instances) && unchanged(scene.modelLoader)
      ensures ViewOf(isLoading, modelFile) != ErrorText ==> scene.frame == Some(updatedFrame)
      ensures var a := AutoPlacementAnchor(updatedPlanes);
        var placed := ViewOf(isLoading, modelFile) != ErrorText && old(scene.childNodes) == [] && a.Some?
          && modelFile == Some(model.1);
        && (placed ==>
              && |scene.childNodes| == 1
              && fresh(scene.childNodes[0])
              && IsBoxedPlacement(scene.childNodes[0], a.value,
                   Taken(old(scene.instances.items), model.1, old(scene.modelLoader.created)))
              && scene.instances.items == AfterTake(old(scene.instances.items), model.1, old(scene.modelLoader.created))
              && scene.childNodes[0].children[0].kind.instance.asset == Alphabets[model.0])
        && (!placed ==>
              && scene.childNodes == old(scene.childNodes)
              && scene.instances.items == old(scene.instances.items)
              && scene.modelLoader.created == old(scene.modelLoader.created))
    {
      ghost var created0 := scene.modelLoader.created;
      if ViewOf(isLoading, modelFile) != ErrorText {
        var current := if modelFile == Some(model.1) then modelFile else None;
        AutoPlaceOnSessionUpdate(scene, current, updatedFrame, updatedPlanes);
        TakeFromEmptyPool(model.1, created0);
      }
    }

    /**
     * An answer button's `onClick`. The row exists unless the error text shows
     * and its buttons are disabled while loading, so a click counts only when
     * not loading and a file is loaded. A correct answer adds 1 to the score,
     * moves to the pre-fetched question (if any) and pre-fetches a new one,
     * rebuilds the answers and resets the scene; a wrong one changes nothing.
     */
    method OnAnswerClick(answer: string)
      requires Valid()
      modifies this, scene, scene.instances
      ensures Valid()
      ensures var correct := !old(isLoading) && old(modelFile).Some? && answer == old(model.0);
        && (correct ==>
              && score == Increment(old(score))
              && (old(nextModel).Some? ==> model == old(nextModel).value && nextModel.Some?)
              && (old(nextModel).None? ==> model == old(model) && nextModel == None)
              && modelFile == old(modelFile) && isLoading == old(isLoading)
              && scene.childNodes == [] && scene.frame == None && scene.instances.items == [])
        && (!correct ==> unchanged(this) && unchanged(scene) && unchanged(scene.instances))
    {
      if isLoading || modelFile.None? {
        return;
      }
      if answer == model.0 {
        score := Increment(score);
        if nextModel.Some? {
          model := nextModel.value;
          var next := RandomModel();
          nextModel := Some(next);
        }
        listOfAnswers := NewAnswerList(model.0);
        scene.Reset();
      }
    }
  }

  /** Question "A" loaded and "B" pre-fetched. */
  method LoadedFirstQuestion(body: seq<Byte>) returns (quiz: Quiz)
    ensures fresh(quiz) && fresh(quiz.scene) && fresh(quiz.scene.instances) && fresh(quiz.scene.modelLoader)
    ensures quiz.Valid()
    ensures quiz.model == ("A", "apple.glb") && quiz.nextModel == Some(("B", "ball.glb"))
    ensures quiz.modelFile == Some("apple.glb") && !quiz.isLoading
    ensures quiz.scene.childNodes == [] && quiz.scene.instances.items == []
  {
    quiz := new Quiz();
    // The random picks: "A" first, then "B" as the pre-fetched question.
    quiz.model := ("A", "apple.glb");
    quiz.nextModel := Some(("B", "ball.glb"));
    quiz.listOfAnswers := ["A", "A", "A", "A"];
    var loader := new AppwriteModelLoader("models", map[]);
    quiz.FinishLoading(loader, 0, Fetched(body), Copied);
  }

  /**
   * The previous question's model is placed for the new one: question "A" is
   * loaded, "B" is pre-fetched, "A" is answered, and while "ball.glb" loads a
   * session update reports an upward plane. The handler places "apple.glb".
   */
  method StalePlacementScenario(anchor: Anchor, body: seq<Byte>) returns (placedAsset: string, currentFile: string)
    ensures placedAsset == "apple.glb" && currentFile == "ball.glb"
  {
    var quiz := LoadedFirstQuestion(body);
    quiz.OnAnswerClick("A");
    quiz.StartLoading();
    var planes := [Plane(HorizontalUpwardFacing, Some(anchor))];
    assert FirstOrNull(planes, IsUpwardFacing) == Some(planes[0]);
    quiz.OnSessionUpdated(Frame(1), planes);
    placedAsset := quiz.scene.childNodes[0].children[0].kind.instance.asset;
    currentFile := quiz.model.1;
  }

  /**
   * The same run with the corrected handler: while "ball.glb" loads, the left-over
   * "apple.glb" is not placed, so the scene stays empty for question "B".
   */
  method CorrectedPlacementScenario(anchor: Anchor, body: seq<Byte>) returns (placedCount: nat, currentFile: string)
    ensures placedCount == 0 && currentFile == "ball.glb"
  {
    var quiz := LoadedFirstQuestion(body);
    quiz.OnAnswerClick("A");
    quiz.StartLoading();
    var planes := [Plane(HorizontalUpwardFacing, Some(anchor))];
    quiz.OnSessionUpdatedCorrected(Frame(1), planes);
    placedCount := |quiz.scene.childNodes|;
    currentFile := quiz.model.1;
  }
}

/**
 * What the two quiz screens (com/razorquake/dna/ui/screen/QuizScreen.kt and
 * com/example/dna/ui/screen/QuizScreen.kt) do alike: the score counter, the
 * answer list and the auto-placement on a session update.
 */
module QuizRules {
  import opened Base
  import opened Utils
  import opened SceneGraph
  import opened ArCore

  /** Kotlin's `Int`, the type of `mutableIntStateOf`. */
  newtype Int32 = x: int | -0x8000_0000 <= x < 0x8000_0000

  const Int32Max: Int32 := 0x7fff_ffff
  const Int32Min: Int32 := -0x8000_0000

  /** `score.intValue += 1` with Kotlin's wrap-around on overflow. */
  function Increment(x: Int32): Int32 {
    if x == Int32Max then Int32Min else x + 1
  }

  /** The score after a run of answers, starting from `start`; `true` marks a correct answer. */
  function ScoreAfter(start: Int32, correct: seq<bool>): Int32
    decreases |correct|
  {
    if correct == [] then start
    else ScoreAfter(if correct[0] then Increment(start) else start, correct[1..])
  }

  function CountCorrect(correct: seq<bool>): nat
    decreases |correct|
  {
    if correct == [] then 0 else (if correct[0] then 1 else 0) + CountCorrect(correct[1..])
  }

  /**
   * Below the 32-bit limit the score counts the correct answers exactly: each one
   * adds 1 and a wrong one adds 0, so from 0 it never decreases.
   */
  lemma {:induction false} ScoreCountsCorrectAnswers(start: Int32, correct: seq<bool>)
    requires start as int + |correct| <= Int32Max as int
    ensures ScoreAfter(start, correct) as int == start as int + CountCorrect(correct)
    ensures ScoreAfter(start, correct) >= start
    decreases |correct|
  {
    if correct != [] {
      var next := if correct[0] then Increment(start) else start;
      assert next as int == start as int + (if correct[0] then 1 else 0);
      ScoreCountsCorrectAnswers(next, correct[1..]);
    }
  }

  /** At the limit one more correct answer wraps the score to the smallest Int. */
  lemma ScoreWrapsAtLimit()
    ensures ScoreAfter(Int32Max, [true]) == Int32Min
  {
  }

  /**
   * A well-formed answer list: four labels, the correct one among them at
   * least once, every label a key of the table.
   */
  predicate IsAnswerList(correct: string, answers: seq<string>) {
    && |answers| == 4
    && correct in answers
    && forall i :: 0 <= i < |answers| ==> answers[i] in Alphabets
  }

  /** `shuffled()`: some permutation of `s`, chosen nondeterministically. */
  method Shuffled<T(==)>(s: seq<T>) returns (r: seq<T>)
    ensures multiset(r) == multiset(s)
  {
    r :| multiset(r) == multiset(s);
  }

  /**
   * `listOf(correct, keys.random(), keys.random(), keys.random()).shuffled()`:
   * the three distractors are drawn independently from all keys, so they may
   * repeat each other or the correct label.
   */
  method NewAnswerList(correct: string) returns (answers: seq<string>)
    ensures multiset(answers)[correct] >= 1 && |answers| == 4
    ensures forall i :: 0 <= i < |answers| ==> answers[i] == correct || answers[i] in Alphabets
    ensures correct in Alphabets ==> IsAnswerList(correct, answers)
  {
    var d1 := RandomKey();
    var d2 := RandomKey();
    var d3 := RandomKey();
    var drawn := [correct, d1, d2, d3];
    answers := Shuffled(drawn);
    ShuffleKeepsLabels(drawn, answers);
  }

  lemma ShuffleKeepsLabels(drawn: seq<string>, answers: seq<string>)
    requires multiset(answers) == multiset(drawn)
    ensures |answers| == |drawn|
    ensures forall i :: 0 <= i < |answers| ==> answers[i] in drawn
    ensures forall x :: x in drawn ==> x in answers
  {
    assert |multiset(answers)| == |multiset(drawn)|;
    forall i | 0 <= i < |answers| ensures answers[i] in drawn {
      assert answers[i] in multiset(answers);
    }
    forall x | x in drawn ensures x in answers {
      assert x in multiset(drawn);
    }
  }

  /**
   * The answer lists the code can produce are exactly the well-formed ones: every
   * shuffle of the correct label and three keys is well formed, and every
   * well-formed list is such a shuffle.
   */
  lemma AnswerListsAreShuffles(correct: string, answers: seq<string>)
    requires correct in Alphabets
    ensures IsAnswerList(correct, answers) <==>
      exists d1, d2, d3 :: d1 in Alphabets && d2 in Alphabets && d3 in Alphabets
        && multiset(answers) == multiset([correct, d1, d2, d3])
  {
    if IsAnswerList(correct, answers) {
      var i :| 0 <= i < 4 && answers[i] == correct;
      var rest := ShuffleWitness(correct, answers, i);
      assert rest[0] in Alphabets && rest[1] in Alphabets && rest[2] in Alphabets;
    }
    forall d1, d2, d3 | d1 in Alphabets && d2 in Alphabets && d3 in Alphabets
      && multiset(answers) == multiset([correct, d1, d2, d3])
      ensures IsAnswerList(correct, answers)
    {
      ShuffleKeepsLabels([correct, d1, d2, d3], answers);
    }
  }

  /** Taking out one occurrence of the correct label leaves the three distractors. */
  lemma ShuffleWitness(correct: string, answers: seq<string>, i: nat) returns (rest: seq<string>)
    requires |answers| == 4 && i < 4 && answers[i] == correct
    ensures |rest| == 3 && forall k :: 0 <= k < 3 ==> rest[k] in answers
    ensures multiset(answers) == multiset([correct, rest[0], rest[1], rest[2]])
  {
    rest := answers[..i] + answers[i + 1..];
    assert answers == answers[..i] + [answers[i]] + answers[i + 1..];
    assert multiset(answers) == multiset([correct]) + multiset(rest);
    forall k | 0 <= k < 3 ensures rest[k] in answers {
      if k < i { assert rest[k] == answers[k]; } else { assert rest[k] == answers[k + 1]; }
    }
    assert rest == [rest[0], rest[1], rest[2]];
    assert [correct, rest[0], rest[1], rest[2]] == [correct] + rest;
  }

  /** The correct label is not guaranteed to appear only once: a distractor may repeat it. */
  lemma CorrectLabelMayRepeat()
    ensures IsAnswerList("A", ["B", "A", "C", "A"])
    ensures multiset(["B", "A", "C", "A"])["A"] == 2
  {
  }

  /**
   * `onSessionUpdated`: record the frame; while nothing is placed, attach one
   * boxed placement to the anchor of the first upward-facing plane, provided the
   * model file is loaded.
   */
  method AutoPlaceOnSessionUpdate(scene: SceneState, modelFile: Option<string>, updatedFrame: Frame, updatedPlanes: seq<Plane>)
    modifies scene, scene.instances, scene.modelLoader
    ensures scene.frame == Some(updatedFrame)
    ensures var a := AutoPlacementAnchor(updatedPlanes);
      var placed := old(scene.childNodes) == [] && a.Some? && modelFile.Some?;
      && (placed ==>
            && |scene.childNodes| == 1
            && fresh(scene.childNodes[0])
            && IsBoxedPlacement(scene.childNodes[0], a.value,
                 Taken(old(scene.instances.items), modelFile.value, old(scene.modelLoader.created)))
            && scene.instances.items == AfterTake(old(scene.instances.items), modelFile.value, old(scene.modelLoader.created)))
      && (!placed ==>
            && scene.childNodes == old(scene.childNodes)
            && scene.instances.items == old(scene.instances.items)
            && scene.modelLoader.created == old(scene.modelLoader.created))
  {
    scene.frame := Some(updatedFrame);
    if scene.childNodes == [] {
      var plane := FirstOrNull(updatedPlanes, IsUpwardFacing);
      if plane.Some? {
        var anchor := plane.value.centerAnchor;
        if anchor.Some? {
          if modelFile.Some? {
            var node := CreateAnchorNode(scene.modelLoader, scene.instances, anchor.value, modelFile.value);
            scene.childNodes := scene.childNodes + [node];
          }
        }
      }
    }
  }
}

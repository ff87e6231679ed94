/**
 * The letter table of `Utils` and the lookups built on it
 * (com/razorquake/dna/util/Utils.kt).
 */
module Utils {
  import opened Base
  import opened SceneGraph

  /** The exception `getModelForAlphabet` raises through Kotlin's `error(...)`. */
  datatype Error = UnknownAlphabet(alphabet: string)

  const UnknownAlphabetPrefix := "Unknown alphabet: "

  function Message(e: Error): string {
    UnknownAlphabetPrefix + e.alphabet
  }

  /** `Utils.alphabets`: letter to the name of its model file in remote storage. */
  const Alphabets: map<string, string> := map[
    "A" := "apple.glb",
    "B" := "ball.glb",
    "C" := "cat.glb",
    "D" := "dog.glb",
    "E" := "elephant.glb",
    "F" := "fox.glb",
    "G" := "goat.glb",
    "H" := "hen.glb",
    "I" := "icecream.glb",
    "J" := "jug.glb",
    "K" := "kite.glb",
    "L" := "lion.glb",
    "M" := "monkey.glb",
    "N" := "nest.glb",
    "O" := "owl.glb",
    "P" := "parrot.glb",
    "Q" := "quail.glb",
    "R" := "rat.glb",
    "S" := "ship.glb",
    "T" := "telephone.glb",
    "U" := "umbrella.glb",
    "V" := "van.glb",
    "W" := "watch.glb",
    "X" := "xylophone.glb",
    "Y" := "yacht.glb",
    "Z" := "zebra.glb"
  ]

  /** A key of the table: one upper-case Latin letter. */
  predicate IsLetter(k: string) {
    |k| == 1 && 'A' <= k[0] <= 'Z'
  }

  function LowerCase(c: char): char
    requires 'A' <= c <= 'Z'
  {
    (c as int - 'A' as int + 'a' as int) as char
  }

  /** The naming scheme of the table: the file of a letter is named after a word starting with that letter. */
  predicate NamesModelOf(k: string, file: string)
    requires IsLetter(k)
  {
    |file| > 0 && file[0] == LowerCase(k[0])
  }

  /** The table has exactly the keys "A" to "Z", and each names a file whose name starts with its letter in lower case. */
  lemma AlphabetKeysAreLetters(k: string)
    ensures k in Alphabets <==> IsLetter(k)
    ensures k in Alphabets ==> NamesModelOf(k, Alphabets[k])
  {
    if k in Alphabets {
      KeysAreLetters(k);
    }
    if IsLetter(k) {
      assert k == [k[0]];
      LettersAreKeys(k[0]);
    }
  }

  /** Every key is a letter and its file starts with that letter. */
  lemma KeysAreLetters(k: string)
    requires k in Alphabets
    ensures IsLetter(k)
    ensures NamesModelOf(k, Alphabets[k])
  {
  }

  /** Every letter is a key. */
  lemma LettersAreKeys(c: char)
    requires 'A' <= c <= 'Z'
    ensures [c] in Alphabets
  {
    var i := c as int - 'A' as int;
    assert 0 <= i < 26;
  }

  /** No two letters share a model file: the table is injective. */
  lemma AlphabetFilesDistinct(k1: string, k2: string)
    requires k1 in Alphabets && k2 in Alphabets && k1 != k2
    ensures Alphabets[k1] != Alphabets[k2]
  {
    AlphabetKeysAreLetters(k1);
    AlphabetKeysAreLetters(k2);
    FirstLetterDecides(k1, k2, Alphabets[k1], Alphabets[k2]);
  }

  lemma FirstLetterDecides(k1: string, k2: string, f1: string, f2: string)
    requires IsLetter(k1) && IsLetter(k2) && k1 != k2
    requires NamesModelOf(k1, f1) && NamesModelOf(k2, f2)
    ensures f1 != f2
  {
    assert k1 == [k1[0]] && k2 == [k2[0]];
  }

  /** `getModelForAlphabet`: the table entry, or the "Unknown alphabet" error for any other key. */
  function GetModelForAlphabet(alphabet: string): (r: Result<string, Error>)
    ensures r.Success? <==> alphabet in Alphabets
    ensures r.Success? ==> r.value == Alphabets[alphabet]
    ensures r.Failure? ==> Message(r.error) == UnknownAlphabetPrefix + alphabet
  {
    if alphabet in Alphabets then Success(Alphabets[alphabet]) else Failure(UnknownAlphabet(alphabet))
  }

  /** A single upper-case letter always resolves to a file named after it; anything else, such as "1" or "a", is unknown. */
  lemma GetModelForAlphabetOnLetters(alphabet: string)
    ensures IsLetter(alphabet) ==> GetModelForAlphabet(alphabet).Success? && NamesModelOf(alphabet, GetModelForAlphabet(alphabet).value)
    ensures !IsLetter(alphabet) ==> GetModelForAlphabet(alphabet) == Failure(UnknownAlphabet(alphabet))
  {
    AlphabetKeysAreLetters(alphabet);
  }

  /** `alphabets.keys.random()`: some key of the table, chosen nondeterministically. */
  method RandomKey() returns (k: string)
    ensures k in Alphabets
  {
    assert "A" in Alphabets;
    k :| k in Alphabets;
  }

  /** `randomModel()`: a random key paired with its own table entry. */
  method RandomModel() returns (m: (string, string))
    ensures m.0 in Alphabets && m.1 == Alphabets[m.0]
    ensures NamesModelOf(m.0, m.1)
  {
    var alphabet := RandomKey();
    AlphabetKeysAreLetters(alphabet);
    m := (alphabet, Alphabets[alphabet]);
  }

  /** `scaleToUnits = 0.2f` of the model node `createAnchorNode` builds. */
  const ScaleToUnits: real := 0.2

  /**
   * The shape `createAnchorNode` returns: an anchor node for `anchor` whose only
   * child is an editable model node of `instance`; the model node's only child is
   * an invisible, childless bounding box, and the editing callbacks of both the
   * model node and the anchor node drive that box.
   */
  ghost predicate IsBoxedPlacement(a: Node, anchor: Anchor, instance: Instance)
    reads a, a.children, if |a.children| == 1 then a.children[0].children else []
  {
    && a.kind == AnchorNode(anchor)
    && |a.children| == 1
    && var m := a.children[0];
       && m.kind == ModelNode(instance, ScaleToUnits)
       && m.isEditable
       && |m.children| == 1
       && var box := m.children[0];
          && box.kind == CubeNode
          && !box.isVisible
          && box.children == []
          && box.onEditingChanged == null
          && m.onEditingChanged == box
          && a.onEditingChanged == box
  }

  /**
   * `createAnchorNode`: take an instance from the pool (refilling an empty pool
   * with a batch of ten first; the second emptiness check finds the pool
   * non-empty), wrap it in a model node under a new anchor node, add an invisible
   * bounding box under the model node and install the editing callback on both
   * nodes.
   */
  method CreateAnchorNode(modelLoader: ModelLoader, modelInstance: InstanceList, anchor: Anchor, model: string)
    returns (anchorNode: Node)
    modifies modelLoader, modelInstance
    ensures modelInstance.items == AfterTake(old(modelInstance.items), model, old(modelLoader.created))
    ensures modelLoader.created == old(modelLoader.created) + (if old(modelInstance.items) == [] then BatchSize else 0)
    ensures IsBoxedPlacement(anchorNode, anchor, Taken(old(modelInstance.items), model, old(modelLoader.created)))
    ensures fresh(anchorNode) && fresh(anchorNode.children[0]) && fresh(anchorNode.children[0].children[0])
  {
    ghost var items0, created0 := modelInstance.items, modelLoader.created;
    anchorNode := new Node(AnchorNode(anchor));
    // The receiver and the argument of `removeAt` each run the refill block.
    modelInstance.RefillIfEmpty(modelLoader, model);
    ghost var created1 := modelLoader.created;
    modelInstance.RefillIfEmpty(modelLoader, model);
    RefillIsIdempotent(items0, model, created0, created1);
    var instance := modelInstance.RemoveAt(|modelInstance.items| - 1);
    var modelNode := new Node(ModelNode(instance, ScaleToUnits));
    modelNode.isEditable := true;
    var boundingBox := new Node(CubeNode);
    boundingBox.isVisible := false;
    modelNode.AddChildNode(boundingBox);
    anchorNode.AddChildNode(modelNode);
    ghost var items2, created2 := modelInstance.items, modelLoader.created;
    var observed := [modelNode, anchorNode];
    for i := 0 to |observed|
      invariant modelInstance.items == items2 && modelLoader.created == created2
      invariant forall j :: 0 <= j < i ==> observed[j].onEditingChanged == boundingBox
      invariant !boundingBox.isVisible && boundingBox.children == [] && boundingBox.onEditingChanged == null
      invariant modelNode.children == [boundingBox] && anchorNode.children == [modelNode]
      invariant modelNode.isEditable
    {
      observed[i].onEditingChanged := boundingBox;
    }
    assert observed[0] == modelNode && observed[1] == anchorNode;
  }

  /** The callback wiring of a boxed placement: both nodes' editing callbacks drive the model node's only child. */
  ghost predicate DrivesBox(a: Node)
    reads a, a.children, if |a.children| == 1 then a.children[0].children else []
  {
    && |a.children| == 1
    && |a.children[0].children| == 1
    && a.children[0].onEditingChanged == a.children[0].children[0]
    && a.onEditingChanged == a.children[0].children[0]
  }

  /** Which node of a placement reports an editing change. */
  datatype Reporter = FromModelNode | FromAnchorNode

  /** The transform sets of a run of reports, in order. */
  function ReportedSets(reports: seq<(Reporter, set<EditTransform>)>): seq<set<EditTransform>> {
    seq(|reports|, i requires 0 <= i < |reports| => reports[i].1)
  }

  /**
   * A run of editing reports from either node of a placement, each running the
   * installed callback: the box ends up as `VisibilityAfter` says, so whichever
   * node reported last decides.
   */
  method ReportEdits(a: Node, reports: seq<(Reporter, set<EditTransform>)>)
    requires DrivesBox(a)
    modifies {a.children[0].children[0]}`isVisible
    ensures a.children[0].children[0].isVisible ==
      VisibilityAfter(old(a.children[0].children[0].isVisible), ReportedSets(reports))
    ensures reports != [] ==> a.children[0].children[0].isVisible == (reports[|reports| - 1].1 != {})
  {
    var m := a.children[0];
    var box := m.children[0];
    ghost var initial := box.isVisible;
    for i := 0 to |reports|
      invariant DrivesBox(a) && a.children[0] == m && m.children[0] == box
      invariant i == 0 ==> box.isVisible == initial
      invariant i > 0 ==> box.isVisible == (reports[i - 1].1 != {})
    {
      match reports[i].0 {
        case FromModelNode => m.EditingChanged(reports[i].1);
        case FromAnchorNode => a.EditingChanged(reports[i].1);
      }
    }
    if reports != [] {
      LastEditingEventWins(initial, ReportedSets(reports));
    }
  }

  /**
   * A placement whose model node starts a rotation and whose anchor node then
   * reports an empty set: the box ends up hidden although the model node never
   * reported the end of its rotation.
   */
  method EditingScenario(anchor: Anchor) returns (shownWhileRotating: bool, shownAtEnd: bool)
    ensures shownWhileRotating && !shownAtEnd
  {
    var loader := new ModelLoader();
    var pool := new InstanceList();
    var anchorNode := CreateAnchorNode(loader, pool, anchor, Alphabets["A"]);
    var modelNode := anchorNode.children[0];
    var box := modelNode.children[0];
    modelNode.EditingChanged({Rotation});
    shownWhileRotating := box.isVisible;
    anchorNode.EditingChanged({});
    shownAtEnd := box.isVisible;
  }
}

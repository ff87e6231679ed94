# DNA — a Dafny model of the AR alphabet app

This project models the behaviour behind the screens of the DNA Android app. The app teaches the alphabet with augmented reality. Each letter names a 3-D model file ("A" is `apple.glb`). The files live in remote storage and are cached on the device for a day. Each is placed in the camera view on a detected surface: automatically on the first upward-facing plane, or where the user taps.

The model covers:

- the letter table and its lookups (`Utils`);
- the download cache with its age sweep (`AppwriteModelLoader`);
- the instance pool and the node wiring of both `createAnchorNode` variants;
- the session-update and tap handlers of the AR screens;
- the two quiz controllers: score, answer list, pre-fetch and scene reset.

Modules:

| module | file | models |
|---|---|---|
| `Base` | base.dfy | `Option`, `Result`, `Min` |
| `SceneGraph` | scene.dfy | nodes, the instance pool and its loader, the remembered scene state |
| `Utils` | utils.dfy | the letter table, `getModelForAlphabet`, `randomModel`, the boxed `createAnchorNode` |
| `ArCore` | arcore.dfy | `firstOrNull` over updated planes and hit results |
| `ModelCache` | cache.dfy | `AppwriteModelLoader`: sweep and download |
| `QuizRules` | quizrules.dfy | what both quiz screens share: the score, the answer list, auto-placement |
| `QuizScreen` | quiz.dfy | the quiz with a pre-fetched next question |
| `LegacyQuizScreen` | legacyquiz.dfy | the older quiz without pre-fetch |
| `MainActivity` | mainactivity.dfy | the `ARView` that places `dna.glb` |
| `ArScreen` | arscreen.dfy | the single-letter AR screen |

Things the app does not control are parameters of the call:

- the clock: `now`, in milliseconds;
- the answer of remote storage: `Fetch`;
- how the file copy ends: `Copy`;
- the planes and hit results the AR session reports, including whether `createAnchorOrNull` succeeds.

Random choices (`keys.random()`, `shuffled()`) are nondeterministic choices in methods. Every result they can give is covered.

Compose state cells are fields of a class, and each callback a screen installs is a method of that class. In the two quiz classes, every callback requires the class's `Valid()` invariant and keeps it. That invariant covers the table questions, a well-formed answer list and, for the pre-fetching quiz, a pool that is empty while nothing is placed.

## Model

| member | source | states |
|---|---|---|
| Utils.AlphabetKeysAreLetters | app/src/main/java/com/razorquake/dna/util/Utils.kt:15-42 | the table's keys are exactly the 26 single letters "A" to "Z", and each letter's file name starts with that letter in lower case |
| Utils.AlphabetFilesDistinct | app/src/main/java/com/razorquake/dna/util/Utils.kt:15-42 | two different letters never share a model file |
| Utils.GetModelForAlphabet | app/src/main/java/com/razorquake/dna/util/Utils.kt:43-44 | succeeds exactly for keys of the table, with that key's file; any other input fails with the message "Unknown alphabet: " followed by the input |
| Utils.GetModelForAlphabetOnLetters | app/src/main/java/com/razorquake/dna/util/Utils.kt:15-44 | every single upper-case letter resolves to a file named after it; every other string is an unknown alphabet |
| Utils.RandomKey | app/src/main/java/com/razorquake/dna/util/Utils.kt:90 | the random pick is a key of the table |
| Utils.RandomModel | app/src/main/java/com/razorquake/dna/util/Utils.kt:89-92 | returns a table key paired with that key's own file, so the `!!` never fails |
| Utils.CreateAnchorNode | app/src/main/java/com/razorquake/dna/util/Utils.kt:48-87 | takes the last instance of the pool, refilling an empty pool with a batch of ten first and never twice; builds an anchor node whose only child is an editable model node at scale 0.2 whose only child is an invisible bounding box; both nodes' editing callbacks drive that box; the pool loses exactly the taken instance |
| Utils.ReportEdits | app/src/main/java/com/razorquake/dna/util/Utils.kt:81-85 | a run of editing reports from either node of a placement leaves the box as `VisibilityAfter` says, so it is visible exactly when the last report was non-empty |
| Utils.EditingScenario | app/src/main/java/com/razorquake/dna/util/Utils.kt:81-85 | on a placement, a rotation under way on the model node shows the box; a later empty report from the anchor node hides it anyway |
| SceneGraph.ModelLoader.CreateInstancedModel | app/src/main/java/com/razorquake/dna/util/Utils.kt:60 | returns `count` new instances of the asset and records that they were created |
| SceneGraph.Refilled | app/src/main/java/com/razorquake/dna/util/Utils.kt:58-61 | the pool after the emptiness check: a batch of ten when empty, unchanged otherwise; `RefillIsIdempotent` states its properties |
| SceneGraph.Taken | app/src/main/java/com/razorquake/dna/util/Utils.kt:58-66 | the instance `removeAt(lastIndex)` hands out: the last element of the refilled pool; `TakeFromEmptyPool` and `TakeFromNonEmptyPool` state its values |
| SceneGraph.AfterTake | app/src/main/java/com/razorquake/dna/util/Utils.kt:58-66 | the refilled pool without its last element; `TakeFromEmptyPool` and `TakeFromNonEmptyPool` state its values |
| SceneGraph.TakeFromEmptyPool | app/src/main/java/com/razorquake/dna/util/Utils.kt:58-66 | an empty pool is refilled with exactly ten instances; the tenth is handed out and the other nine stay |
| SceneGraph.TakeFromNonEmptyPool | app/src/main/java/com/razorquake/dna/util/Utils.kt:58-66 | a non-empty pool is not refilled and loses exactly its last element (last in, first out) |
| SceneGraph.RefillIsIdempotent | app/src/main/java/com/razorquake/dna/util/Utils.kt:58-65 | the second emptiness check right after a refill never refills again, and a refilled pool is never empty |
| SceneGraph.InstanceList.RefillIfEmpty | app/src/main/java/com/razorquake/dna/util/Utils.kt:58-61 | an empty pool receives one batch of ten; a non-empty one is left alone |
| SceneGraph.InstanceList.RemoveAt | app/src/main/java/com/razorquake/dna/util/Utils.kt:62-66 | returns the element at the index and removes exactly it |
| SceneGraph.InstanceList.RemoveLast | app/src/main/java/com/example/dna/MainActivity.kt:266-270 | returns the last element and removes exactly it |
| SceneGraph.InstanceList.Clear | app/src/main/java/com/razorquake/dna/ui/screen/QuizScreen.kt:180 | the pool becomes empty |
| SceneGraph.Node.AddChildNode | app/src/main/java/com/razorquake/dna/util/Utils.kt:79-80 | the child is appended to the node's children |
| SceneGraph.Node.EditingChanged | app/src/main/java/com/razorquake/dna/util/Utils.kt:81-85 | an editing report sets the box's visibility to whether the set of edited transforms is non-empty |
| SceneGraph.LastEditingEventWins | app/src/main/java/com/razorquake/dna/util/Utils.kt:81-85 | after any run of editing reports, the box is visible exactly when the last report was non-empty |
| SceneGraph.VisibilityAfter | app/src/main/java/com/razorquake/dna/util/Utils.kt:81-85 | the box's visibility after a run of editing reports, each setting it from its own set; `LastEditingEventWins` states its meaning and `Utils.ReportEdits` ties it to the nodes |
| SceneGraph.VisibilityIsNotOrCombined | app/src/main/java/com/razorquake/dna/util/Utils.kt:81-85 | the box is not kept shown while the other node is still being edited: a rotation followed by an empty report leaves it hidden |
| SceneGraph.SceneState.Reset | app/src/main/java/com/razorquake/dna/ui/screen/QuizScreen.kt:179-181 | no placed nodes, an empty pool and no frame |
| ArCore.FirstOrNull | app/src/main/java/com/razorquake/dna/ui/screen/QuizScreen.kt:105-107 | returns nothing exactly when no element satisfies the predicate; otherwise returns an element that satisfies it and that no earlier element does |
| ArCore.AutoPlacementAnchor | app/src/main/java/com/razorquake/dna/ui/screen/QuizScreen.kt:105-108 | the anchor of the first upward-facing updated plane, if it gives one; `AutoPlacementUsesFirstUpwardPlane` characterises it |
| ArCore.AutoPlacementUsesFirstUpwardPlane | app/src/main/java/com/razorquake/dna/ui/screen/QuizScreen.kt:105-108 | a session update yields an anchor exactly when the first upward-facing plane among the updated ones yields one; no later plane is consulted |
| ArCore.TapAnchor | app/src/main/java/com/example/dna/MainActivity.kt:213-219 | the anchor of the first valid hit, if it gives one; `TapUsesFirstValidHit` characterises it |
| ArCore.TapUsesFirstValidHit | app/src/main/java/com/example/dna/MainActivity.kt:213-219 | a tap yields an anchor exactly when the first valid hit yields one |
| ArCore.FailedFirstPlaneIsNotRetried | app/src/main/java/com/example/dna/MainActivity.kt:196-199 | a first upward plane that fails to give an anchor hides a later upward plane that would have given one |
| ModelCache.ThresholdTime | app/src/main/java/com/razorquake/dna/data/AppwriteModelLoader.kt:24 | the deletion threshold at a clock reading; `ThresholdIsOneDay` states its value |
| ModelCache.ThresholdIsOneDay | app/src/main/java/com/razorquake/dna/data/AppwriteModelLoader.kt:20-24 | the deletion threshold is exactly 86 400 000 ms before now |
| ModelCache.Swept | app/src/main/java/com/razorquake/dna/data/AppwriteModelLoader.kt:26-30 | the directory after the sweep; `SweepDeletesExactlyStaleFiles` and `SweepIsIdempotent` state its properties, and `CleanOldCacheFiles` is proved to produce it |
| ModelCache.SweepDeletesExactlyStaleFiles | app/src/main/java/com/razorquake/dna/data/AppwriteModelLoader.kt:26-30 | a file survives the sweep iff it was modified at or after the threshold, and survivors are unchanged |
| ModelCache.SweepIsIdempotent | app/src/main/java/com/razorquake/dna/data/AppwriteModelLoader.kt:23-31 | sweeping twice at the same time equals sweeping once |
| ModelCache.AppwriteModelLoader.constructor | app/src/main/java/com/razorquake/dna/data/AppwriteModelLoader.kt:11-17 | a loader over a given cache directory with no requests made yet |
| ModelCache.AppwriteModelLoader.CleanOldCacheFiles | app/src/main/java/com/razorquake/dna/data/AppwriteModelLoader.kt:23-31 | visiting the listed files one by one leaves exactly the directory the sweep specifies |
| ModelCache.AppwriteModelLoader.DownloadModel | app/src/main/java/com/razorquake/dna/data/AppwriteModelLoader.kt:33-57 | directory and result are those of the download specification; exactly one request for `(bucket, file)` is logged when remote storage is asked, and none otherwise |
| ModelCache.DownloadSpec | app/src/main/java/com/razorquake/dna/data/AppwriteModelLoader.kt:33-57 | directory, result and whether remote storage was asked for one `downloadModel` call; the lemmas below state its properties and `DownloadModel` is proved to follow it |
| ModelCache.CacheHitMakesNoFetch | app/src/main/java/com/razorquake/dna/data/AppwriteModelLoader.kt:36-40 | a file still fresh after the sweep is returned without asking remote storage |
| ModelCache.CacheMissFetchesOnce | app/src/main/java/com/razorquake/dna/data/AppwriteModelLoader.kt:41-55 | on a miss remote storage is asked; the file is returned iff both the fetch and the copy succeed, and then holds the fetched bytes stamped with now; a failed fetch or open writes nothing |
| ModelCache.StaleFileIsFetchedAgain | app/src/main/java/com/razorquake/dna/data/AppwriteModelLoader.kt:36-41 | a cached copy older than a day is swept and fetched again |
| ModelCache.DownloadTouchesOnlyItsFile | app/src/main/java/com/razorquake/dna/data/AppwriteModelLoader.kt:36-51 | apart from the sweep, a download changes no file other than the requested one |
| ModelCache.SecondDownloadMakesNoFetch | app/src/main/java/com/razorquake/dna/data/AppwriteModelLoader.kt:33-57 | after a download that returns the file, a second one for the same name asks nothing while the file is younger than a day |
| ModelCache.PartialFileIsServedLater | app/src/main/java/com/razorquake/dna/data/AppwriteModelLoader.kt:46-55 | a copy failing part-way returns null but leaves the truncated bytes on disk, and the next call within the day returns that truncated file without fetching |
| ModelCache.AppleIsFetchedOnce | app/src/main/java/com/razorquake/dna/data/AppwriteModelLoader.kt:33-57 | `apple.glb` is fetched once with an empty cache; a second download the same day returns the same file without a request |
| QuizRules.Increment | app/src/main/java/com/razorquake/dna/ui/screen/QuizScreen.kt:167 | `+= 1` on a Kotlin `Int`, wrapping at the top; `ScoreCountsCorrectAnswers` and `ScoreWrapsAtLimit` state its behaviour |
| QuizRules.ScoreCountsCorrectAnswers | app/src/main/java/com/razorquake/dna/ui/screen/QuizScreen.kt:166-167 | below the 32-bit limit the score equals its start plus the number of correct answers, and never decreases |
| QuizRules.ScoreWrapsAtLimit | app/src/main/java/com/razorquake/dna/ui/screen/QuizScreen.kt:167 | one more correct answer at `Int.MAX_VALUE` wraps the score to `Int.MIN_VALUE` |
| QuizRules.IsAnswerList | app/src/main/java/com/razorquake/dna/ui/screen/QuizScreen.kt:131-140 | four table keys containing the correct label; `AnswerListsAreShuffles` shows these are exactly the lists the code builds |
| QuizRules.Shuffled | app/src/main/java/com/razorquake/dna/ui/screen/QuizScreen.kt:138 | the result is a permutation of its input |
| QuizRules.NewAnswerList | app/src/main/java/com/razorquake/dna/ui/screen/QuizScreen.kt:173-178 | four labels including the correct one, each of them the correct label or a table key |
| QuizRules.ShuffleKeepsLabels | app/src/main/java/com/razorquake/dna/ui/screen/QuizScreen.kt:131-140 | a shuffle keeps the length and exactly the labels that were drawn |
| QuizRules.AnswerListsAreShuffles | app/src/main/java/com/razorquake/dna/ui/screen/QuizScreen.kt:131-140 | a list is a possible answer list (four table keys containing the correct one) iff it is a permutation of the correct label and three table keys |
| QuizRules.CorrectLabelMayRepeat | app/src/main/java/com/razorquake/dna/ui/screen/QuizScreen.kt:173-178 | a valid answer list may hold the correct label twice, since distractors are drawn from all keys |
| QuizRules.AutoPlaceOnSessionUpdate | app/src/main/java/com/razorquake/dna/ui/screen/QuizScreen.kt:102-122 | the frame is recorded; one boxed placement is added exactly when nothing is placed, the first upward plane gives an anchor and a file is loaded; otherwise scene and pool are unchanged |
| QuizScreen.ViewOf | app/src/main/java/com/razorquake/dna/ui/screen/QuizScreen.kt:61-191 | what the screen shows: the error text, or the scene with enabled buttons or a spinner; `ViewGating` lists the cases |
| QuizScreen.ViewGating | app/src/main/java/com/razorquake/dna/ui/screen/QuizScreen.kt:61-68 | the error text shows iff loading is over without a file; otherwise the answer buttons are enabled iff not loading, and the spinner shows iff loading |
| QuizScreen.Quiz.constructor | app/src/main/java/com/razorquake/dna/ui/screen/QuizScreen.kt:43-47 | score 0, a random table question, no pre-fetched question, no file, loading, and a well-formed answer list |
| QuizScreen.Quiz.PrefetchNext | app/src/main/java/com/razorquake/dna/ui/screen/QuizScreen.kt:50-52 | a pre-fetched question is present and is a table pair |
| QuizScreen.Quiz.StartLoading | app/src/main/java/com/razorquake/dna/ui/screen/QuizScreen.kt:54 | the spinner is on, and the invariant is kept |
| QuizScreen.Quiz.FinishLoading | app/src/main/java/com/razorquake/dna/ui/screen/QuizScreen.kt:55-56 | the current question's file is downloaded per the cache specification, and loading ends |
| QuizScreen.Quiz.OnSessionUpdated | app/src/main/java/com/razorquake/dna/ui/screen/QuizScreen.kt:102-122 | unless the error text shows, the frame is recorded; a boxed placement of whatever file is loaded is added exactly when nothing is placed and an anchor is found, including while loading, and its instance is of that loaded file |
| QuizScreen.Quiz.OnSessionUpdatedCorrected | app/src/main/java/com/razorquake/dna/ui/screen/QuizScreen.kt:102-122 | the same frame, error-text, pool and loader clauses as `OnSessionUpdated`, but a placement happens only when the loaded file is the current question's; the placed instance is then always that letter's model, since the invariant keeps the pool empty while nothing is placed |
| QuizScreen.Quiz.OnAnswerClick | app/src/main/java/com/razorquake/dna/ui/screen/QuizScreen.kt:161-183 | a click counts only when not loading and a file is loaded. A correct one adds 1 to the score (with wrap-around) and moves to the pre-fetched question, fetching a new one; without a pre-fetch it keeps the question. It also rebuilds a valid answer list and clears nodes, pool and frame. A wrong click changes nothing |
| QuizScreen.StalePlacementScenario | app/src/main/java/com/razorquake/dna/ui/screen/QuizScreen.kt:104-121 | after answering "A" with "B" pre-fetched, a session update during the download of `ball.glb` places `apple.glb` |
| QuizScreen.CorrectedPlacementScenario | app/src/main/java/com/razorquake/dna/ui/screen/QuizScreen.kt:104-121 | on the same run, the corrected handler places nothing while `ball.glb` loads, instead of the left-over `apple.glb` |
| LegacyQuizScreen.ViewOf | app/src/main/java/com/example/dna/ui/screen/QuizScreen.kt:61-73 | the spinner, the error text or the scene; `ViewGating` lists the cases |
| LegacyQuizScreen.ViewGating | app/src/main/java/com/example/dna/ui/screen/QuizScreen.kt:61-73 | only the spinner while loading, only the error text when loading ended without a file, the scene otherwise |
| LegacyQuizScreen.Quiz.constructor | app/src/main/java/com/example/dna/ui/screen/QuizScreen.kt:48-53 | score 0, a random table question, no file, loading, and a well-formed answer list |
| LegacyQuizScreen.Quiz.LoadModel | app/src/main/java/com/example/dna/ui/screen/QuizScreen.kt:55-59 | the current question's file is downloaded per the cache specification, and loading ends |
| LegacyQuizScreen.Quiz.OnSessionUpdated | app/src/main/java/com/example/dna/ui/screen/QuizScreen.kt:107-127 | nothing happens unless the scene shows; then the frame is recorded and one boxed placement is added exactly when nothing is placed and an anchor is found |
| LegacyQuizScreen.Quiz.OnAnswerClick | app/src/main/java/com/example/dna/ui/screen/QuizScreen.kt:166-179 | a click counts only while the scene shows. A correct one adds 1 to the score, draws a new random question with a valid answer list, and clears nodes, pool and frame. A wrong click changes nothing |
| MainActivity.CreateAnchorNode | app/src/main/java/com/example/dna/MainActivity.kt:258-282 | takes the last `dna.glb` instance, refilling an empty pool with ten first. The model node is at scale 0.5, receives no shadows, cannot be moved, can be scaled and rotated, and is the anchor node's only child |
| MainActivity.ArView.constructor | app/src/main/java/com/example/dna/MainActivity.kt:171-176 | no frame, no nodes, an empty pool |
| MainActivity.ArView.OnSessionUpdated | app/src/main/java/com/example/dna/MainActivity.kt:193-208 | the frame is recorded; one model is added exactly when nothing is placed and the first upward plane yields an anchor |
| MainActivity.ArView.OnSingleTapConfirmed | app/src/main/java/com/example/dna/MainActivity.kt:211-228 | a tap on empty space with a frame whose first valid hit yields an anchor appends one model and keeps the earlier nodes; anything else changes nothing |
| ArScreen.ViewOf | app/src/main/java/com/example/dna/ui/screen/ARScreen.kt:46-55 | the spinner, nothing, or the scene; `ViewGating` lists the cases |
| ArScreen.ViewGating | app/src/main/java/com/example/dna/ui/screen/ARScreen.kt:46-55 | only the spinner while loading, nothing at all when loading ended without a file, the scene otherwise |
| ArScreen.Screen.constructor | app/src/main/java/com/example/dna/ui/screen/ARScreen.kt:36-38 | the letter argument, no file, loading |
| ArScreen.Screen.LoadModel | app/src/main/java/com/example/dna/ui/screen/ARScreen.kt:40-44 | an unknown letter raises "Unknown alphabet" before any download, with the spinner left on and the cache untouched; a known letter downloads its table file and ends loading |
| ArScreen.Screen.OnSessionUpdated | app/src/main/java/com/example/dna/ui/screen/ARScreen.kt:88-90 | while the scene shows, the frame is recorded, and nothing is ever placed by it |
| ArScreen.Screen.OnSingleTapConfirmed | app/src/main/java/com/example/dna/ui/screen/ARScreen.kt:99-121 | while the scene shows, a tap on empty space with a frame whose first valid hit yields an anchor appends one boxed placement of the loaded file; anything else changes nothing |

Facts about the code that the model keeps:

- The code draws the three distractors from all keys, so an answer list may repeat labels, including the correct one.
- A copy that fails part-way leaves a truncated file, which `downloadModel` later serves as a cache hit.
- A download asks remote storage at most once; a miss whose fetch then fails asks again on the next call.
- The bounding box follows the last editing report of either node, not the OR of the two nodes' editing states.

## Left out

- The Compose layout, theme and navigation are not modelled: they render, they do not decide. This covers `HomeScreen`, `AlphabetScreen`, `ModelView`, `GreetingPreview`, `AlphabetItem`'s look, the score text and the "Quiz Screen" title.
- Rendering details are not modelled: the engine, view and collision system, the bounding box's size, centre and white material, the plane renderer, `sessionConfiguration` (depth, light estimation, instant placement) and `trackingFailureReason`, which is stored but never read.
- Float scales appear only as the literals 0.2 and 0.5, as `real`. No floating-point arithmetic is done on them.
- The node flags the library sets by default are taken as fixed constructor values. Only the flags the code assigns are stated in contracts. `isEditable` is treated as a flag of its own.
- The unused `modelLoader.createModelInstance("dna.glb")` that `ARView` runs on every composition (`MainActivity.kt:174`) is not modelled. Its instance never reaches the scene or the pool.
- Coroutine scheduling and cancellation are not modelled. Each `LaunchedEffect` body runs when its method is called. A download reads the clock once and runs as one step. Nothing in the code serialises two downloads of the same file, and the races between them are not modelled.
- When a screen leaves composition on its loading or error branch, Compose drops the remembered nodes, pool and frame, and in the older quiz also the answer list, which is rebuilt for the current letter on return. The model keeps them: the nodes, pool and frame in the screen's `scene`, and the answer list `OnAnswerClick` built. Both lists are answer lists for the current letter.
- `ModelCache.AppwriteModelLoader.CleanOldCacheFiles`: assumes every `delete()` succeeds and that listing the directory does not throw. A file that cannot be deleted stays, and the model does not capture that.
- `ModelCache.DownloadSpec`: the exceptions caught in `downloadModel` are reduced to a failed fetch, a failed open and a copy that stops after some bytes. Their stack traces are not modelled.
- `ArScreen.Screen.LoadModel`: returns the "Unknown alphabet" error instead of crashing the app. That is what the uncaught exception inside the effect does.
- Utils.AlphabetKeysAreLetters: does not state that every file name ends in `.glb`; the table literal shows that directly, and the 26-way case split costs more proof effort than the fact is worth.
- The remote storage client is not modelled. Its endpoint is the fixed address set at `AppwriteModelLoader.kt:13`, and its project and bucket come from build configuration. Its network I/O is the `Fetch` parameter.
- The `com/example/dna` screens import their own copies of `Utils` and `AppwriteModelLoader`, which are not part of this model. They are taken to behave like the `com/razorquake/dna` copies modelled here.
- Randomness is nondeterministic choice. Its distribution is not modelled, so nothing is claimed about how often a letter repeats.

## Findings

| source | as written | input that shows it | evidently intended | confidence | as-written member | corrected member |
|---|---|---|---|---|---|---|
| app/src/main/java/com/razorquake/dna/ui/screen/QuizScreen.kt:104-121 | after a correct answer the scene stays composed while the next file loads, and `modelFile` still holds the previous question's file; the next session update with an upward plane places that old file, and once the new file arrives nothing is placed because a node exists | question "A" loaded, "B" pre-fetched, answer "A", then a session update with one upward plane while `ball.glb` downloads: `apple.glb` is shown for question "B" | each question shows its own letter's model: only the file of the current question is placed | medium, not executed | QuizScreen.StalePlacementScenario | QuizScreen.Quiz.OnSessionUpdatedCorrected |

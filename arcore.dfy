/**
 * What the AR session hands the screens, as abstract inputs: the planes an
 * update reports and the results of a hit test. The outcome of
 * `createAnchorOrNull` is part of each input, since anchor creation is decided
 * by ARCore.
 */
module ArCore {
  import opened Base
  import opened SceneGraph

  datatype PlaneType = HorizontalUpwardFacing | HorizontalDownwardFacing | Vertical

  /** An updated plane; `centerAnchor` is what `createAnchorOrNull(centerPose)` returns for it. */
  datatype Plane = Plane(kind: PlaneType, centerAnchor: Option<Anchor>)

  /**
   * A hit-test result; `isValid` is `isValid(depthPoint = false, point = false)`
   * and `anchor` is what `createAnchorOrNull()` returns for it.
   */
  datatype HitResult = HitResult(isValid: bool, anchor: Option<Anchor>)

  /** Kotlin's `firstOrNull(p)`: the first element satisfying `p`, if any. */
  function FirstOrNull<T>(s: seq<T>, p: T -> bool): (r: Option<T>)
    ensures r.None? <==> forall i :: 0 <= i < |s| ==> !p(s[i])
    ensures r.Some? ==> exists i :: 0 <= i < |s| && s[i] == r.value && p(s[i]) && forall j :: 0 <= j < i ==> !p(s[j])
  {
    if s == [] then None
    else if p(s[0]) then Some(s[0])
    else
      var r := FirstOrNull(s[1..], p);
      assert forall i :: 1 <= i < |s| ==> s[i] == s[1..][i - 1];
      r
  }

  predicate IsUpwardFacing(plane: Plane) {
    plane.kind == HorizontalUpwardFacing
  }

  predicate IsValidHit(hit: HitResult) {
    hit.isValid
  }

  /**
   * The anchor an auto-placing session update attaches to:
   * `getUpdatedPlanes().firstOrNull { it.type == HORIZONTAL_UPWARD_FACING }?.createAnchorOrNull(centerPose)`.
   */
  function AutoPlacementAnchor(planes: seq<Plane>): Option<Anchor> {
    match FirstOrNull(planes, IsUpwardFacing)
    case None => None
    case Some(plane) => plane.centerAnchor
  }

  /** The anchor a tap attaches to: `hitTest(...).firstOrNull { it.isValid(false, false) }?.createAnchorOrNull()`. */
  function TapAnchor(hits: seq<HitResult>): Option<Anchor> {
    match FirstOrNull(hits, IsValidHit)
    case None => None
    case Some(hit) => hit.anchor
  }

  /**
   * An update yields an anchor exactly when its first upward-facing plane does;
   * no later plane is consulted, even when the first one gives no anchor.
   */
  lemma AutoPlacementUsesFirstUpwardPlane(planes: seq<Plane>, a: Anchor)
    ensures AutoPlacementAnchor(planes) == Some(a) <==>
      exists i :: 0 <= i < |planes| && IsUpwardFacing(planes[i]) && planes[i].centerAnchor == Some(a)
        && forall j :: 0 <= j < i ==> !IsUpwardFacing(planes[j])
    ensures AutoPlacementAnchor(planes) == None <==>
      forall i :: 0 <= i < |planes| && IsUpwardFacing(planes[i]) ==>
        planes[i].centerAnchor == None || exists j :: 0 <= j < i && IsUpwardFacing(planes[j])
  {
    var r := FirstOrNull(planes, IsUpwardFacing);
    if r.Some? {
      var i :| 0 <= i < |planes| && planes[i] == r.value && IsUpwardFacing(planes[i])
        && forall j :: 0 <= j < i ==> !IsUpwardFacing(planes[j]);
      forall k | 0 <= k < |planes| && IsUpwardFacing(planes[k]) && k != i
        ensures exists j :: 0 <= j < k && IsUpwardFacing(planes[j])
      {
        assert i < k;
      }
    }
  }

  /** A tap yields an anchor exactly when its first valid hit does. */
  lemma TapUsesFirstValidHit(hits: seq<HitResult>, a: Anchor)
    ensures TapAnchor(hits) == Some(a) <==>
      exists i :: 0 <= i < |hits| && hits[i].isValid && hits[i].anchor == Some(a)
        && forall j :: 0 <= j < i ==> !hits[j].isValid
  {
    var r := FirstOrNull(hits, IsValidHit);
    if r.Some? {
      var i :| 0 <= i < |hits| && hits[i] == r.value && IsValidHit(hits[i])
        && forall j :: 0 <= j < i ==> !IsValidHit(hits[j]);
      forall k | 0 <= k < |hits| && hits[k].isValid && forall j :: 0 <= j < k ==> !hits[j].isValid
        ensures k == i
      {
        assert !(k < i) && !(i < k);
      }
    }
  }

  /** An upward plane whose anchor fails hides a later upward plane that would have given one. */
  lemma FailedFirstPlaneIsNotRetried(a: Anchor)
    ensures AutoPlacementAnchor([Plane(HorizontalUpwardFacing, None), Plane(HorizontalUpwardFacing, Some(a))]) == None
  {
    var planes := [Plane(HorizontalUpwardFacing, None), Plane(HorizontalUpwardFacing, Some(a))];
    assert FirstOrNull(planes, IsUpwardFacing) == Some(planes[0]);
  }
}

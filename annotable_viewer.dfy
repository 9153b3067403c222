/**
 * The annotation state of the video view (AnnotableViewer.swift): the list
 * of drawn annotations, the one being dragged out, and the colour and shape
 * the next one will get.  Mouse events arrive already converted to the
 * view's relative coordinates; redrawing is not modelled.
 */
module AnnotableViewer {
  import opened Wrappers
  import opened Annotations

  /** `colors`, in cycling order. */
  const Colors: seq<Color> := [Orange, Blue, Green, Yellow, Red, Gray]

  /** `shapes`, in cycling order. */
  const Shapes: seq<Shape> := [CircleShape, EllipseShape, RectangleShape]

  /** `++index`, wrapping to 0 at `count`. */
  function Advance(index: int, count: int): (r: int)
    ensures 0 <= index && index + 1 < count ==> r == index + 1
    ensures count <= index + 1 ==> r == 0
    ensures 0 <= index < count ==> 0 <= r < count
  {
    if count <= index + 1 then 0 else index + 1
  }

  /** Three right-clicks on empty space bring back the shape selected before them. */
  lemma ShapesCycle(index: int)
    requires 0 <= index < |Shapes|
    ensures Advance(Advance(Advance(index, |Shapes|), |Shapes|), |Shapes|) == index
  {
  }

  /** The index of the last annotation containing `p`, if any: the one drawn on top. */
  function TopmostHit(annots: seq<Annotation>, p: Point): (r: Option<nat>)
    ensures r.Some? ==> r.value < |annots| && ContainsPoint(annots[r.value], p)
    ensures r.Some? ==> forall j :: r.value < j < |annots| ==> !ContainsPoint(annots[j], p)
    ensures r.None? ==> forall j :: 0 <= j < |annots| ==> !ContainsPoint(annots[j], p)
  {
    if annots == [] then None
    else if ContainsPoint(annots[|annots| - 1], p) then Some(|annots| - 1)
    else TopmostHit(annots[..|annots| - 1], p)
  }

  /** `annots` without the element at `i`. */
  function RemoveAt<T>(annots: seq<T>, i: nat): (r: seq<T>)
    requires i < |annots|
    ensures |r| == |annots| - 1
    ensures forall j :: 0 <= j < i ==> r[j] == annots[j]
    ensures forall j :: i <= j < |r| ==> r[j] == annots[j + 1]
  {
    annots[..i] + annots[i + 1..]
  }

  /** Whether a drag from `down` to `up` is long enough to keep: at least 10 points of the larger side of the view. */
  predicate LongEnough(down: Point, up: Point, frameWidth: real, frameHeight: real)
  {
    var m := Max(frameWidth, frameHeight);
    if m > 0.0 then SquaredDistance(up, down) >= (10.0 / m) * (10.0 / m)
    else m < 0.0
  }

  /** `AnnotableViewer`'s annotation state. */
  class AnnotableViewer {
    var annotations: seq<Annotation>
    var annotationInProgress: Option<Annotation>
    var enabled: bool
    var nextColor: int
    var nextShape: int
    var locationDown: Option<Point>
    /** The annotation lists passed to `didChangeAnnotations`, oldest first. */
    var changes: seq<seq<Annotation>>
    /** The global id counter. */
    const ids: IdCounter

    /** The colour and shape indices stay inside their arrays. */
    predicate Valid()
      reads this
    {
      0 <= nextColor < |Colors| && 0 <= nextShape < |Shapes|
    }

    constructor(ids: IdCounter)
      ensures this.ids == ids && Valid()
      ensures annotations == [] && annotationInProgress == None && enabled
      ensures nextColor == 0 && nextShape == 0 && locationDown == None && changes == []
    {
      this.ids := ids;
      annotations := [];
      annotationInProgress := None;
      enabled := true;
      nextColor := 0;
      nextShape := 0;
      locationDown := None;
      changes := [];
    }

    /** Setting `enabled`: any drag under way is forgotten. */
    method SetEnabled(value: bool)
      modifies this
      ensures enabled == value && locationDown == None && annotationInProgress == None
      ensures annotations == old(annotations) && changes == old(changes)
      ensures nextColor == old(nextColor) && nextShape == old(nextShape)
    {
      enabled := value;
      locationDown := None;
      annotationInProgress := None;
    }

    /** `mouseDown`: remembers where a drag starts. */
    method MouseDown(p: Point)
      modifies this
      ensures locationDown == if old(enabled) then Some(p) else old(locationDown)
      ensures annotations == old(annotations) && annotationInProgress == old(annotationInProgress)
      ensures enabled == old(enabled) && changes == old(changes)
      ensures nextColor == old(nextColor) && nextShape == old(nextShape)
    {
      if !enabled {
        return;
      }
      locationDown := Some(p);
    }

    /**
     * `rightMouseUp`: a single click removes the topmost annotation under
     * the pointer; a click that hits nothing selects the next shape.
     */
    method RightMouseUp(p: Point, clickCount: int)
      requires Valid()
      modifies this
      ensures Valid()
      ensures !old(enabled) || clickCount != 1 ==>
        annotations == old(annotations) && nextShape == old(nextShape) && changes == old(changes)
      ensures old(enabled) && clickCount == 1 ==>
        match TopmostHit(old(annotations), p)
        case Some(i) =>
          annotations == RemoveAt(old(annotations), i) && changes == old(changes) + [annotations] && nextShape == old(nextShape)
        case None =>
          annotations == old(annotations) && changes == old(changes) && nextShape == Advance(old(nextShape), |Shapes|)
      ensures enabled == old(enabled) && locationDown == old(locationDown) && annotationInProgress == old(annotationInProgress)
      ensures nextColor == old(nextColor)
    {
      if !enabled {
        return;
      }
      if 1 != clickCount {
        return;
      }
      var i := |annotations| - 1;
      while i >= 0
        invariant -1 <= i < |annotations|
        invariant annotations == old(annotations) && changes == old(changes) && nextShape == old(nextShape)
        invariant TopmostHit(annotations, p) == TopmostHit(annotations[..i + 1], p)
      {
        if ContainsPoint(annotations[i], p) {
          annotations := RemoveAt(annotations, i);
          changes := changes + [annotations];
          return;
        }
        assert annotations[..i + 1][..i] == annotations[..i];
        i := i - 1;
      }
      nextShape := Advance(nextShape, |Shapes|);
    }

    /** `mouseDragged`: while a drag is under way, the annotation it would make is shown, taking an id of its own. */
    method MouseDragged(p: Point)
      requires Valid()
      modifies this, ids
      ensures annotations == old(annotations) && changes == old(changes) && locationDown == old(locationDown)
      ensures enabled == old(enabled) && nextColor == old(nextColor) && nextShape == old(nextShape)
      ensures Valid()
      ensures old(enabled) && old(locationDown).Some? ==>
        ids.nextId == old(ids.nextId) + 1 &&
        annotationInProgress == Some(Make(Shapes[nextShape], ids.nextId, old(locationDown).value, p, Colors[nextColor]))
      ensures !(old(enabled) && old(locationDown).Some?) ==>
        ids.nextId == old(ids.nextId) && annotationInProgress == old(annotationInProgress)
    {
      if !enabled {
        return;
      }
      if locationDown.Some? {
        var annot := New(Shapes[nextShape], locationDown.value, p, Colors[nextColor], ids);
        annotationInProgress := Some(annot);
      }
    }

    /**
     * `mouseUp`: a long enough drag becomes a new annotation on top of the
     * others and moves on to the next colour; the drag is then over.
     */
    method MouseUp(p: Point, frameWidth: real, frameHeight: real)
      requires Valid()
      modifies this, ids
      ensures Valid()
      ensures !old(enabled) ==>
        annotations == old(annotations) && locationDown == old(locationDown) &&
        annotationInProgress == old(annotationInProgress) && nextColor == old(nextColor) && ids.nextId == old(ids.nextId)
      ensures old(enabled) ==> locationDown == None && annotationInProgress == None
      ensures old(enabled) && old(locationDown).Some? && LongEnough(old(locationDown).value, p, frameWidth, frameHeight) ==>
        ids.nextId == old(ids.nextId) + 1 &&
        annotations == old(annotations) + [Make(Shapes[nextShape], ids.nextId, old(locationDown).value, p, Colors[old(nextColor)])] &&
        changes == old(changes) + [annotations] &&
        nextColor == Advance(old(nextColor), |Colors|)
      ensures old(enabled) && !(old(locationDown).Some? && LongEnough(old(locationDown).value, p, frameWidth, frameHeight)) ==>
        annotations == old(annotations) && changes == old(changes) && nextColor == old(nextColor) && ids.nextId == old(ids.nextId)
      ensures !old(enabled) ==> changes == old(changes)
      ensures enabled == old(enabled) && nextShape == old(nextShape)
    {
      if !enabled {
        return;
      }
      if locationDown.Some? {
        if LongEnough(locationDown.value, p, frameWidth, frameHeight) {
          var annot := New(Shapes[nextShape], locationDown.value, p, Colors[nextColor], ids);
          annotations := annotations + [annot];
          changes := changes + [annotations];
          nextColor := Advance(nextColor, |Colors|);
        }
      }
      locationDown := None;
      annotationInProgress := None;
    }
  }
}

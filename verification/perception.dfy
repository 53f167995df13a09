/**
 * `find_target_in_results`: the class table and boxes YOLO reports for one
 * frame, and the pixel centre of the box the controller steers towards.
 * Inference itself is not modelled; a frame's detections are an input.
 */
module Perception {
  import opened Num
  import opened Wrappers

  /** One detection: class id, confidence and the `xyxy` corners. */
  datatype Box = Box(cls: int, conf: real, x1: real, y1: real, x2: real, y2: real)

  /** `results[0].names` (class id `k` is named `names[k]`) and the boxes of all results in order. */
  datatype Detections = Detections(names: seq<string>, boxes: seq<Box>)

  datatype Pixel = Pixel(x: int, y: int)

  /** `str.lower()` on one character, for ASCII letters. */
  function LowerChar(c: char): (r: char)
    ensures 'A' <= c <= 'Z' ==> 'a' <= r <= 'z' && r as int - c as int == 32
    ensures !('A' <= c <= 'Z') ==> r == c
  {
    if 'A' <= c <= 'Z' then (c as int + 32) as char else c
  }

  function Lower(s: string): (r: string)
    ensures |r| == |s|
    ensures forall i :: 0 <= i < |s| ==> r[i] == LowerChar(s[i])
  {
    if s == [] then [] else [LowerChar(s[0])] + Lower(s[1..])
  }

  /** `name.lower() == target_name.lower()` */
  predicate SameName(name: string, target: string) {
    Lower(name) == Lower(target)
  }

  /** `c` is the first class id whose name matches the target, where the search loop breaks. */
  ghost predicate IsFirstMatch(names: seq<string>, target: string, c: int) {
    && 0 <= c < |names|
    && SameName(names[c], target)
    && forall j :: 0 <= j < c ==> !SameName(names[j], target)
  }

  /**
   * Box `i` is the one the scan keeps: of class `c`, confidence above the
   * initial 0.0, no lower than any other box of the class, and strictly higher
   * than every earlier one (a tie keeps the earlier box).
   */
  ghost predicate IsFirstBest(boxes: seq<Box>, c: int, i: int) {
    && 0 <= i < |boxes|
    && boxes[i].cls == c
    && boxes[i].conf > 0.0
    && (forall j :: 0 <= j < |boxes| && boxes[j].cls == c ==> boxes[j].conf <= boxes[i].conf)
    && (forall j :: 0 <= j < i && boxes[j].cls == c ==> boxes[j].conf < boxes[i].conf)
  }

  /** The class-table search loop with its `break`. */
  function FirstMatch(names: seq<string>, target: string): (r: Option<nat>)
    ensures r.Some? ==> IsFirstMatch(names, target, r.value)
    ensures r.None? <==> forall j :: 0 <= j < |names| ==> !SameName(names[j], target)
  {
    if names == [] then None
    else if SameName(names[0], target) then Some(0)
    else
      match FirstMatch(names[1..], target)
      case None => None
      case Some(k) => Some(k + 1)
  }

  /**
   * The box scan after the boxes of `boxes` have been visited: the index of
   * the box whose centre `best_box_center` holds, updated on `conf > best`.
   */
  function BestSoFar(boxes: seq<Box>, c: int): (r: Option<nat>)
    ensures r.Some? ==> IsFirstBest(boxes, c, r.value)
    ensures r.None? <==> forall j :: 0 <= j < |boxes| && boxes[j].cls == c ==> boxes[j].conf <= 0.0
  {
    if boxes == [] then None
    else
      var n := |boxes| - 1;
      var prev := BestSoFar(boxes[..n], c);
      var best := if prev.Some? then boxes[prev.value].conf else 0.0;
      if boxes[n].cls == c && boxes[n].conf > best then Some(n) else prev
  }

  /** `(int((x1 + x2) / 2), int((y1 + y2) / 2))` */
  function Center(b: Box): (p: Pixel)
    ensures 0.0 <= b.x1 + b.x2 ==> p.x as real <= (b.x1 + b.x2) / 2.0 < p.x as real + 1.0
    ensures b.x1 + b.x2 < 0.0 ==> p.x as real - 1.0 < (b.x1 + b.x2) / 2.0 <= p.x as real
    ensures 0.0 <= b.y1 + b.y2 ==> p.y as real <= (b.y1 + b.y2) / 2.0 < p.y as real + 1.0
    ensures b.y1 + b.y2 < 0.0 ==> p.y as real - 1.0 < (b.y1 + b.y2) / 2.0 <= p.y as real
  {
    Pixel(Trunc((b.x1 + b.x2) / 2.0), Trunc((b.y1 + b.y2) / 2.0))
  }

  /**
   * `find_target_in_results(results, target_name)`. A missing target name
   * raises `AttributeError` at the first comparison, so only when the class
   * table is non-empty.
   */
  function FindTarget(d: Detections, target: Option<string>): (r: Call<Option<Pixel>>)
    ensures r.Raised? <==> target.None? && |d.names| > 0
    ensures target.None? && d.names == [] ==> r == Returned(None)
    ensures r.Returned? && r.value.Some? ==>
      target.Some? &&
      exists c, i :: IsFirstMatch(d.names, target.value, c) && IsFirstBest(d.boxes, c, i) && r.value.value == Center(d.boxes[i])
    ensures target.Some? && r.value.None? ==>
      forall c, i :: IsFirstMatch(d.names, target.value, c) ==> !IsFirstBest(d.boxes, c, i)
  {
    match target
    case None => if d.names == [] then Returned(None) else Raised("AttributeError")
    case Some(t) =>
      match FirstMatch(d.names, t)
      case None => Returned(None)
      case Some(c) =>
        match BestSoFar(d.boxes, c)
        case None => Returned(None)
        case Some(i) => Returned(Some(Center(d.boxes[i])))
  }

  /** The first match is unique: two first matches are the same class. */
  lemma FirstMatchUnique(names: seq<string>, target: string, c: int, c': int)
    requires IsFirstMatch(names, target, c) && IsFirstMatch(names, target, c')
    ensures c == c'
  {
  }

  /** The kept box is unique, so the returned centre does not depend on how ties are broken elsewhere. */
  lemma FirstBestUnique(boxes: seq<Box>, c: int, i: int, i': int)
    requires IsFirstBest(boxes, c, i) && IsFirstBest(boxes, c, i')
    ensures i == i'
  {
  }

  /** Names are compared without regard to ASCII case. */
  lemma SameNameIgnoresCase(name: string)
    ensures SameName(name, Lower(name))
  {
    LowerIdempotent(name);
  }

  lemma {:induction false} LowerIdempotent(s: string)
    ensures Lower(Lower(s)) == Lower(s)
  {
    if s != [] {
      LowerIdempotent(s[1..]);
      assert Lower(s)[1..] == Lower(s[1..]);
    }
  }
}

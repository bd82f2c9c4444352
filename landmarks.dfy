/**
 * Hand landmarks as the pose estimator delivers them and their flat layout
 * (21 landmarks times x, y, z) used by every consumer.
 */
module Landmarks {
  import opened Wrappers

  /** One landmark; the estimator may leave the depth coordinate out. */
  datatype Landmark = Landmark(x: real, y: real, z: Option<real>)

  const LandmarkCount: nat := 21
  const FlatLength: nat := 63

  /** `p.z ?? 0`: a missing depth reads as 0. */
  function Depth(p: Landmark): real
  {
    match p.z
    case Some(z) => z
    case None => 0.0
  }

  /** The value of flat slot `k`: coordinate `k % 3` of landmark `k / 3`. */
  function Coordinate(lms: seq<Landmark>, k: nat): real
    requires |lms| >= LandmarkCount && k < FlatLength
  {
    var p := lms[k / 3];
    if k % 3 == 0 then p.x else if k % 3 == 1 then p.y else Depth(p)
  }

  /** The flat array of the first 21 landmarks: x, y, z of landmark i in slots 3i, 3i+1, 3i+2. */
  function Flatten(lms: seq<Landmark>): (out: seq<real>)
    requires |lms| >= LandmarkCount
    ensures |out| == FlatLength
    ensures forall i :: 0 <= i < LandmarkCount ==>
      out[3 * i] == lms[i].x && out[3 * i + 1] == lms[i].y && out[3 * i + 2] == Depth(lms[i])
  {
    var out := seq(FlatLength, k requires 0 <= k < FlatLength => Coordinate(lms, k));
    assert forall i :: 0 <= i < LandmarkCount ==>
      (3 * i) / 3 == i && (3 * i + 1) / 3 == i && (3 * i + 2) / 3 == i;
    out
  }

  /** Flattening reads only the first 21 landmarks. */
  lemma FlattenPrefix(lms: seq<Landmark>, more: seq<Landmark>)
    requires |lms| >= LandmarkCount
    ensures Flatten(lms + more) == Flatten(lms)
  {
    var a, b := Flatten(lms + more), Flatten(lms);
    forall k | 0 <= k < FlatLength ensures a[k] == b[k] {
      assert (lms + more)[k / 3] == lms[k / 3];
    }
  }

  /** `flattenLandmarks`: the loop that fills a fresh 63-slot buffer. */
  method FlattenLandmarks(lms: seq<Landmark>) returns (out: array<real>)
    requires |lms| >= LandmarkCount
    ensures out[..] == Flatten(lms)
  {
    out := new real[FlatLength];
    for i := 0 to LandmarkCount
      invariant forall k :: 0 <= k < 3 * i ==> out[k] == Coordinate(lms, k)
    {
      var p := lms[i];
      assert (3 * i) / 3 == i && (3 * i + 1) / 3 == i && (3 * i + 2) / 3 == i;
      assert (3 * i) % 3 == 0 && (3 * i + 1) % 3 == 1 && (3 * i + 2) % 3 == 2;
      out[i * 3] := p.x;
      out[i * 3 + 1] := p.y;
      out[i * 3 + 2] := Depth(p);
    }
  }
}

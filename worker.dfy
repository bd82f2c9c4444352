/**
 * The detection worker: it receives a video frame, runs the hand landmarker on it
 * with a strictly increasing timestamp and answers with the flattened first hand,
 * with "no hand", or with the error that was raised. The landmarker itself, its
 * lazy initialisation and the message transport are outside the model; their
 * outcomes arrive as parameters.
 */
module HandWorker {
  import opened Wrappers
  import opened Numerics
  import opened Landmarks

  /** A frame handed to the worker; `closable` says whether it has a `close` method. */
  datatype Frame = Frame(closable: bool)

  /** What the landmarker returned: `Threw` for an exception, otherwise its hand list,
      `None` when the result or its landmark list is absent. */
  datatype Outcome = Threw(message: string) | Found(hands: Option<seq<seq<Landmark>>>)

  /** The message posted back to the page. */
  datatype Reply = Points(flat: seq<real>) | NoHand | Failure(message: string)

  /** The first detected hand, when the result has one. */
  function FirstHand(hands: Option<seq<seq<Landmark>>>): Option<seq<Landmark>>
  {
    if hands.Some? && |hands.value| > 0 then Some(hands.value[0]) else None
  }

  /** The reply to a successful detection: the flat coordinates of the first hand when
      it has exactly 21 landmarks, "no hand" otherwise. */
  function Answer(hands: Option<seq<seq<Landmark>>>): (r: Reply)
    ensures !r.Failure?
    ensures r.Points? <==> hands.Some? && |hands.value| > 0 && |hands.value[0]| == LandmarkCount
    ensures r.Points? ==> |r.flat| == FlatLength
    ensures r.Points? ==> forall i :: 0 <= i < LandmarkCount ==>
      var p := hands.value[0][i];
      r.flat[3 * i] == p.x && r.flat[3 * i + 1] == p.y && r.flat[3 * i + 2] == Depth(p)
  {
    match FirstHand(hands)
    case Some(h) => if |h| == LandmarkCount then Points(Flatten(h)) else NoHand
    case None => NoHand
  }

  /** The timestamps a worker hands to the landmarker for a run of frames arriving at
      clock readings `clock`, starting after `last`. */
  function Stamps(last: real, clock: seq<real>): (ts: seq<real>)
    ensures |ts| == |clock|
    decreases |clock|
  {
    if |clock| == 0 then [] else
      var t := NextTimestamp(last, clock[0]);
      [t] + Stamps(t, clock[1..])
  }

  /** The timestamps strictly increase and never fall behind the clock, whatever the
      clock does. */
  lemma {:induction false} StampsIncrease(last: real, clock: seq<real>)
    ensures forall i :: 0 <= i < |clock| ==> Stamps(last, clock)[i] >= clock[i]
    ensures forall i :: 0 <= i < |clock| ==> Stamps(last, clock)[i] > last
    ensures forall i, j :: 0 <= i < j < |clock| ==> Stamps(last, clock)[i] < Stamps(last, clock)[j]
    decreases |clock|
  {
    if |clock| > 0 {
      var t := NextTimestamp(last, clock[0]);
      var rest := Stamps(t, clock[1..]);
      StampsIncrease(t, clock[1..]);
      assert Stamps(last, clock) == [t] + rest;
      forall i | 0 <= i < |clock| ensures Stamps(last, clock)[i] >= clock[i] && Stamps(last, clock)[i] > last {
        if i > 0 {
          assert Stamps(last, clock)[i] == rest[i - 1] && clock[i] == clock[1..][i - 1];
        }
      }
      forall i, j | 0 <= i < j < |clock| ensures Stamps(last, clock)[i] < Stamps(last, clock)[j] {
        assert Stamps(last, clock)[j] == rest[j - 1];
        if i > 0 {
          assert Stamps(last, clock)[i] == rest[i - 1];
        }
      }
    }
  }

  /** The worker's module state: the last timestamp used and whether the landmarker
      has been created (it is created once and reused). */
  class Worker {
    var lastTs: real
    var ready: bool

    constructor ()
      ensures lastTs == 0.0 && !ready
    {
      lastTs := 0.0;
      ready := false;
    }

    /** One incoming message. `initError` is the failure of creating the landmarker
        (consulted only while it does not exist yet), `now` the clock and `outcome`
        what detection on the frame returns. Answers with the reply to post, if any,
        and whether the frame was closed. */
    method OnMessage(frame: Option<Frame>, initError: Option<string>, now: real, outcome: Outcome)
      returns (reply: Option<Reply>, closed: bool)
      modifies this
      ensures frame.None? ==> reply.None? && !closed && lastTs == old(lastTs) && ready == old(ready)
      ensures frame.Some? ==> reply.Some? && closed == frame.value.closable
      ensures frame.Some? && !old(ready) && initError.Some? ==>
        reply == Some(Failure(initError.value)) && lastTs == old(lastTs) && !ready
      ensures frame.Some? && (old(ready) || initError.None?) ==>
        ready && lastTs == NextTimestamp(old(lastTs), now)
        && reply == Some(if outcome.Threw? then Failure(outcome.message) else Answer(outcome.hands))
    {
      if frame.None? {
        return None, false;
      }
      if !ready && initError.Some? {
        reply := Some(Failure(initError.value));
      } else {
        ready := true;
        lastTs := NextTimestamp(lastTs, now);
        match outcome
        case Threw(message) =>
          reply := Some(Failure(message));
        case Found(hands) =>
          var first := FirstHand(hands);
          if first.Some? && |first.value| == LandmarkCount {
            var out := FlattenLandmarks(first.value);
            reply := Some(Points(out[..]));
          } else {
            reply := Some(NoHand);
          }
      }
      closed := frame.value.closable;
    }
  }
}

/**
  The frame loop's bookkeeping of the player's progress along the current tube
  segment: the distance travelled (curTubeDist), the last tangent angle
  (prevAngle) and the mesh waiting to be removed (tubeRemove). The calls into
  the tube (remove, removeObjs, rotateY, addTube) are recorded in ghost logs;
  the curve geometry enters only as the per-frame curve length and tangent
  angle, which the caller supplies.
 */
module SegmentCursor {
  import opened Options

  /** A handle on a tube mesh. */
  type MeshId = nat

  /** One frame's heading: the tangent's angle to the forward axis and the segment's turn direction. */
  datatype Heading = Heading(angle: real, left: bool)

  /** The rotateY argument a frame applies, given the angle stored by the previous frame. */
  function Delta(prevAngle: real, h: Heading): real {
    if h.left then prevAngle - h.angle else h.angle - prevAngle
  }

  /** The angle the frames leave in prevAngle: 0 when the segment has just begun. */
  function LastAngle(hs: seq<Heading>): real {
    if hs == [] then 0.0 else hs[|hs| - 1].angle
  }

  /** The total rotation applied over a segment's frames, each frame relative to the one before. */
  function TurnSum(hs: seq<Heading>): real
    decreases |hs|
  {
    if hs == [] then 0.0
    else TurnSum(hs[..|hs| - 1]) + Delta(LastAngle(hs[..|hs| - 1]), hs[|hs| - 1])
  }

  function Sum(xs: seq<real>): real
    decreases |xs|
  {
    if xs == [] then 0.0 else Sum(xs[..|xs| - 1]) + xs[|xs| - 1]
  }

  predicate SameTurn(hs: seq<Heading>, left: bool) {
    forall i :: 0 <= i < |hs| ==> hs[i].left == left
  }

  /** The rotation a turn of the given direction ends at. */
  function Signed(left: bool, angle: real): real {
    if left then -angle else angle
  }

  /**
    The rotation deltas telescope: over frames that all turn the same way, the
    rotations applied add up to the latest angle, negated for a left turn.
   */
  lemma {:induction false} Telescope(hs: seq<Heading>, left: bool)
    requires SameTurn(hs, left)
    ensures TurnSum(hs) == Signed(left, LastAngle(hs))
    decreases |hs|
  {
    if hs != [] {
      var init := hs[..|hs| - 1];
      assert SameTurn(init, left) by {
        forall i | 0 <= i < |init| ensures init[i].left == left {
          assert init[i] == hs[i];
        }
      }
      Telescope(init, left);
    }
  }

  lemma SumSnoc(xs: seq<real>, x: real)
    ensures Sum(xs + [x]) == Sum(xs) + x
  {
    assert (xs + [x])[..|xs|] == xs;
  }

  lemma TurnSumSnoc(hs: seq<Heading>, h: Heading)
    ensures TurnSum(hs + [h]) == TurnSum(hs) + Delta(LastAngle(hs), h)
    ensures LastAngle(hs + [h]) == h.angle
  {
    assert (hs + [h])[..|hs|] == hs;
  }

  class Cursor {
    var curTubeDist: real
    var prevAngle: real
    var tubeRemove: Option<MeshId>

    /** Arguments of every tube rotateY call, oldest first. */
    ghost var rotations: seq<real>
    /** Where in rotations the current segment's rotations begin. */
    ghost var segmentStart: nat
    /** The headings of the current segment's frames so far. */
    ghost var segmentHeadings: seq<Heading>
    /** The total rotation applied over each finished segment. */
    ghost var segmentTurns: seq<real>
    /** Number of addTube calls. */
    ghost var tubesAdded: nat
    /** Meshes passed to the tube's remove, oldest first. */
    ghost var removed: seq<MeshId>
    /** Number of removeObjs calls. */
    ghost var objsCleared: nat
    /** Meshes scheduled for removal and overwritten before the removal ran. */
    ghost var dropped: seq<MeshId>

    ghost predicate Valid()
      reads this
    {
      && 0.0 <= curTubeDist
      && prevAngle == LastAngle(segmentHeadings)
      && segmentStart + |segmentHeadings| == |rotations|
      && Sum(rotations[segmentStart..]) == TurnSum(segmentHeadings)
      && |segmentTurns| == tubesAdded
      // every added tube's predecessor was removed, dropped, or is still pending
      && |removed| + |dropped| + (if tubeRemove.Some? then 1 else 0) == tubesAdded
      && objsCleared == |removed|
    }

    /** The program's initial values: distance and angle 0, nothing to remove. */
    constructor ()
      ensures Valid()
      ensures curTubeDist == 0.0 && prevAngle == 0.0 && tubeRemove == None
      ensures rotations == [] && segmentTurns == [] && tubesAdded == 0
      ensures removed == [] && objsCleared == 0 && dropped == []
    {
      curTubeDist, prevAngle, tubeRemove := 0.0, 0.0, None;
      rotations, segmentStart, segmentHeadings, segmentTurns := [], 0, [], [];
      tubesAdded, removed, objsCleared, dropped := 0, [], 0, [];
    }

    /** Deferred removal: a pending mesh goes once the player is at least 1 into the new segment. */
    method RemovePending()
      requires Valid()
      modifies this
      ensures Valid()
      ensures var due := old(curTubeDist) >= 1.0 && old(tubeRemove).Some?;
        && removed == (if due then old(removed) + [old(tubeRemove).value] else old(removed))
        && tubeRemove == (if due then None else old(tubeRemove))
      ensures curTubeDist == old(curTubeDist) && prevAngle == old(prevAngle)
      ensures tubesAdded == old(tubesAdded) && dropped == old(dropped)
      ensures rotations == old(rotations) && segmentStart == old(segmentStart)
      ensures segmentHeadings == old(segmentHeadings) && segmentTurns == old(segmentTurns)
    {
      if curTubeDist >= 1.0 && tubeRemove.Some? {
        removed := removed + [tubeRemove.value];
        objsCleared := objsCleared + 1;
        tubeRemove := None;
      }
    }

    /** Move curSpeed along the segment and rotate the tube by the change of tangent angle. */
    method Advance(curSpeed: real, angle: real, left: bool)
      requires Valid() && curSpeed > 0.0
      modifies this
      ensures Valid()
      ensures curTubeDist == old(curTubeDist) + curSpeed
      ensures prevAngle == angle
      ensures rotations == old(rotations) + [Delta(old(prevAngle), Heading(angle, left))]
      ensures segmentHeadings == old(segmentHeadings) + [Heading(angle, left)]
      ensures SameTurn(segmentHeadings, left) ==> Sum(rotations[segmentStart..]) == Signed(left, angle)
      ensures tubeRemove == old(tubeRemove) && segmentStart == old(segmentStart)
      ensures tubesAdded == old(tubesAdded) && segmentTurns == old(segmentTurns)
      ensures removed == old(removed) && objsCleared == old(objsCleared) && dropped == old(dropped)
    {
      var h := Heading(angle, left);
      curTubeDist := curTubeDist + curSpeed;
      var turn: real;
      if left {
        turn := prevAngle - angle;
      } else {
        turn := angle - prevAngle;
      }
      SumSnoc(rotations[segmentStart..], turn);
      TurnSumSnoc(segmentHeadings, h);
      assert (rotations + [turn])[segmentStart..] == rotations[segmentStart..] + [turn];
      rotations := rotations + [turn];
      segmentHeadings := segmentHeadings + [h];
      prevAngle := angle;
      if SameTurn(segmentHeadings, left) {
        Telescope(segmentHeadings, left);
      }
    }

    /** Past the end of the segment: start the next one and schedule the oldest mesh for removal. */
    method Exhaust(length: real, oldest: MeshId)
      requires Valid()
      modifies this
      ensures Valid()
      ensures if old(curTubeDist) >= length then
          && curTubeDist == 0.0 && prevAngle == 0.0
          && tubeRemove == Some(oldest)
          && tubesAdded == old(tubesAdded) + 1
          && dropped == (if old(tubeRemove).Some? then old(dropped) + [old(tubeRemove).value] else old(dropped))
          && segmentTurns == old(segmentTurns) + [TurnSum(old(segmentHeadings))]
          && segmentHeadings == [] && segmentStart == |rotations|
        else
          && curTubeDist == old(curTubeDist) && prevAngle == old(prevAngle)
          && tubeRemove == old(tubeRemove) && tubesAdded == old(tubesAdded)
          && dropped == old(dropped) && segmentTurns == old(segmentTurns)
          && segmentHeadings == old(segmentHeadings) && segmentStart == old(segmentStart)
      ensures rotations == old(rotations)
      ensures removed == old(removed) && objsCleared == old(objsCleared)
    {
      if curTubeDist >= length {
        curTubeDist := 0.0;
        prevAngle := 0.0;
        if tubeRemove.Some? {
          dropped := dropped + [tubeRemove.value];
        }
        tubeRemove := Some(oldest);
        tubesAdded := tubesAdded + 1;
        segmentTurns := segmentTurns + [Sum(rotations[segmentStart..])];
        segmentStart := |rotations|;
        segmentHeadings := [];
      }
    }

    /**
      The cursor part of one animation frame: deferred removal first, then the
      advance and rotation, then the end-of-segment check. length is the
      current curve's length, angle the frame's tangent angle, left the
      segment's turn flag, oldest the tube's oldest mesh.
     */
    method Frame(curSpeed: real, length: real, angle: real, left: bool, oldest: MeshId)
      requires Valid() && curSpeed > 0.0 && length > 0.0
      modifies this
      ensures Valid()
      ensures 0.0 <= curTubeDist < length
      ensures var due := old(curTubeDist) >= 1.0 && old(tubeRemove).Some?;
        removed == (if due then old(removed) + [old(tubeRemove).value] else old(removed))
      // a schedule still pending when the segment ends is dropped for the new one
      ensures var due := old(curTubeDist) >= 1.0 && old(tubeRemove).Some?;
        dropped == (if old(curTubeDist) + curSpeed >= length && !due && old(tubeRemove).Some?
                    then old(dropped) + [old(tubeRemove).value] else old(dropped))
      ensures rotations == old(rotations) + [Delta(old(prevAngle), Heading(angle, left))]
      ensures var moved := old(curTubeDist) + curSpeed;
        if moved >= length then
          && curTubeDist == 0.0 && prevAngle == 0.0
          && tubeRemove == Some(oldest) && tubesAdded == old(tubesAdded) + 1
          && segmentHeadings == []
          && segmentTurns == old(segmentTurns) + [TurnSum(old(segmentHeadings) + [Heading(angle, left)])]
        else
          && curTubeDist == moved && prevAngle == angle
          && tubeRemove == (if old(curTubeDist) >= 1.0 then None else old(tubeRemove))
          && tubesAdded == old(tubesAdded) && segmentTurns == old(segmentTurns)
          && segmentHeadings == old(segmentHeadings) + [Heading(angle, left)]
      // a finished segment that turned one way throughout ends rotated by its last angle
      ensures old(curTubeDist) + curSpeed >= length && SameTurn(old(segmentHeadings), left) ==>
                segmentTurns == old(segmentTurns) + [Signed(left, angle)]
      // within a segment that turns one way, the rotations so far add up to the stored angle
      ensures SameTurn(segmentHeadings, left) ==> Sum(rotations[segmentStart..]) == Signed(left, prevAngle)
      // a segment at least 1 + curSpeed long never loses a scheduled removal
      ensures length >= 1.0 + curSpeed ==> dropped == old(dropped)
    {
      RemovePending();
      Advance(curSpeed, angle, left);
      ghost var finished := segmentHeadings;
      Exhaust(length, oldest);
      if old(curTubeDist) + curSpeed >= length && SameTurn(old(segmentHeadings), left) {
        assert SameTurn(finished, left) by {
          forall i | 0 <= i < |finished| ensures finished[i].left == left {
            if i < |old(segmentHeadings)| {
              assert finished[i] == old(segmentHeadings)[i];
            }
          }
        }
        Telescope(finished, left);
      }
    }
  }
}

// Where the pipeline meets the trip detector: a window that passes the stationary test holds
// no movement, so a point marked stationary dates its standstill after the last movement.
module NoiseMovement {
  import opened Domain
  import opened Sorting
  import opened Noise
  import opened NoiseOutput
  import opened NoiseDistance
  import opened TripDetection
  import opened TripRecords

  // What a still device reports is never movement once the two speed thresholds are apart.
  lemma StillIsNoMovement(s: Setup, cfg: DetectionConfig, center: GeoPoint, q: ProcessedPoint)
    requires Still(s, center, q) && cfg.movementMinSpeedMps > s.cfg.stationaryMaxSpeedMps
    ensures !Moves(cfg, q)
  {
  }

  lemma {:induction false} IncreasingPairs(points: seq<ProcessedPoint>, i: nat, j: nat)
    requires Increasing(points) && i < j < |points|
    ensures points[i].recordedAt < points[j].recordedAt
  {
    if i + 1 < j {
      IncreasingPairs(points, i, j - 1);
    }
  }

  // The window that dates the k-th accepted point is still, from its first point on.
  lemma {:induction false} WindowIsStill(s: Setup, cfg: DetectionConfig, history: seq<ProcessedPoint>,
                                         accepted: seq<ProcessedPoint>, j: nat, i: nat)
    requires cfg.movementMinSpeedMps > s.cfg.stationaryMaxSpeedMps
    requires j < |accepted| && Triggers(s, history, accepted, j)
    requires Increasing(Track(history, accepted)) && i <= |AcceptedOnly(history)| + j
    requires SinceOf(s, history, accepted, j) <= Track(history, accepted)[i].recordedAt
    ensures !Moves(cfg, Track(history, accepted)[i])
  {
    hide AcceptedOnly, DropBefore, Increasing, Still, Moves;
    var track, part := Track(history, accepted), Track(history, accepted[..j + 1]);
    var window := WindowAt(s, history, accepted, j);
    assert part == track[..|AcceptedOnly(history)| + j + 1];
    DropIsSuffix(part, accepted[j].recordedAt - Seconds(s.cfg.stationaryWindowSec));
    var dropped := |part| - |window|;
    assert window == part[dropped..] && window[0] == track[dropped];
    if i < dropped {
      IncreasingPairs(track, i, dropped);
    }
    assert window[i - dropped] == track[i];
    StillIsNoMovement(s, cfg, window[0].filtered.value, track[i]);
  }

  // A window starts no earlier than the track does.
  lemma WindowIsOnTrack(s: Setup, history: seq<ProcessedPoint>, accepted: seq<ProcessedPoint>, j: nat)
    requires j < |accepted| && Triggers(s, history, accepted, j) && Increasing(Track(history, accepted))
    ensures Track(history, accepted)[0].recordedAt <= SinceOf(s, history, accepted, j)
  {
    hide AcceptedOnly, DropBefore, Increasing, Still;
    var track, part := Track(history, accepted), Track(history, accepted[..j + 1]);
    var window := WindowAt(s, history, accepted, j);
    assert part == track[..|AcceptedOnly(history)| + j + 1];
    DropIsSuffix(part, accepted[j].recordedAt - Seconds(s.cfg.stationaryWindowSec));
    var dropped := |part| - |window|;
    assert window == part[dropped..] && window[0] == track[dropped];
    if 0 < dropped {
      IncreasingPairs(track, 0, dropped);
    }
  }

  // Accepted output is calm, whatever older points were stored before the history it saw.
  lemma {:induction false} OutputIsCalm(s: Setup, cfg: DetectionConfig, older: seq<ProcessedPoint>,
                                        history: seq<ProcessedPoint>, accepted: seq<ProcessedPoint>, k: nat)
    requires cfg.movementMinSpeedMps > s.cfg.stationaryMaxSpeedMps
    requires k < |accepted| && MarksFit(s, history, accepted) && accepted[k].distanceDeltaM >= 0.0
    requires Increasing(older + Track(history, accepted))
    ensures Calm(cfg, older + Track(history, accepted[..k]), accepted[k])
  {
    if accepted[k].isStationary {
      var track, all := Track(history, accepted), older + Track(history, accepted);
      assert MarkFits(s, history, accepted, k);
      var j :| DatedBy(s, history, accepted, j, k);
      var since := SinceOf(s, history, accepted, j);
      TailIsIncreasing(older, track);
      assert StillSince(accepted[k]) == since <= accepted[k].recordedAt;
      hide AcceptedOnly, Increasing, Moves, Triggers, SinceOf, MarksFit, MarkFits, DatedBy;
      WindowIsOnTrack(s, history, accepted, j);
      forall i | 0 <= i < |older + Track(history, accepted[..k])|
          && since <= (older + Track(history, accepted[..k]))[i].recordedAt
        ensures !Moves(cfg, (older + Track(history, accepted[..k]))[i])
      {
        assert (older + Track(history, accepted[..k]))[i] == all[i];
        if i < |older| {
          IncreasingPairs(all, i, |older|);
          assert false;
        }
        WindowIsStill(s, cfg, history, accepted, j, i - |older|);
      }
    }
  }

  lemma TailIsIncreasing(older: seq<ProcessedPoint>, track: seq<ProcessedPoint>)
    requires Increasing(older + track)
    ensures Increasing(track)
  {
    forall i | 0 < i < |track| ensures track[i - 1].recordedAt < track[i].recordedAt {
      assert (older + track)[|older| + i - 1] == track[i - 1] && (older + track)[|older| + i] == track[i];
    }
  }
}

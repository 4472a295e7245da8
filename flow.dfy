/** The match flow: both birds sampled every 30 minutes over the match
    (generateMatchFlow in utils/panchaPakshi.ts). */
module MatchFlow {
  import opened Types
  import opened Snapshots

  /** The simulated span of a match format, in minutes: four hours for a
      T20, eight for an ODI, a whole number of 30-minute steps either way. */
  function DurationMinutes(format: MatchFormat): (d: nat)
    ensures d == 240 <==> format.T20?
    ensures d == 480 <==> format.ODI?
    ensures d % 30 == 0
  {
    if format == T20 then 240 else 480
  }

  /** The label of the stronger side, or "Draw" on equal power. */
  function DominantTeam(powerA: int, powerB: int, teamA: string, teamB: string): (d: string)
    ensures powerA > powerB ==> d == teamA
    ensures powerB > powerA ==> d == teamB
    ensures powerA == powerB ==> d == "Draw"
    ensures teamA != "Draw" && teamB != "Draw" ==> (d == "Draw" <==> powerA == powerB)
  {
    if powerA == powerB then "Draw" else if powerA > powerB then teamA else teamB
  }

  /** The flow point sampled at instant `t`. */
  function FlowPointAt(birdA: Bird, birdB: Bird, t: int, phase: MoonPhase,
                       teamA: string, teamB: string): (p: FlowPoint)
    ensures p.time == t
  {
    var a := SnapshotAt(birdA, t, phase);
    var b := SnapshotAt(birdB, t, phase);
    FlowPoint(t, a.power, b.power, DominantTeam(a.power, b.power, teamA, teamB),
              a.activity, b.activity)
  }

  /** `flow` is the flow of a match starting at `start`: one point every
      30 minutes from the start to the end of the format's span, inclusive. */
  ghost predicate IsMatchFlow(flow: seq<FlowPoint>, birdA: Bird, birdB: Bird, start: int,
                              phase: MoonPhase, format: MatchFormat, teamA: string, teamB: string)
  {
    |flow| >= 1 && 30 * (|flow| - 1) == DurationMinutes(format)
    && forall k :: 0 <= k < |flow| ==>
         flow[k] == FlowPointAt(birdA, birdB, start + 30 * k, phase, teamA, teamB)
  }

  /** generateMatchFlow: for m = 0, 30, .. up to the duration, snapshot both
      birds at start + m and label the side with the higher power. */
  method GenerateMatchFlow(birdA: Bird, birdB: Bird, start: int, phase: MoonPhase,
                           format: MatchFormat, teamA: string, teamB: string)
    returns (flow: seq<FlowPoint>)
    ensures IsMatchFlow(flow, birdA, birdB, start, phase, format, teamA, teamB)
  {
    flow := [];
    var durationMinutes := if format == T20 then 240 else 480;
    var interval := 30;

    var m := 0;
    while m <= durationMinutes
      invariant durationMinutes == DurationMinutes(format)
      invariant 0 <= m <= durationMinutes + interval && 30 * |flow| == m
      invariant forall k :: 0 <= k < |flow| ==>
                  flow[k] == FlowPointAt(birdA, birdB, start + 30 * k, phase, teamA, teamB)
      decreases durationMinutes - m
    {
      var pointTime := start + m;
      var snapA := CalculateSnapshot(birdA, pointTime, phase);
      var snapB := CalculateSnapshot(birdB, pointTime, phase);

      var dominant := "Draw";
      if snapA.power > snapB.power { dominant := teamA; }
      if snapB.power > snapA.power { dominant := teamB; }

      var point := FlowPoint(pointTime, snapA.power, snapB.power, dominant,
                             snapA.activity, snapB.activity);
      PointOfSnapshots(birdA, birdB, pointTime, phase, teamA, teamB, snapA, snapB, point);
      AppendPoint(flow, point, birdA, birdB, start, pointTime, phase, teamA, teamB);
      flow := flow + [point];
      m := m + interval;
    }
  }

  /** A point built from the two snapshots at `t` is the flow point at `t`. */
  lemma PointOfSnapshots(birdA: Bird, birdB: Bird, t: int, phase: MoonPhase,
                         teamA: string, teamB: string, a: Snapshot, b: Snapshot, p: FlowPoint)
    requires a == SnapshotAt(birdA, t, phase) && b == SnapshotAt(birdB, t, phase)
    requires p.time == t && p.teamAPower == a.power && p.teamBPower == b.power
    requires p.activityA == a.activity && p.activityB == b.activity
    requires p.dominantTeam == DominantTeam(a.power, b.power, teamA, teamB)
    ensures p == FlowPointAt(birdA, birdB, t, phase, teamA, teamB)
  {
  }

  /** The points of a flow prefix, one more point appended. */
  lemma AppendPoint(flow: seq<FlowPoint>, p: FlowPoint, birdA: Bird, birdB: Bird, start: int,
                    t: int, phase: MoonPhase, teamA: string, teamB: string)
    requires forall k :: 0 <= k < |flow| ==>
               flow[k] == FlowPointAt(birdA, birdB, start + 30 * k, phase, teamA, teamB)
    requires t == start + 30 * |flow| && p == FlowPointAt(birdA, birdB, t, phase, teamA, teamB)
    ensures forall k :: 0 <= k < |flow + [p]| ==>
              (flow + [p])[k] == FlowPointAt(birdA, birdB, start + 30 * k, phase, teamA, teamB)
  {
    forall k | 0 <= k < |flow + [p]|
      ensures (flow + [p])[k] == FlowPointAt(birdA, birdB, start + 30 * k, phase, teamA, teamB)
    {
      if k < |flow| {
        assert (flow + [p])[k] == flow[k];
      } else {
        assert (flow + [p])[k] == p && k == |flow|;
      }
    }
  }

  // ----- Facts about the flow -----

  /** A T20 flow has 9 points and an ODI flow 17. */
  lemma FlowLengths(flow: seq<FlowPoint>, birdA: Bird, birdB: Bird, start: int,
                    phase: MoonPhase, format: MatchFormat, teamA: string, teamB: string)
    requires IsMatchFlow(flow, birdA, birdB, start, phase, format, teamA, teamB)
    ensures format == T20 ==> |flow| == 9
    ensures format == ODI ==> |flow| == 17
  {
  }

  /** The first point is the match start and the last the end of the span. */
  lemma FlowEndpoints(flow: seq<FlowPoint>, birdA: Bird, birdB: Bird, start: int,
                      phase: MoonPhase, format: MatchFormat, teamA: string, teamB: string)
    requires IsMatchFlow(flow, birdA, birdB, start, phase, format, teamA, teamB)
    ensures flow[0].time == start
    ensures flow[|flow| - 1].time == start + DurationMinutes(format)
  {
  }

  /** Swapping the two sides swaps the powers and activities of every point
      and keeps its dominant label. */
  lemma FlowPointSwap(birdA: Bird, birdB: Bird, t: int, phase: MoonPhase, teamA: string, teamB: string)
    ensures var p := FlowPointAt(birdA, birdB, t, phase, teamA, teamB);
            var q := FlowPointAt(birdB, birdA, t, phase, teamB, teamA);
            q == FlowPoint(p.time, p.teamBPower, p.teamAPower, p.dominantTeam, p.activityB, p.activityA)
  {
  }

  /** Two captains with the same bird are level at every point. */
  lemma SameBirdIsAlwaysDraw(bird: Bird, t: int, phase: MoonPhase, teamA: string, teamB: string)
    ensures FlowPointAt(bird, bird, t, phase, teamA, teamB).dominantTeam == "Draw"
  {
  }
}

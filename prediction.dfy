/** The full prediction for a match: both captains' birds, the match and
    toss snapshots, the winners, the confidence and the match flow
    (calculatePrediction in utils/panchaPakshi.ts). */
module Predictions {
  import opened Types
  import opened Tables
  import opened Resolver
  import opened Engine
  import opened Snapshots
  import opened MatchFlow

  const DayNames: seq<string> :=
    ["Sunday", "Monday", "Tuesday", "Wednesday", "Thursday", "Friday", "Saturday"]

  function Abs(x: int): nat {
    if x < 0 then -x else x
  }

  /** The winner of the toss: the side with the higher toss power; on equal
      power the side whose bird comes first in the canonical order, and the
      second side when both captains have the same bird. */
  function TossWinner(powerA: int, powerB: int, birdA: Bird, birdB: Bird,
                      teamA: string, teamB: string): (w: string)
    ensures w == teamA || w == teamB
    ensures powerA > powerB ==> w == teamA
    ensures powerB > powerA ==> w == teamB
  {
    if powerA > powerB then teamA
    else if powerB > powerA then teamB
    else if Rank(birdA) < Rank(birdB) then teamA
    else teamB
  }

  /** The confidence, in percent, for a power difference `diff`: 50 for
      level powers, otherwise 60 plus a fifth of the difference. */
  function WinProbability(diff: int): (w: real)
    ensures w >= 50.0
    ensures w == 50.0 <==> diff == 0
    ensures diff != 0 ==> w > 60.0
    ensures -130 <= diff <= 130 ==> w <= 86.0
  {
    if diff == 0 then 50.0 else 60.0 + (Abs(diff) as real) / 5.0
  }

  /** The toss block of calculatePrediction: the higher toss power wins;
      on a tie the bird found first in the canonical order wins. */
  method DecideToss(powerA: int, powerB: int, birdA: Bird, birdB: Bird,
                    teamA: string, teamB: string)
    returns (tossWinner: string)
    ensures tossWinner == TossWinner(powerA, powerB, birdA, birdB, teamA, teamB)
  {
    tossWinner := "Draw";
    if powerA > powerB {
      tossWinner := teamA;
    } else if powerB > powerA {
      tossWinner := teamB;
    } else {
      // Rank(b) is birdsOrder.indexOf(b), see RankIsIndexOf
      tossWinner := if Rank(birdA) < Rank(birdB) then teamA else teamB;
    }
  }

  /** The winner block of calculatePrediction: "Draw" unless one side has
      the higher match power. */
  method DecideWinner(powerA: int, powerB: int, teamA: string, teamB: string)
    returns (winner: string)
    ensures winner == DominantTeam(powerA, powerB, teamA, teamB)
  {
    winner := "Draw";
    if powerA > powerB { winner := teamA; }
    if powerB > powerA { winner := teamB; }
  }

  /** The prediction calculatePrediction returns, given the flow it
      generates: the captains' birds, their snapshots at the match and at
      the toss, and the verdicts drawn from them. */
  function PredictionOf(teamA: string, teamB: string,
                        captainA: PlayerDetails, captainB: PlayerDetails,
                        date: int, tossDate: int, phase: MoonPhase, format: MatchFormat,
                        flow: seq<FlowPoint>): (p: Prediction)
    ensures p.teamA == teamA && p.teamB == teamB && p.matchFlow == flow
    ensures p.birdA == GetBird(captainA, phase) && p.birdB == GetBird(captainB, phase)
    ensures p.winner in {teamA, teamB, "Draw"} && p.tossWinner in {teamA, teamB}
    ensures 1 <= p.timeSlot <= 5 && p.dayOfWeek in DayNames
  {
    var birdA := GetBird(captainA, phase);
    var birdB := GetBird(captainB, phase);
    var a := SnapshotAt(birdA, date, phase);
    var b := SnapshotAt(birdB, date, phase);
    var ta := SnapshotAt(birdA, tossDate, phase);
    var tb := SnapshotAt(birdB, tossDate, phase);
    Prediction(
      teamA, teamB, captainA, captainB, birdA, birdB,
      a.activity, b.activity,
      DominantTeam(a.power, b.power, teamA, teamB), WinProbability(a.power - b.power),
      a.yama, a.dayTime, phase, DayNames[Weekday(date)], a.rulingBird,
      TossWinner(ta.power, tb.power, birdA, birdB, teamA, teamB), ta.activity, tb.activity,
      flow, format,
      a.relation, b.relation, ta.relation, tb.relation)
  }

  /** calculatePrediction. `date` and `tossDate` are instants as in the
      snapshot model. */
  method CalculatePrediction(teamA: string, teamB: string,
                             captainA: PlayerDetails, captainB: PlayerDetails,
                             date: int, tossDate: int,
                             phase: MoonPhase, format: MatchFormat)
    returns (p: Prediction)
    ensures p == PredictionOf(teamA, teamB, captainA, captainB, date, tossDate, phase, format, p.matchFlow)
    ensures IsMatchFlow(p.matchFlow, p.birdA, p.birdB, date, phase, format, teamA, teamB)
  {
    var birdA := GetBird(captainA, phase);
    var birdB := GetBird(captainB, phase);

    var matchSnapA := CalculateSnapshot(birdA, date, phase);
    var matchSnapB := CalculateSnapshot(birdB, date, phase);

    var tossSnapA := CalculateSnapshot(birdA, tossDate, phase);
    var tossSnapB := CalculateSnapshot(birdB, tossDate, phase);

    var tossWinner := DecideToss(tossSnapA.power, tossSnapB.power, birdA, birdB, teamA, teamB);

    var winner := DecideWinner(matchSnapA.power, matchSnapB.power, teamA, teamB);

    var dayIndex := Weekday(date);
    var matchFlow := GenerateMatchFlow(birdA, birdB, date, phase, format, teamA, teamB);

    var winProbability := WinProbability(matchSnapA.power - matchSnapB.power);

    p := Prediction(
      teamA, teamB, captainA, captainB, birdA, birdB,
      matchSnapA.activity, matchSnapB.activity,
      winner, winProbability,
      matchSnapA.yama, matchSnapA.dayTime, phase, DayNames[dayIndex],
      matchSnapA.rulingBird,
      tossWinner, tossSnapA.activity, tossSnapB.activity,
      matchFlow, format,
      matchSnapA.relation, matchSnapB.relation,
      tossSnapA.relation, tossSnapB.relation);
  }

  /** The first point of a match flow is sampled at the start. */
  lemma FirstFlowPoint(flow: seq<FlowPoint>, birdA: Bird, birdB: Bird, start: int,
                       phase: MoonPhase, format: MatchFormat, teamA: string, teamB: string)
    requires IsMatchFlow(flow, birdA, birdB, start, phase, format, teamA, teamB)
    ensures flow[0] == FlowPointAt(birdA, birdB, start, phase, teamA, teamB)
  {
  }

  // ----- Facts about the verdicts -----

  /** The time fields of a prediction come from the first captain's match
      snapshot: a yama in 1 .. 5, the day half and weekday of the match
      instant, and the yama's ruling bird, to which the first captain stands
      as Self exactly when it is that bird. */
  lemma PredictionTimeFields(teamA: string, teamB: string,
                             captainA: PlayerDetails, captainB: PlayerDetails,
                             date: int, tossDate: int, phase: MoonPhase, format: MatchFormat,
                             flow: seq<FlowPoint>)
    ensures var p := PredictionOf(teamA, teamB, captainA, captainB, date, tossDate, phase, format, flow);
            var m := MinuteOfDay(date);
            1 <= p.timeSlot <= 5 && p.timeSlot == Yama(m)
            && (p.dayTime == Day <==> IsDayMinute(m))
            && p.rulingBird == RulingBird(Weekday(date), !IsDayMinute(m), phase, p.timeSlot)
            && p.dayOfWeek == DayNames[Weekday(date)]
            && (p.relationA == Self <==> p.rulingBird == p.birdA)
  {
  }

  /** The verdicts: the match is won by the side with the higher match
      power and drawn on level power, with a confidence between 50 and 86
      that is 50 exactly on level power; the toss always has a winner among
      the two sides. */
  lemma PredictionVerdicts(teamA: string, teamB: string,
                           captainA: PlayerDetails, captainB: PlayerDetails,
                           date: int, tossDate: int, phase: MoonPhase, format: MatchFormat,
                           flow: seq<FlowPoint>)
    ensures var p := PredictionOf(teamA, teamB, captainA, captainB, date, tossDate, phase, format, flow);
            var a := SnapshotAt(p.birdA, date, phase).power;
            var b := SnapshotAt(p.birdB, date, phase).power;
            (a > b ==> p.winner == teamA) && (b > a ==> p.winner == teamB)
            && (a == b ==> p.winner == "Draw")
            && 50.0 <= p.winProbability <= 86.0
            && (p.winProbability == 50.0 <==> a == b)
            && (p.tossWinner == teamA || p.tossWinner == teamB)
  {
  }

  /** The first point of the flow repeats the match-time verdict: the same
      dominant side and the same two activities. Every match flow starts
      with the point at the match instant (FirstFlowPoint). */
  lemma FlowStartsAtVerdict(teamA: string, teamB: string,
                            captainA: PlayerDetails, captainB: PlayerDetails,
                            date: int, tossDate: int, phase: MoonPhase, format: MatchFormat,
                            flow: seq<FlowPoint>)
    requires |flow| >= 1
    requires flow[0] == FlowPointAt(GetBird(captainA, phase), GetBird(captainB, phase), date,
                                    phase, teamA, teamB)
    ensures var p := PredictionOf(teamA, teamB, captainA, captainB, date, tossDate, phase, format, flow);
            p.matchFlow[0].dominantTeam == p.winner
            && p.matchFlow[0].activityA == p.activityA && p.matchFlow[0].activityB == p.activityB
  {
  }

  /** On level toss power the first side wins exactly when its bird comes
      earlier in `birdsOrder`, as `indexOf` finds it. */
  lemma TossTieByOrder(power: int, birdA: Bird, birdB: Bird, teamA: string, teamB: string)
    requires teamA != teamB
    ensures TossWinner(power, power, birdA, birdB, teamA, teamB) == teamA
            <==> IndexOf(BirdsOrder, birdA) < IndexOf(BirdsOrder, birdB)
  {
    RankIsIndexOf(birdA);
    RankIsIndexOf(birdB);
  }

  /** On level toss power with the same bird on both sides, the second side
      wins the toss. */
  lemma SameBirdTossGoesToSecondSide(power: int, bird: Bird, teamA: string, teamB: string)
    ensures TossWinner(power, power, bird, bird, teamA, teamB) == teamB
  {
  }

  /** Except for the same-bird tie, listing the sides the other way round
      does not change who wins the toss. */
  lemma TossSideSwap(powerA: int, powerB: int, birdA: Bird, birdB: Bird, teamA: string, teamB: string)
    requires powerA != powerB || birdA != birdB
    ensures TossWinner(powerB, powerA, birdB, birdA, teamB, teamA)
            == TossWinner(powerA, powerB, birdA, birdB, teamA, teamB)
  {
    if powerA == powerB {
      assert Rank(birdA) != Rank(birdB);
    }
  }

  /** Listing the sides the other way round does not change the match
      winner or the confidence. */
  lemma VerdictSideSwap(powerA: int, powerB: int, teamA: string, teamB: string)
    ensures DominantTeam(powerB, powerA, teamB, teamA) == DominantTeam(powerA, powerB, teamA, teamB)
    ensures WinProbability(powerB - powerA) == WinProbability(powerA - powerB)
  {
  }

  /** On a power difference that is a multiple of 5, as every difference of
      two snapshot powers is, the confidence is a whole number. */
  lemma ConfidenceIsWhole(diff: int)
    requires diff % 5 == 0
    ensures WinProbability(diff) == (if diff == 0 then 50 else 60 + Abs(diff) / 5) as real
  {
    var q := Abs(diff) / 5;
    assert Abs(diff) == 5 * q;
    assert (Abs(diff) as real) / 5.0 == q as real;
  }

  /** A wider power gap never gives a lower confidence. */
  lemma WinProbabilityMonotone(d1: int, d2: int)
    requires Abs(d1) <= Abs(d2)
    ensures WinProbability(d1) <= WinProbability(d2)
  {
  }
}

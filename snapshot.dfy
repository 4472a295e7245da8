/** The state of one bird at one instant (calculateSnapshot in
    utils/panchaPakshi.ts). An instant is a whole number of local minutes
    counted from a Sunday midnight; its weekday and clock time are what
    `Date.getDay`, `getHours` and `getMinutes` report. */
module Snapshots {
  import opened Types
  import opened Tables
  import opened Engine

  const DayStart := 360       // 06:00
  const DayEnd := 1080        // 18:00
  const YamaDuration := 144   // 2 h 24 min
  const MinutesPerDay := 1440

  /** The weekday of an instant, 0 for Sunday. */
  function Weekday(t: int): (d: int)
    ensures 0 <= d < 7
  {
    (t / MinutesPerDay) % 7
  }

  /** The minutes since local midnight of an instant. */
  function MinuteOfDay(t: int): (m: int)
    ensures 0 <= m < MinutesPerDay
  {
    t % MinutesPerDay
  }

  /** The fixed day half runs from 06:00 up to 18:00. */
  predicate IsDayMinute(m: int) {
    DayStart <= m < DayEnd
  }

  /** Minutes since the current half began: the day at 06:00, the night at
      18:00 (of the previous evening for times after midnight). */
  function HalfElapsed(m: int): (e: int)
    requires 0 <= m < MinutesPerDay
    ensures 0 <= e < DayEnd - DayStart
  {
    (m - (if IsDayMinute(m) then DayStart else DayEnd)) % MinutesPerDay
  }

  /** The yama of a clock minute: the 144-minute slot of its half that holds it. */
  function Yama(m: int): (y: int)
    requires 0 <= m < MinutesPerDay
    ensures 1 <= y <= 5
    ensures (y - 1) * YamaDuration <= HalfElapsed(m) < y * YamaDuration
  {
    HalfElapsed(m) / YamaDuration + 1
  }

  /** The bonus a relationship adds to the base power: the most for the
      ruler itself, a gain for a friend, a loss only for an enemy. */
  function RelationBonus(rel: BirdRelation): (b: int)
    ensures -10 <= b <= 20
    ensures b == 20 <==> rel == Self
    ensures b > 0 <==> rel == Self || rel == Friend
    ensures b < 0 <==> rel == Enemy
  {
    match rel
    case Self => 20
    case Friend => 10
    case Enemy => -10
    case Neutral => 0
  }

  /** The snapshot of `bird` at instant `t`. */
  function SnapshotAt(bird: Bird, t: int, phase: MoonPhase): (s: Snapshot)
    ensures 1 <= s.yama <= 5
    ensures s.dayTime == Day <==> IsDayMinute(MinuteOfDay(t))
    ensures s.relation != Neutral
    ensures s.relation == Self <==> s.rulingBird == bird
    ensures -10 <= s.power <= 120
  {
    var m := MinuteOfDay(t);
    var night := !IsDayMinute(m);
    var yama := Yama(m);
    var ruler := RulingBird(Weekday(t), night, phase, yama);
    var act := ActivityForYama(StartActivity(bird, Weekday(t), night, phase), yama, phase);
    var rel := Relationship(bird, ruler, phase);
    Snapshot(act, ActivityPower(act) + RelationBonus(rel), yama,
             if night then Night else Day, ruler, rel)
  }

  /** calculateSnapshot: split the clock into the 06:00-18:00 day and the
      18:00-06:00 night, take the 144-minute yama (at most 5), find the ruler
      and the bird's activity, then score base power plus 20 (self), 10
      (friend) or -10 (enemy). */
  method CalculateSnapshot(bird: Bird, t: int, phase: MoonPhase) returns (s: Snapshot)
    ensures s == SnapshotAt(bird, t, phase)
  {
    var dayIndex := Weekday(t);
    var hour := MinuteOfDay(t) / 60;
    var minutes := MinuteOfDay(t) % 60;
    var totalMinutes := hour * 60 + minutes;
    ClockMinutes(MinuteOfDay(t));
    BranchYamas(totalMinutes);

    var yama := 1;
    var dayTime := Day;

    if totalMinutes >= DayStart && totalMinutes < DayEnd {
      dayTime := Day;
      var minsSinceStart := totalMinutes - DayStart;
      yama := Min(minsSinceStart / YamaDuration + 1, 5);
    } else {
      dayTime := Night;
      var minsSinceStart := 0;
      if totalMinutes >= DayEnd {
        minsSinceStart := totalMinutes - DayEnd;
      } else {
        minsSinceStart := totalMinutes + (MinutesPerDay - DayEnd);
      }
      yama := Min(minsSinceStart / YamaDuration + 1, 5);
    }
    assert yama == Yama(MinuteOfDay(t));
    assert dayTime == Night <==> !IsDayMinute(MinuteOfDay(t));

    var rulingBird := RulingBirdForYama(dayIndex, dayTime == Night, phase, yama);
    var startAct := StartActivity(bird, dayIndex, dayTime == Night, phase);
    var currentAct := ActivityForYama(startAct, yama, phase);

    var power := ActivityPower(currentAct);
    var relation := Relationship(bird, rulingBird, phase);
    if relation == Self {
      power := power + 20;
    } else if relation == Friend {
      power := power + 10;
    } else if relation == Enemy {
      power := power - 10;
    }
    assert power == ActivityPower(currentAct) + RelationBonus(relation);

    s := Snapshot(currentAct, power, yama, dayTime, rulingBird, relation);
    SnapshotFromParts(bird, t, phase, s);
  }

  /** A snapshot whose every field is computed as calculateSnapshot computes
      it is the snapshot of `bird` at `t`. */
  lemma SnapshotFromParts(bird: Bird, t: int, phase: MoonPhase, s: Snapshot)
    requires s.yama == Yama(MinuteOfDay(t))
    requires s.dayTime == Night <==> !IsDayMinute(MinuteOfDay(t))
    requires s.rulingBird == RulingBird(Weekday(t), s.dayTime == Night, phase, s.yama)
    requires s.activity
             == ActivityForYama(StartActivity(bird, Weekday(t), s.dayTime == Night, phase), s.yama, phase)
    requires s.relation == Relationship(bird, s.rulingBird, phase)
    requires s.power == ActivityPower(s.activity) + RelationBonus(s.relation)
    ensures s == SnapshotAt(bird, t, phase)
  {
  }

  function Min(a: int, b: int): int {
    if a < b then a else b
  }

  /** The three branches of calculateSnapshot compute the yama of the clock
      minute; the cap at 5 never changes the value. */
  lemma BranchYamas(m: int)
    requires 0 <= m < MinutesPerDay
    ensures IsDayMinute(m) ==> Min((m - DayStart) / YamaDuration + 1, 5) == Yama(m)
    ensures m >= DayEnd ==> Min((m - DayEnd) / YamaDuration + 1, 5) == Yama(m)
    ensures m < DayStart ==> Min((m + (MinutesPerDay - DayEnd)) / YamaDuration + 1, 5) == Yama(m)
  {
    var e := if IsDayMinute(m) then m - DayStart
             else if m >= DayEnd then m - DayEnd
             else m + (MinutesPerDay - DayEnd);
    assert 0 <= e < 720;
    assert HalfElapsed(m) == e;
    SlotOfElapsed(e);
  }

  /** A half-span of 720 minutes holds exactly five yamas. */
  lemma SlotOfElapsed(e: int)
    requires 0 <= e < 720
    ensures e / YamaDuration + 1 <= 5
  {
  }

  /** Hours and minutes put back together give the clock minute. */
  lemma ClockMinutes(m: int)
    requires 0 <= m < MinutesPerDay
    ensures (m / 60) * 60 + m % 60 == m
  {
  }

  // ----- Facts about snapshots -----

  /** The yama slots start at 06:00 and 18:00 and each lasts 144 minutes:
      the k-th yama of the day begins at 06:00 + 144(k-1), that of the night
      at 18:00 + 144(k-1) (wrapping past midnight). */
  lemma YamaBoundaries(k: int)
    requires 1 <= k <= 5
    ensures Yama(DayStart + (k - 1) * YamaDuration) == k
    ensures Yama((DayEnd + (k - 1) * YamaDuration) % MinutesPerDay) == k
  {
    if k == 1 {} else if k == 2 {} else if k == 3 {} else if k == 4 {}
  }

  /** Every snapshot power is a multiple of 5: so are all base powers and
      all relationship bonuses. */
  lemma PowerMultipleOfFive(bird: Bird, t: int, phase: MoonPhase)
    ensures SnapshotAt(bird, t, phase).power % 5 == 0
  {
    var s := SnapshotAt(bird, t, phase);
    SnapshotPower(bird, t, phase);
    BasePlusBonus(s.activity, s.relation);
  }

  /** A snapshot's power is the base power of its activity plus the bonus
      of its relationship to the ruler. */
  lemma SnapshotPower(bird: Bird, t: int, phase: MoonPhase)
    ensures SnapshotAt(bird, t, phase).power
            == ActivityPower(SnapshotAt(bird, t, phase).activity) + RelationBonus(SnapshotAt(bird, t, phase).relation)
  {
  }

  /** A base power plus a relationship bonus is a multiple of 5. */
  lemma BasePlusBonus(a: Activity, rel: BirdRelation)
    ensures (ActivityPower(a) + RelationBonus(rel)) % 5 == 0
  {
    match a
    case Rule => assert ActivityPower(a) == 100;
    case Eat => assert ActivityPower(a) == 80;
    case Walk => assert ActivityPower(a) == 50;
    case Sleep => assert ActivityPower(a) == 25;
    case Die => assert ActivityPower(a) == 0;
  }

  /** The ruling bird and the day half of a snapshot do not depend on the
      subject bird. */
  lemma RulerIndependentOfSubject(a: Bird, b: Bird, t: int, phase: MoonPhase)
    ensures SnapshotAt(a, t, phase).rulingBird == SnapshotAt(b, t, phase).rulingBird
    ensures SnapshotAt(a, t, phase).yama == SnapshotAt(b, t, phase).yama
    ensures SnapshotAt(a, t, phase).dayTime == SnapshotAt(b, t, phase).dayTime
  {
  }

  /** Except in the waning night, a bird is its own ruler exactly when it is
      itself in Rule, and then its power is the maximum 120. */
  lemma SelfExactlyWhenRuling(bird: Bird, t: int, phase: MoonPhase)
    requires ProperTable(!IsDayMinute(MinuteOfDay(t)), phase)
    ensures SnapshotAt(bird, t, phase).relation == Self
            <==> SnapshotAt(bird, t, phase).activity == Rule
    ensures SnapshotAt(bird, t, phase).power == 120
            <==> SnapshotAt(bird, t, phase).activity == Rule
  {
    var m := MinuteOfDay(t);
    var d, night, y := Weekday(t), !IsDayMinute(m), Yama(m);
    var s := SnapshotAt(bird, t, phase);
    ExactlyOneRuler(d, night, phase, y);
    assert s.activity == Rule <==> RulesAt(bird, d, night, phase, y);
    assert s.rulingBird == RulingBird(d, night, phase, y);
    assert s.relation == Self <==> s.activity == Rule;
    assert s.power == ActivityPower(s.activity) + RelationBonus(s.relation);
  }

  /** In the waning night Owl can be in Rule while Vulture is reported as
      ruler; Owl is then scored as Vulture's enemy, 90 instead of 120. This
      happens at 01:12 on a Sunday (the fourth night yama, which takes the
      weekday of the calendar date, as `getDay` does). */
  lemma WaningNightOwlScoredAsEnemy()
    ensures SnapshotAt(Owl, 72, Waning).activity == Rule
    ensures SnapshotAt(Owl, 72, Waning).rulingBird == Vulture
    ensures SnapshotAt(Owl, 72, Waning).relation == Enemy
    ensures SnapshotAt(Owl, 72, Waning).power == 90
  {
    assert MinuteOfDay(72) == 72 && Weekday(72) == 0;
    assert Yama(72) == 4;
    WaningSundayNightTwoRulers();
  }
}

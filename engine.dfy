/** The state engine: relationships, starting activities, the rotation of an
    activity along the phase's cycle, and the ruling bird of a yama
    (getBirdRelationship, getStartActivity, getActivityForYama,
    getRulingBirdForYama in utils/panchaPakshi.ts). */
module Engine {
  import opened Types
  import opened Tables

  // ----- Relationship -----

  /** How `subject` stands towards `ruler`: itself, a listed friend, a listed
      enemy, or neither. */
  function Relationship(subject: Bird, ruler: Bird, phase: MoonPhase): (r: BirdRelation)
    ensures r == Self <==> subject == ruler
    ensures r == Friend <==> subject != ruler && ruler in Friends(phase, subject)
    ensures r == Enemy <==> subject != ruler && ruler in Enemies(phase, subject)
    ensures r != Neutral
  {
    RelationshipTableWellFormed(phase, subject, ruler);
    if subject == ruler then Self
    else if ruler in Friends(phase, subject) then Friend
    else if ruler in Enemies(phase, subject) then Enemy
    else Neutral
  }

  /** The relationship is the same seen from either side. */
  lemma RelationshipSymmetric(a: Bird, b: Bird, phase: MoonPhase)
    ensures Relationship(a, b, phase) == Relationship(b, a, phase)
  {
    RelationshipTableWellFormed(phase, a, b);
  }

  // ----- Starting activity and rotation -----

  /** The activity `bird` starts in on weekday `dayIndex` (0 is Sunday). */
  function StartActivity(bird: Bird, dayIndex: int, isNight: bool, phase: MoonPhase): Activity
    requires 0 <= dayIndex < 7
  {
    StartSequence(bird, isNight, phase)[dayIndex]
  }

  /** The activity reached from `start` after `yama - 1` steps along the
      cycle of `phase` (the start's position is `cycle.indexOf(start)`, see
      CycleIndexIsIndexOf). */
  function ActivityForYama(start: Activity, yama: int, phase: MoonPhase): (a: Activity)
    requires yama >= 1
    ensures a in Cycle(phase)
  {
    var cycle := Cycle(phase);
    var startIndex := CycleIndex(phase, start);
    cycle[(startIndex + (yama - 1)) % 5]
  }

  /** Adding to a residue modulo 5 is adding to the number. */
  lemma ModAdd5(a: int, b: int)
    ensures (a % 5 + b) % 5 == (a + b) % 5
  {
    assert a == 5 * (a / 5) + a % 5;
  }

  /** Two positions of a five-cycle moved by the same offset stay apart. */
  lemma ModCancel5(i: int, j: int, n: int)
    requires 0 <= i < 5 && 0 <= j < 5
    requires (i + n) % 5 == (j + n) % 5
    ensures i == j
  {
    ModAdd5(n, i);
    ModAdd5(n, j);
    assert (i + n % 5) % 5 == (j + n % 5) % 5;
  }

  /** The first yama keeps the starting activity. */
  lemma RotationIdentity(start: Activity, phase: MoonPhase)
    ensures ActivityForYama(start, 1, phase) == start
  {
  }

  /** The rotation repeats after five yamas. */
  lemma RotationPeriodic(start: Activity, yama: int, phase: MoonPhase)
    requires yama >= 1
    ensures ActivityForYama(start, yama + 5, phase) == ActivityForYama(start, yama, phase)
  {
    var k := CycleIndex(phase, start);
    assert (k + (yama + 5 - 1)) % 5 == (k + (yama - 1)) % 5;
  }

  /** Positions of a cycle holding the same activity are the same position. */
  lemma SameActivitySamePosition(phase: MoonPhase, i: int, j: int)
    requires 0 <= i < 5 && 0 <= j < 5
    requires Cycle(phase)[i] == Cycle(phase)[j]
    ensures i == j
  {
    CycleIsPermutation(phase);
  }

  /** Rotating twice is rotating by the sum of the steps. */
  lemma RotationCompose(start: Activity, y1: int, y2: int, phase: MoonPhase)
    requires y1 >= 1 && y2 >= 1
    ensures ActivityForYama(ActivityForYama(start, y1, phase), y2, phase)
            == ActivityForYama(start, y1 + y2 - 1, phase)
  {
    var i := CycleIndex(phase, start);
    var j := (i + (y1 - 1)) % 5;
    CycleIndexOfCycle(phase, j);
    ModAdd5(i + (y1 - 1), y2 - 1);
  }

  /** Each step moves to the next activity of the cycle, wrapping at the end. */
  lemma RotationSteps(phase: MoonPhase, k: int)
    requires 0 <= k < 5
    ensures ActivityForYama(Cycle(phase)[k], 2, phase) == Cycle(phase)[(k + 1) % 5]
  {
    SameActivitySamePosition(phase, k, CycleIndex(phase, Cycle(phase)[k]));
  }

  /** Within one yama, different starting activities stay different. */
  lemma RotationInjective(a: Activity, b: Activity, yama: int, phase: MoonPhase)
    requires yama >= 1
    requires ActivityForYama(a, yama, phase) == ActivityForYama(b, yama, phase)
    ensures a == b
  {
    var i, j := CycleIndex(phase, a), CycleIndex(phase, b);
    SameActivitySamePosition(phase, (i + (yama - 1)) % 5, (j + (yama - 1)) % 5);
    ModCancel5(i, j, yama - 1);
  }

  /** In every yama the activity `(yama - 1) % 5` places before Rule has
      rotated to Rule. */
  lemma RotationReachesRule(yama: int, phase: MoonPhase)
    requires yama >= 1
    ensures ActivityForYama(Cycle(phase)[(5 - (yama - 1) % 5) % 5], yama, phase) == Rule
  {
    var k := (5 - (yama - 1) % 5) % 5;
    SameActivitySamePosition(phase, k, CycleIndex(phase, Cycle(phase)[k]));
    assert (k + (yama - 1)) % 5 == 0;
  }

  // ----- The ruling bird -----

  /** `bird` is in Rule in the given yama. */
  predicate RulesAt(bird: Bird, dayIndex: int, isNight: bool, phase: MoonPhase, yama: int)
    requires 0 <= dayIndex < 7 && yama >= 1
  {
    ActivityForYama(StartActivity(bird, dayIndex, isNight, phase), yama, phase) == Rule
  }

  /** The position of the first bird of `order` that rules, or `|order|`. */
  function FirstRulerIndex(order: seq<Bird>, dayIndex: int, isNight: bool, phase: MoonPhase, yama: int): (k: nat)
    requires 0 <= dayIndex < 7 && yama >= 1
    ensures k <= |order|
    ensures k < |order| ==> RulesAt(order[k], dayIndex, isNight, phase, yama)
    ensures forall j :: 0 <= j < k ==> !RulesAt(order[j], dayIndex, isNight, phase, yama)
    decreases |order|
  {
    if |order| == 0 then 0
    else if RulesAt(order[0], dayIndex, isNight, phase, yama) then 0
    else 1 + FirstRulerIndex(order[1..], dayIndex, isNight, phase, yama)
  }

  /** The ruling bird of a yama: the first bird in canonical order that is in
      Rule, or Vulture when none is. */
  function RulingBird(dayIndex: int, isNight: bool, phase: MoonPhase, yama: int): (r: Bird)
    requires 0 <= dayIndex < 7 && yama >= 1
    ensures RulesAt(r, dayIndex, isNight, phase, yama) || r == Vulture
    ensures RulesAt(Vulture, dayIndex, isNight, phase, yama) ==> r == Vulture
    ensures r != Vulture ==> forall j :: 0 <= j < Rank(r) ==> !RulesAt(BirdsOrder[j], dayIndex, isNight, phase, yama)
  {
    var k := FirstRulerIndex(BirdsOrder, dayIndex, isNight, phase, yama);
    if k < |BirdsOrder| then BirdsOrder[k] else Vulture
  }

  /** The ruling bird rules whenever any bird does, no bird before it in
      canonical order rules, and it is Vulture when no bird rules. */
  lemma RulingBirdIsFirstRuler(dayIndex: int, isNight: bool, phase: MoonPhase, yama: int)
    requires 0 <= dayIndex < 7 && yama >= 1
    ensures forall b: Bird :: RulesAt(b, dayIndex, isNight, phase, yama) ==>
              RulesAt(RulingBird(dayIndex, isNight, phase, yama), dayIndex, isNight, phase, yama)
              && Rank(RulingBird(dayIndex, isNight, phase, yama)) <= Rank(b)
    ensures (forall b: Bird :: !RulesAt(b, dayIndex, isNight, phase, yama)) ==>
              RulingBird(dayIndex, isNight, phase, yama) == Vulture
  {
    var k := FirstRulerIndex(BirdsOrder, dayIndex, isNight, phase, yama);
    var r := RulingBird(dayIndex, isNight, phase, yama);
    forall b: Bird | RulesAt(b, dayIndex, isNight, phase, yama)
      ensures RulesAt(r, dayIndex, isNight, phase, yama) && Rank(r) <= Rank(b)
    {
      assert BirdsOrder[Rank(b)] == b;
      assert k <= Rank(b);
      assert Rank(BirdsOrder[k]) == k;
    }
  }

  /** A bird in Rule with none in Rule before it is the first ruler. */
  lemma FirstRulerAt(order: seq<Bird>, dayIndex: int, isNight: bool, phase: MoonPhase, yama: int, i: int)
    requires 0 <= dayIndex < 7 && yama >= 1 && 0 <= i < |order|
    requires RulesAt(order[i], dayIndex, isNight, phase, yama)
    requires forall j :: 0 <= j < i ==> !RulesAt(order[j], dayIndex, isNight, phase, yama)
    ensures FirstRulerIndex(order, dayIndex, isNight, phase, yama) == i
  {
  }

  /** With no bird in Rule the search runs off the end of the order. */
  lemma NoRulerIndex(order: seq<Bird>, dayIndex: int, isNight: bool, phase: MoonPhase, yama: int)
    requires 0 <= dayIndex < 7 && yama >= 1
    requires forall j :: 0 <= j < |order| ==> !RulesAt(order[j], dayIndex, isNight, phase, yama)
    ensures FirstRulerIndex(order, dayIndex, isNight, phase, yama) == |order|
  {
  }

  /** The scan of getRulingBirdForYama: the birds are tried in canonical order
      and the first one found in Rule is returned; Vulture if none is. */
  method RulingBirdForYama(dayIndex: int, isNight: bool, phase: MoonPhase, yama: int) returns (r: Bird)
    requires 0 <= dayIndex < 7 && yama >= 1
    ensures r == RulingBird(dayIndex, isNight, phase, yama)
  {
    for i := 0 to |BirdsOrder|
      invariant forall j :: 0 <= j < i ==> !RulesAt(BirdsOrder[j], dayIndex, isNight, phase, yama)
    {
      var bird := BirdsOrder[i];
      var startAct := StartActivity(bird, dayIndex, isNight, phase);
      var act := ActivityForYama(startAct, yama, phase);
      if act == Rule {
        FirstRulerAt(BirdsOrder, dayIndex, isNight, phase, yama, i);
        return bird;
      }
    }
    NoRulerIndex(BirdsOrder, dayIndex, isNight, phase, yama);
    r := Vulture;
  }

  // ----- Facts about the starting tables -----

  /** The tables whose weekday columns are permutations of the five
      activities: both waxing tables and the waning day table. */
  predicate ProperTable(isNight: bool, phase: MoonPhase) {
    !(phase == Waning && isNight)
  }

  /** The starting activities of the five birds, in canonical order, on one weekday. */
  function Column(dayIndex: int, isNight: bool, phase: MoonPhase): (c: seq<Activity>)
    requires 0 <= dayIndex < 7
    ensures |c| == 5
  {
    [StartSequence(Vulture, isNight, phase)[dayIndex], StartSequence(Owl, isNight, phase)[dayIndex],
     StartSequence(Crow, isNight, phase)[dayIndex], StartSequence(Cock, isNight, phase)[dayIndex],
     StartSequence(Peacock, isNight, phase)[dayIndex]]
  }

  /** Five pairwise different activities, which is then every activity once. */
  predicate IsPermutationColumn(c: seq<Activity>) {
    |c| == 5
    && c[0] != c[1] && c[0] != c[2] && c[0] != c[3] && c[0] != c[4]
    && c[1] != c[2] && c[1] != c[3] && c[1] != c[4]
    && c[2] != c[3] && c[2] != c[4]
    && c[3] != c[4]
    && Rule in c && Eat in c && Walk in c && Sleep in c && Die in c
  }

  lemma WaxingDayColumns(dayIndex: int)
    requires 0 <= dayIndex < 7
    ensures IsPermutationColumn(Column(dayIndex, false, Waxing))
  {
    if dayIndex == 0 { assert Column(0, false, Waxing) == [Eat, Walk, Rule, Sleep, Die]; }
    else if dayIndex == 1 { assert Column(1, false, Waxing) == [Die, Eat, Walk, Rule, Sleep]; }
    else if dayIndex == 2 { assert Column(2, false, Waxing) == [Eat, Walk, Rule, Sleep, Die]; }
    else if dayIndex == 3 { assert Column(3, false, Waxing) == [Die, Eat, Walk, Rule, Sleep]; }
    else if dayIndex == 4 { assert Column(4, false, Waxing) == [Sleep, Die, Eat, Walk, Rule]; }
    else if dayIndex == 5 { assert Column(5, false, Waxing) == [Rule, Sleep, Die, Eat, Walk]; }
    else { assert Column(6, false, Waxing) == [Walk, Rule, Sleep, Die, Eat]; }
  }

  lemma WaxingNightColumns(dayIndex: int)
    requires 0 <= dayIndex < 7
    ensures IsPermutationColumn(Column(dayIndex, true, Waxing))
  {
    if dayIndex == 0 { assert Column(0, true, Waxing) == [Die, Rule, Eat, Sleep, Walk]; }
    else if dayIndex == 1 { assert Column(1, true, Waxing) == [Walk, Die, Rule, Eat, Sleep]; }
    else if dayIndex == 2 { assert Column(2, true, Waxing) == [Die, Rule, Eat, Sleep, Walk]; }
    else if dayIndex == 3 { assert Column(3, true, Waxing) == [Walk, Die, Rule, Eat, Sleep]; }
    else if dayIndex == 4 { assert Column(4, true, Waxing) == [Sleep, Walk, Die, Rule, Eat]; }
    else if dayIndex == 5 { assert Column(5, true, Waxing) == [Eat, Sleep, Walk, Die, Rule]; }
    else { assert Column(6, true, Waxing) == [Rule, Eat, Sleep, Walk, Die]; }
  }

  lemma WaningDayColumns(dayIndex: int)
    requires 0 <= dayIndex < 7
    ensures IsPermutationColumn(Column(dayIndex, false, Waning))
  {
    if dayIndex == 0 { assert Column(0, false, Waning) == [Walk, Die, Rule, Eat, Sleep]; }
    else if dayIndex == 1 { assert Column(1, false, Waning) == [Sleep, Walk, Die, Rule, Eat]; }
    else if dayIndex == 2 { assert Column(2, false, Waning) == [Walk, Die, Rule, Eat, Sleep]; }
    else if dayIndex == 3 { assert Column(3, false, Waning) == [Die, Rule, Eat, Sleep, Walk]; }
    else if dayIndex == 4 { assert Column(4, false, Waning) == [Rule, Eat, Walk, Die, Sleep]; }
    else if dayIndex == 5 { assert Column(5, false, Waning) == [Eat, Die, Sleep, Walk, Rule]; }
    else { assert Column(6, false, Waning) == [Sleep, Walk, Die, Rule, Eat]; }
  }

  /** In a proper table every weekday column is a permutation of the five activities. */
  lemma ColumnIsPermutation(dayIndex: int, isNight: bool, phase: MoonPhase)
    requires 0 <= dayIndex < 7 && ProperTable(isNight, phase)
    ensures IsPermutationColumn(Column(dayIndex, isNight, phase))
  {
    if phase == Waxing && !isNight {
      WaxingDayColumns(dayIndex);
    } else if phase == Waxing {
      WaxingNightColumns(dayIndex);
    } else {
      WaningDayColumns(dayIndex);
    }
  }

  /** A bird's starting activity is its entry, by rank, in the weekday's
      column of the starting table. */
  lemma ColumnAt(dayIndex: int, isNight: bool, phase: MoonPhase, b: Bird)
    requires 0 <= dayIndex < 7
    ensures StartActivity(b, dayIndex, isNight, phase) == Column(dayIndex, isNight, phase)[Rank(b)]
  {
  }

  /** The i-th column entry is the starting activity of the i-th bird. */
  lemma ColumnAtIndex(dayIndex: int, isNight: bool, phase: MoonPhase, i: int)
    requires 0 <= dayIndex < 7 && 0 <= i < 5
    ensures Column(dayIndex, isNight, phase)[i] == StartActivity(BirdsOrder[i], dayIndex, isNight, phase)
  {
  }

  /** In a proper table some bird rules in every yama. */
  lemma SomeRuler(dayIndex: int, isNight: bool, phase: MoonPhase, yama: int) returns (w: Bird)
    requires 0 <= dayIndex < 7 && yama >= 1 && ProperTable(isNight, phase)
    ensures RulesAt(w, dayIndex, isNight, phase, yama)
  {
    var c := Column(dayIndex, isNight, phase);
    ColumnIsPermutation(dayIndex, isNight, phase);
    RotationReachesRule(yama, phase);
    var s := Cycle(phase)[(5 - (yama - 1) % 5) % 5];
    assert s in c;
    var i := IndexOf(c, s);
    w := BirdsOrder[i];
    ColumnAtIndex(dayIndex, isNight, phase, i);
  }

  /** In a proper table no two birds rule in the same yama. */
  lemma AtMostOneRuler(dayIndex: int, isNight: bool, phase: MoonPhase, yama: int, b1: Bird, b2: Bird)
    requires 0 <= dayIndex < 7 && yama >= 1 && ProperTable(isNight, phase)
    requires RulesAt(b1, dayIndex, isNight, phase, yama) && RulesAt(b2, dayIndex, isNight, phase, yama)
    ensures b1 == b2
  {
    RotationInjective(StartActivity(b1, dayIndex, isNight, phase),
                      StartActivity(b2, dayIndex, isNight, phase), yama, phase);
    ColumnIsPermutation(dayIndex, isNight, phase);
    ColumnAt(dayIndex, isNight, phase, b1);
    ColumnAt(dayIndex, isNight, phase, b2);
  }

  /** In a proper table exactly one bird rules in every yama, and it is the
      ruling bird. */
  lemma ExactlyOneRuler(dayIndex: int, isNight: bool, phase: MoonPhase, yama: int)
    requires 0 <= dayIndex < 7 && yama >= 1 && ProperTable(isNight, phase)
    ensures forall b: Bird :: RulesAt(b, dayIndex, isNight, phase, yama)
              <==> b == RulingBird(dayIndex, isNight, phase, yama)
  {
    var w := SomeRuler(dayIndex, isNight, phase, yama);
    RulingBirdIsFirstRuler(dayIndex, isNight, phase, yama);
    var r := RulingBird(dayIndex, isNight, phase, yama);
    assert RulesAt(r, dayIndex, isNight, phase, yama);
    forall b: Bird | RulesAt(b, dayIndex, isNight, phase, yama)
      ensures b == r
    {
      AtMostOneRuler(dayIndex, isNight, phase, yama, b, r);
    }
  }

  /** In the waning night table Vulture and Owl share one row, so they are
      always in the same activity and rule together. */
  lemma WaningNightVultureOwlAgree(dayIndex: int, yama: int)
    requires 0 <= dayIndex < 7 && yama >= 1
    ensures StartActivity(Vulture, dayIndex, true, Waning) == StartActivity(Owl, dayIndex, true, Waning)
    ensures RulesAt(Vulture, dayIndex, true, Waning, yama) <==> RulesAt(Owl, dayIndex, true, Waning, yama)
  {
  }

  /** On a waning Sunday night Vulture and Owl both rule in the fourth yama;
      Vulture, first in canonical order, is reported. */
  lemma WaningSundayNightTwoRulers()
    ensures RulesAt(Vulture, 0, true, Waning, 4) && RulesAt(Owl, 0, true, Waning, 4)
    ensures RulingBird(0, true, Waning, 4) == Vulture
  {
    assert StartActivity(Vulture, 0, true, Waning) == Eat;
    assert StartActivity(Owl, 0, true, Waning) == Eat;
    assert CycleIndex(Waning, Eat) == 2;
    assert RulesAt(BirdsOrder[0], 0, true, Waning, 4);
    assert FirstRulerIndex(BirdsOrder, 0, true, Waning, 4) == 0;
  }

  /** On a waning Sunday night no bird rules in the fifth yama, and the scan
      falls back to Vulture. */
  lemma WaningSundayNightNoRuler()
    ensures forall b: Bird :: !RulesAt(b, 0, true, Waning, 5)
    ensures RulingBird(0, true, Waning, 5) == Vulture
  {
    forall b: Bird ensures !RulesAt(b, 0, true, Waning, 5) {
      assert StartActivity(b, 0, true, Waning) != Walk;
    }
    RulingBirdIsFirstRuler(0, true, Waning, 5);
  }
}

/** The constant tables of the Pancha Pakshi engine (utils/panchaPakshi.ts)
    and the array search the engine performs on them. */
module Tables {
  import opened Types

  /** `Array.prototype.indexOf`: the first position of `x` in `s`, or -1. */
  function IndexOf<T(==)>(s: seq<T>, x: T): (r: int)
    ensures -1 <= r < |s|
    ensures r == -1 <==> x !in s
    ensures 0 <= r ==> s[r] == x && x !in s[..r]
    decreases |s|
  {
    if |s| == 0 then -1
    else if s[0] == x then 0
    else
      var k := IndexOf(s[1..], x);
      if k < 0 then -1
      else
        assert s[..k + 1] == [s[0]] + s[1..][..k];
        k + 1
  }

  /** The 27 stars, in their traditional order. */
  const Nakshatras: seq<string> := [
    "Aswini", "Bharani", "Krithigai", "Rohini", "Mrigashirsham",
    "Thiruvathirai", "Punarpoosam", "Poosam", "Ayilyam", "Magam", "Pooram",
    "Uthiram", "Hastham", "Chithirai", "Swathi", "Visakam",
    "Anusham", "Kettai", "Moolam", "Pooradam", "Uthiradam",
    "Thiruvonam", "Avittam", "Sathayam", "Poorattathi", "Uthirattathi", "Revathi"
  ]

  /** The canonical bird order, used for scanning and for breaking ties. */
  const BirdsOrder: seq<Bird> := [Vulture, Owl, Crow, Cock, Peacock]

  /** The position of a bird in `BirdsOrder`. */
  function Rank(b: Bird): (k: nat)
    ensures k < |BirdsOrder| && BirdsOrder[k] == b
  {
    match b
    case Vulture => 0
    case Owl => 1
    case Crow => 2
    case Cock => 3
    case Peacock => 4
  }

  /** The base power of an activity. */
  function ActivityPower(a: Activity): (p: int)
    ensures 0 <= p <= 100
    ensures p == 100 <==> a == Rule
  {
    match a
    case Rule => 100
    case Eat => 80
    case Walk => 50
    case Sleep => 25
    case Die => 0
  }

  /** Waxing cycle: Rule -> Sleep -> Die -> Eat -> Walk. */
  const CycleShukla: seq<Activity> := [Rule, Sleep, Die, Eat, Walk]

  /** Waning cycle: Rule -> Walk -> Eat -> Die -> Sleep. */
  const CycleKrishna: seq<Activity> := [Rule, Walk, Eat, Die, Sleep]

  /** The cycle the activities follow in `phase`: five steps from Rule,
      through every activity once. */
  function Cycle(phase: MoonPhase): (c: seq<Activity>)
    ensures |c| == 5 && c[0] == Rule
    ensures Rule in c && Sleep in c && Die in c && Eat in c && Walk in c
  {
    if phase == Waxing then CycleShukla else CycleKrishna
  }

  /** The position of an activity in the cycle of `phase`. */
  function CycleIndex(phase: MoonPhase, a: Activity): (k: int)
    ensures 0 <= k < |Cycle(phase)| && Cycle(phase)[k] == a
  {
    if phase == Waxing then
      match a case Rule => 0 case Sleep => 1 case Die => 2 case Eat => 3 case Walk => 4
    else
      match a case Rule => 0 case Walk => 1 case Eat => 2 case Die => 3 case Sleep => 4
  }

  /** The friends listed for `bird` in the relationship table of `phase`. */
  function Friends(phase: MoonPhase, bird: Bird): (fs: seq<Bird>)
    ensures |fs| == 2 && fs[0] != fs[1] && bird !in fs
  {
    match phase
    case Waxing =>
      (match bird
       case Vulture => [Peacock, Owl]
       case Owl => [Vulture, Crow]
       case Crow => [Cock, Owl]
       case Cock => [Crow, Peacock]
       case Peacock => [Vulture, Cock])
    case Waning =>
      (match bird
       case Vulture => [Peacock, Crow]
       case Owl => [Crow, Cock]
       case Crow => [Vulture, Owl]
       case Cock => [Peacock, Owl]
       case Peacock => [Vulture, Cock])
  }

  /** The enemies listed for `bird` in the relationship table of `phase`. */
  function Enemies(phase: MoonPhase, bird: Bird): (es: seq<Bird>)
    ensures |es| == 2 && es[0] != es[1] && bird !in es
    ensures es[0] !in Friends(phase, bird) && es[1] !in Friends(phase, bird)
  {
    match phase
    case Waxing =>
      (match bird
       case Vulture => [Crow, Cock]
       case Owl => [Cock, Peacock]
       case Crow => [Vulture, Peacock]
       case Cock => [Vulture, Owl]
       case Peacock => [Owl, Crow])
    case Waning =>
      (match bird
       case Vulture => [Owl, Cock]
       case Owl => [Vulture, Peacock]
       case Crow => [Peacock, Cock]
       case Cock => [Vulture, Crow]
       case Peacock => [Owl, Crow])
  }

  /** The starting activity of `bird` for Sunday .. Saturday. */
  function StartSequence(bird: Bird, isNight: bool, phase: MoonPhase): (s: seq<Activity>)
    ensures |s| == 7
  {
    match phase
    case Waxing =>
      if !isNight then
        (match bird
         case Vulture => [Eat, Die, Eat, Die, Sleep, Rule, Walk]
         case Owl => [Walk, Eat, Walk, Eat, Die, Sleep, Rule]
         case Crow => [Rule, Walk, Rule, Walk, Eat, Die, Sleep]
         case Cock => [Sleep, Rule, Sleep, Rule, Walk, Eat, Die]
         case Peacock => [Die, Sleep, Die, Sleep, Rule, Walk, Eat])
      else
        (match bird
         case Vulture => [Die, Walk, Die, Walk, Sleep, Eat, Rule]
         case Owl => [Rule, Die, Rule, Die, Walk, Sleep, Eat]
         case Crow => [Eat, Rule, Eat, Rule, Die, Walk, Sleep]
         case Cock => [Sleep, Eat, Sleep, Eat, Rule, Die, Walk]
         case Peacock => [Walk, Sleep, Walk, Sleep, Eat, Rule, Die])
    case Waning =>
      if !isNight then
        (match bird
         case Vulture => [Walk, Sleep, Walk, Die, Rule, Eat, Sleep]
         case Owl => [Die, Walk, Die, Rule, Eat, Die, Walk]
         case Crow => [Rule, Die, Rule, Eat, Walk, Sleep, Die]
         case Cock => [Eat, Rule, Eat, Sleep, Die, Walk, Rule]
         case Peacock => [Sleep, Eat, Sleep, Walk, Sleep, Rule, Eat])
      else
        (match bird
         case Vulture => [Eat, Walk, Eat, Walk, Sleep, Die, Rule]
         case Owl => [Eat, Walk, Eat, Walk, Sleep, Die, Rule]  // same row as Vulture, as in getStartSequence
         case Crow => [Rule, Sleep, Rule, Sleep, Eat, Walk, Sleep]
         case Cock => [Sleep, Eat, Sleep, Eat, Rule, Die, Walk]
         case Peacock => [Die, Rule, Die, Rule, Walk, Sleep, Eat])
  }

  // ----- Facts about the tables -----

  /** Base power is strictly ordered Rule > Eat > Walk > Sleep > Die. */
  lemma PowerStrictlyOrdered()
    ensures ActivityPower(Rule) > ActivityPower(Eat) > ActivityPower(Walk)
            > ActivityPower(Sleep) > ActivityPower(Die)
  {
  }

  /** The canonical order lists every bird exactly once: `indexOf` finds
      each bird at its rank. */
  lemma RankIsIndexOf(b: Bird)
    ensures IndexOf(BirdsOrder, b) == Rank(b)
  {
    IndexOfFirstOccurrence(BirdsOrder, b, Rank(b));
  }

  /** Each phase's cycle lists every activity exactly once. */
  lemma CycleIsPermutation(phase: MoonPhase)
    ensures |Cycle(phase)| == 5
    ensures forall i, j :: 0 <= i < j < 5 ==> Cycle(phase)[i] != Cycle(phase)[j]
  {
  }

  /** The activity at position `k` of a cycle has cycle position `k`. */
  lemma CycleIndexOfCycle(phase: MoonPhase, k: int)
    requires 0 <= k < 5
    ensures CycleIndex(phase, Cycle(phase)[k]) == k
  {
  }

  /** `cycle.indexOf(a)` is the explicit cycle position of `a`. */
  lemma CycleIndexIsIndexOf(phase: MoonPhase, a: Activity)
    ensures IndexOf(Cycle(phase), a) == CycleIndex(phase, a)
  {
    IndexOfFirstOccurrence(Cycle(phase), a, CycleIndex(phase, a));
  }

  /** The two cycles both start at Rule and run in opposite directions after it. */
  lemma CyclesAreReversed()
    ensures CycleShukla[0] == CycleKrishna[0] == Rule
    ensures forall k :: 1 <= k < 5 ==> CycleKrishna[k] == CycleShukla[5 - k]
  {
  }

  /** "Magam" is the tenth star: `indexOf` finds it at position 9. */
  lemma MagamIndex()
    ensures IndexOf(Nakshatras, "Magam") == 9
  {
    assert Nakshatras[9] == "Magam";
    assert "Magam" !in Nakshatras[..9] by {
      forall j | 0 <= j < 9 ensures Nakshatras[j] != "Magam" {
        assert |Nakshatras[j]| != 5;
      }
    }
    IndexOfFirstOccurrence(Nakshatras, "Magam", 9);
  }

  /** No star is named by the empty string. */
  lemma EmptyIsNotAStar()
    ensures "" !in Nakshatras
  {
    forall j | 0 <= j < |Nakshatras| ensures Nakshatras[j] != "" {
      assert |Nakshatras[j]| > 0;
    }
  }

  /** `indexOf` returns `k` when `x` is at `k` and nowhere before it. */
  lemma IndexOfFirstOccurrence<T>(s: seq<T>, x: T, k: int)
    requires 0 <= k < |s| && s[k] == x && x !in s[..k]
    ensures IndexOf(s, x) == k
  {
  }

  /** The relationship table of each phase is well formed: for every bird the
      friend and enemy lists are disjoint, omit the bird itself, together
      name all four other birds, and both relations are symmetric. */
  lemma RelationshipTableWellFormed(phase: MoonPhase, a: Bird, b: Bird)
    ensures a !in Friends(phase, a) && a !in Enemies(phase, a)
    ensures !(b in Friends(phase, a) && b in Enemies(phase, a))
    ensures a != b ==> b in Friends(phase, a) || b in Enemies(phase, a)
    ensures b in Friends(phase, a) <==> a in Friends(phase, b)
    ensures b in Enemies(phase, a) <==> a in Enemies(phase, b)
  {
  }
}

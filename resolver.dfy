/** Resolving a captain to a bird: by birth star when it is one of the 27
    known stars, otherwise by the first letter of the name
    (getBirdByStar, getBirdByName, getBird in utils/panchaPakshi.ts). */
module Resolver {
  import opened Types
  import opened Tables

  // ----- By star -----

  /** The five star groups, as lists of positions in `Nakshatras`. */
  const Group1: seq<int> := [0, 1, 2, 3, 4]             // Aswini .. Mrigashirsham
  const Group2: seq<int> := [5, 6, 7, 8, 9, 10]         // Thiruvathirai .. Pooram
  const Group3: seq<int> := [11, 12, 13, 14, 15]        // Uthiram .. Visakam
  const Group4: seq<int> := [16, 17, 18, 19, 20]        // Anusham .. Uthiradam
  const Group5: seq<int> := [21, 22, 23, 24, 25, 26]    // Thiruvonam .. Revathi

  /** The number (1 to 5) of the group holding `i`, or 0 when no group does. */
  function GroupOf(i: int): (g: int)
    ensures 0 <= g <= 5
    ensures g == 0 <==> !(0 <= i < 27)
  {
    if i in Group1 then 1
    else if i in Group2 then 2
    else if i in Group3 then 3
    else if i in Group4 then 4
    else if i in Group5 then 5
    else 0
  }

  /** The bird of a star position. Waxing assigns Vulture, Owl, Crow, Cock,
      Peacock to groups 1 to 5; waning assigns them to groups 5 to 1. A
      position outside every group gives Vulture. */
  function BirdByStar(starIndex: int, phase: MoonPhase): (b: Bird)
    ensures 0 <= starIndex < 27 && phase == Waxing ==> b == BirdsOrder[GroupOf(starIndex) - 1]
    ensures 0 <= starIndex < 27 && phase == Waning ==> b == BirdsOrder[5 - GroupOf(starIndex)]
    ensures !(0 <= starIndex < 27) ==> b == Vulture
  {
    if phase == Waxing then
      if starIndex in Group1 then Vulture
      else if starIndex in Group2 then Owl
      else if starIndex in Group3 then Crow
      else if starIndex in Group4 then Cock
      else if starIndex in Group5 then Peacock
      else Vulture
    else
      if starIndex in Group5 then Vulture
      else if starIndex in Group4 then Owl
      else if starIndex in Group3 then Crow
      else if starIndex in Group2 then Cock
      else if starIndex in Group1 then Peacock
      else Vulture
  }

  /** How many of the five groups hold `i`. */
  function GroupCount(i: int): nat {
    (if i in Group1 then 1 else 0) + (if i in Group2 then 1 else 0) +
    (if i in Group3 then 1 else 0) + (if i in Group4 then 1 else 0) +
    (if i in Group5 then 1 else 0)
  }

  /** The five groups, of sizes 5, 6, 5, 5 and 6, partition the positions 0 .. 26. */
  lemma StarGroupsPartition(i: int)
    ensures |Group1| == 5 && |Group2| == 6 && |Group3| == 5 && |Group4| == 5 && |Group5| == 6
    ensures GroupCount(i) == if 0 <= i < |Nakshatras| then 1 else 0
  {
    GroupRanges(i);
  }

  /** Each group is a run of consecutive positions. */
  lemma GroupRanges(i: int)
    ensures i in Group1 <==> 0 <= i < 5
    ensures i in Group2 <==> 5 <= i < 11
    ensures i in Group3 <==> 11 <= i < 16
    ensures i in Group4 <==> 16 <= i < 21
    ensures i in Group5 <==> 21 <= i < 27
  {
  }

  /** The waning assignment mirrors the waxing one: group g gets, when
      waning, the bird that group 6 - g gets when waxing. */
  lemma WaningMirrorsWaxing(i: int, j: int)
    requires 0 <= i < 27 && 0 <= j < 27
    requires GroupOf(j) == 6 - GroupOf(i)
    ensures BirdByStar(i, Waning) == BirdByStar(j, Waxing)
  {
  }

  /** The middle group is Crow in both phases, and no other group is. */
  lemma CrowIsFixed(i: int, phase: MoonPhase)
    requires 0 <= i < 27
    ensures BirdByStar(i, phase) == Crow <==> i in Group3
  {
  }

  /** Positions that are not in any group resolve to Vulture. */
  lemma StarOutsideGroupsIsVulture(i: int, phase: MoonPhase)
    requires !(0 <= i < 27)
    ensures BirdByStar(i, phase) == Vulture
  {
  }

  /** The second group is Owl when waxing and Cock when waning. */
  lemma SecondGroupBirds(i: int)
    requires i in Group2
    ensures BirdByStar(i, Waxing) == Owl && BirdByStar(i, Waning) == Cock
  {
  }

  // ----- By name -----

  /** The characters `String.prototype.trim` removes: ECMAScript white space
      and line terminators. */
  predicate IsJsWhitespace(c: char) {
    c == ' ' || c == '\t' || c == '\n' || c == '\r' || c == '\U{000B}' || c == '\U{000C}'
    || c == '\U{00A0}' || c == '\U{1680}' || ('\U{2000}' <= c <= '\U{200A}')
    || c == '\U{2028}' || c == '\U{2029}' || c == '\U{202F}' || c == '\U{205F}'
    || c == '\U{3000}' || c == '\U{FEFF}'
  }

  /** `s` without its leading white space. */
  function TrimStart(s: string): (r: string)
    ensures |r| <= |s| && r == s[|s| - |r|..]
    ensures forall i :: 0 <= i < |s| - |r| ==> IsJsWhitespace(s[i])
    ensures |r| > 0 ==> !IsJsWhitespace(r[0])
    decreases |s|
  {
    if |s| > 0 && IsJsWhitespace(s[0]) then TrimStart(s[1..]) else s
  }

  /** `s` without its trailing white space. */
  function TrimEnd(s: string): (r: string)
    ensures |r| <= |s| && r == s[..|r|]
    ensures forall i :: |r| <= i < |s| ==> IsJsWhitespace(s[i])
    ensures |r| > 0 ==> !IsJsWhitespace(r[|r| - 1])
    decreases |s|
  {
    if |s| > 0 && IsJsWhitespace(s[|s| - 1]) then TrimEnd(s[..|s| - 1]) else s
  }

  /** `String.prototype.trim`: neither end of the result is white space,
      and it is empty exactly when `s` is white space throughout. */
  function Trim(s: string): (r: string)
    ensures |r| <= |s|
    ensures |r| > 0 ==> !IsJsWhitespace(r[0]) && !IsJsWhitespace(r[|r| - 1])
    ensures r == [] <==> forall i :: 0 <= i < |s| ==> IsJsWhitespace(s[i])
  {
    var t := TrimStart(s);
    assert |t| > 0 ==> t[0] == s[|s| - |t|];
    TrimEnd(t)
  }

  /** The first UTF-16 unit of `c.toLowerCase()`, exact whenever that unit is
      an ASCII letter: A-Z map to a-z, U+0130 (capital I with dot) lowers to
      "i" followed by a combining dot, U+212A (Kelvin sign) lowers to "k".
      Every other character is kept; its lower-case form is never an ASCII
      letter, so the letter class below is the same either way. */
  function LowerFirstUnit(c: char): (l: char)
    ensures !('A' <= l <= 'Z')
    ensures 'a' <= c <= 'z' ==> l == c
    ensures 'A' <= c <= 'Z' ==> 'a' <= l <= 'z' && l as int - c as int == 'a' as int - 'A' as int
  {
    if 'A' <= c <= 'Z' then (c as int + 32) as char
    else if c == '\U{0130}' then 'i'
    else if c == '\U{212A}' then 'k'
    else c
  }

  /** `name.trim().toLowerCase()[0]`, with None for `undefined`. */
  function FirstLetter(name: string): (c: Option<char>)
    ensures c == None <==> forall i :: 0 <= i < |name| ==> IsJsWhitespace(name[i])
    ensures c.Some? ==> !('A' <= c.value <= 'Z')
  {
    var t := Trim(name);
    if |t| == 0 then None else Some(LowerFirstUnit(t[0]))
  }

  /** The five letter classes of name initials, and the rest. */
  datatype LetterClass = ClassA | ClassI | ClassU | ClassE | ClassO | Unclassified

  /** The class of a lower-cased initial: a | i l r | u k | e m t | o n p s. */
  function ClassOf(c: Option<char>): (k: LetterClass)
    ensures k != Unclassified <==> c.Some? && c.value in "ailrukemtonps"
    ensures k == ClassA <==> c == Some('a')
  {
    match c
    case None => Unclassified
    case Some(ch) =>
      if ch == 'a' then ClassA
      else if ch in ['i', 'l', 'r'] then ClassI
      else if ch in ['u', 'k'] then ClassU
      else if ch in ['e', 'm', 't'] then ClassE
      else if ch in ['o', 'n', 'p', 's'] then ClassO
      else Unclassified
  }

  /** The bird of a letter class. The O class and unclassified initials share
      the last bird of each branch. */
  function BirdOfClass(k: LetterClass, phase: MoonPhase): (b: Bird)
    ensures k == ClassO || k == Unclassified ==> b == (if phase == Waxing then Peacock else Crow)
  {
    if phase == Waxing then
      if k == ClassA then Vulture
      else if k == ClassI then Owl
      else if k == ClassU then Crow
      else if k == ClassE then Cock
      else Peacock
    else
      if k == ClassA then Cock
      else if k == ClassI then Vulture
      else if k == ClassU then Owl
      else if k == ClassE then Peacock
      else Crow
  }

  /** The bird of a captain's name; an empty name gives Vulture. */
  function BirdByName(name: string, phase: MoonPhase): (b: Bird)
    ensures name == "" ==> b == Vulture
  {
    if name == "" then Vulture
    else BirdOfClass(ClassOf(FirstLetter(name)), phase)
  }

  /** In each phase the five letter classes go to five different birds. */
  lemma ClassTableIsPermutation(phase: MoonPhase, j: LetterClass, k: LetterClass)
    requires j != Unclassified && k != Unclassified
    ensures BirdOfClass(j, phase) == BirdOfClass(k, phase) ==> j == k
  {
  }

  /** A non-empty name of white space alone has no initial (`undefined`),
      matches no class and so falls through to Peacock (waxing) or Crow (waning). */
  lemma WhitespaceNameFallsThrough(name: string, phase: MoonPhase)
    requires name != ""
    requires forall i :: 0 <= i < |name| ==> IsJsWhitespace(name[i])
    ensures FirstLetter(name) == None
    ensures BirdByName(name, phase) == if phase == Waxing then Peacock else Crow
  {
  }

  /** A name that starts with a non-space character has that character,
      lower-cased, as its initial. */
  lemma FirstLetterOfWord(s: string)
    requires |s| > 0 && !IsJsWhitespace(s[0])
    ensures FirstLetter(s) == Some(LowerFirstUnit(s[0]))
  {
    var t := Trim(s);
    assert TrimStart(s) == s;
    assert t == s[..|t|];
  }

  /** `trim` cuts the name down to the part between its leading and its
      trailing white space. */
  lemma TrimIsSlice(s: string)
    ensures exists i, j :: 0 <= i <= j <= |s| && Trim(s) == s[i..j]
              && (forall k :: 0 <= k < i ==> IsJsWhitespace(s[k]))
              && (forall k :: j <= k < |s| ==> IsJsWhitespace(s[k]))
  {
    var t := TrimStart(s);
    var r := TrimEnd(t);
    var i := |s| - |t|;
    assert t == s[i..];
    assert r == t[..|r|];
    assert r == s[i..i + |r|];
    assert forall k :: i + |r| <= k < |s| ==> s[k] == t[k - i];
  }

  /** The initial is the lower-cased first character that is not white space. */
  lemma FirstLetterIsFirstNonSpace(name: string, i: int)
    requires 0 <= i < |name| && !IsJsWhitespace(name[i])
    requires forall k :: 0 <= k < i ==> IsJsWhitespace(name[k])
    ensures FirstLetter(name) == Some(LowerFirstUnit(name[i]))
  {
    var t := TrimStart(name);
    var p := |name| - |t|;
    assert t == name[p..];
    assert p <= i;
    assert t[0] == name[p];
    assert p == i;
    var r := TrimEnd(t);
    assert !IsJsWhitespace(t[0]);
    assert r[0] == t[0];
  }

  /** Leading white space does not change the bird of a name. */
  lemma {:induction false} LeadingWhitespaceIgnored(c: char, name: string, phase: MoonPhase)
    requires IsJsWhitespace(c) && name != ""
    ensures BirdByName([c] + name, phase) == BirdByName(name, phase)
  {
    assert ([c] + name)[1..] == name;
  }

  /** Upper- and lower-case ASCII initials give the same bird. */
  lemma InitialCaseIgnored(c: char, rest: string, phase: MoonPhase)
    requires 'A' <= c <= 'Z'
    ensures BirdByName([c] + rest, phase) == BirdByName([(c as int + 32) as char] + rest, phase)
  {
    var lower := (c as int + 32) as char;
    FirstLetterOfWord([c] + rest);
    FirstLetterOfWord([lower] + rest);
  }

  // ----- A captain's bird -----

  /** The star is used exactly when it is one of the 27 known star names
      (an empty star is not one); otherwise the name decides. */
  function GetBird(details: PlayerDetails, phase: MoonPhase): (b: Bird)
    ensures details.star in Nakshatras ==>
              b == BirdByStar(IndexOf(Nakshatras, details.star), phase)
    ensures details.star !in Nakshatras ==> b == BirdByName(details.name, phase)
  {
    if details.star != "" then
      var starIndex := IndexOf(Nakshatras, details.star);
      if starIndex >= 0 then BirdByStar(starIndex, phase)
      else BirdByName(details.name, phase)
    else
      EmptyIsNotAStar();
      BirdByName(details.name, phase)
  }

  /** A captain born under Magam (position 9, the second group) is Owl when
      waxing and Cock when waning, whatever the name. */
  lemma MagamCaptain(name: string, dob: string)
    ensures GetBird(PlayerDetails(name, dob, "Magam"), Waxing) == Owl
    ensures GetBird(PlayerDetails(name, dob, "Magam"), Waning) == Cock
  {
    var d := PlayerDetails(name, dob, "Magam");
    MagamIndex();
    assert Nakshatras[9] == d.star;
    SecondGroupBirds(9);
    assert GetBird(d, Waxing) == BirdByStar(9, Waxing);
    assert GetBird(d, Waning) == BirdByStar(9, Waning);
  }
}

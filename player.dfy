/** Age categories of players (models/player.py). */
module Players {
  import opened Common

  /** The seven categories, in declaration order. */
  datatype AgeCategory =
    | JuvenileA      // 6-12
    | JuvenileB      // 13-17
    | YoungAdultA    // 18-29
    | YoungAdultB    // 30-39
    | MiddleAgedA    // 40-49
    | MiddleAgedB    // 50-59
    | OldAdult       // 60+, and every age outside 6..59

  /** Position of a category in the enumeration's declaration order. */
  function Index(c: AgeCategory): nat {
    match c
    case JuvenileA => 0
    case JuvenileB => 1
    case YoungAdultA => 2
    case YoungAdultB => 3
    case MiddleAgedA => 4
    case MiddleAgedB => 5
    case OldAdult => 6
  }

  /** Reference bounds of the six closed brackets, independent of FromAge's if-chain. */
  function LowerAge(c: AgeCategory): int {
    match c
    case JuvenileA => 6
    case JuvenileB => 13
    case YoungAdultA => 18
    case YoungAdultB => 30
    case MiddleAgedA => 40
    case MiddleAgedB => 50
    case OldAdult => 60
  }

  function UpperAge(c: AgeCategory): int
    requires c != OldAdult
  {
    match c
    case JuvenileA => 12
    case JuvenileB => 17
    case YoungAdultA => 29
    case YoungAdultB => 39
    case MiddleAgedA => 49
    case MiddleAgedB => 59
  }

  /** AgeCategory.from_age: a chain of range tests falling through to OldAdult. */
  function FromAge(age: int): (c: AgeCategory)
    ensures c == OldAdult <==> age < 6 || age > 59
    ensures c != OldAdult ==> LowerAge(c) <= age <= UpperAge(c)
  {
    if 6 <= age <= 12 then JuvenileA
    else if 13 <= age <= 17 then JuvenileB
    else if 18 <= age <= 29 then YoungAdultA
    else if 30 <= age <= 39 then YoungAdultB
    else if 40 <= age <= 49 then MiddleAgedA
    else if 50 <= age <= 59 then MiddleAgedB
    else OldAdult
  }

  /** The brackets are disjoint and each one is hit exactly by its own ages. */
  lemma FromAgeExact(age: int, c: AgeCategory)
    requires c != OldAdult
    ensures FromAge(age) == c <==> LowerAge(c) <= age <= UpperAge(c)
  {
  }

  /** The closed brackets tile 6..59 with no gap: each starts right after its predecessor ends. */
  lemma BracketsContiguous(c: AgeCategory)
    requires c != OldAdult
    ensures UpperAge(c) + 1 == LowerAge(Successor(c))
  {
  }

  function Successor(c: AgeCategory): AgeCategory
    requires c != OldAdult
  {
    match c
    case JuvenileA => JuvenileB
    case JuvenileB => YoungAdultA
    case YoungAdultA => YoungAdultB
    case YoungAdultB => MiddleAgedA
    case MiddleAgedA => MiddleAgedB
    case MiddleAgedB => OldAdult
  }

  /** From age 6 on, the category never moves backwards in declaration order. */
  lemma FromAgeMonotone(a: int, b: int)
    requires 6 <= a <= b
    ensures Index(FromAge(a)) <= Index(FromAge(b))
  {
  }

  /** A player record; only the fields `Player.create` computes are modelled. */
  datatype Player = Player(name: string, age: int, jerseyNumber: Option<int>,
                           ageCategory: AgeCategory, teamId: Option<int>)

  /** Player.create: the category is derived from the age, everything else is copied. */
  function Create(name: string, age: int, jerseyNumber: Option<int>, teamId: Option<int>): (p: Player)
    ensures p.name == name && p.age == age && p.jerseyNumber == jerseyNumber && p.teamId == teamId
    ensures p.ageCategory == FromAge(age)
    ensures age < 6 ==> p.ageCategory == OldAdult
  {
    Player(name, age, jerseyNumber, FromAge(age), teamId)
  }
}

/** Foul bookkeeping, validators and winner rules (engine/rules.py). */
module Rules {
  import opened Common
  import opened Fouls

  const MaxSubstitutions := 5
  const TeamSize := 15

  /** PenaltyResult; the human-readable message is not modelled. */
  datatype PenaltyResult = PenaltyResult(action: PenaltyAction, apDeduction: int,
                                         isDisqualification: bool, roundLoss: bool, boutLoss: bool)

  /** The flags of a PenaltyResult follow from its action. */
  function ResultOf(p: Penalty): (r: PenaltyResult)
    ensures r.action == p.action && r.apDeduction == p.apDeduction
    ensures r.isDisqualification <==> p.action == Disqualification
    ensures r.roundLoss <==> p.action == RoundLoss
    ensures r.boutLoss <==> p.action == BoutLoss
    ensures !(r.isDisqualification && r.roundLoss) && !(r.roundLoss && r.boutLoss) && !(r.isDisqualification && r.boutLoss)
  {
    PenaltyResult(p.action, p.apDeduction, p.action == Disqualification,
                  p.action == RoundLoss, p.action == BoutLoss)
  }

  /** Every foul type, each once: the keys an inner count dictionary can hold. */
  const AllFoulTypes: seq<FoulType> := [DelayOfGame, ExcessiveContact, IllegalFootThrust, Encroachment,
    IllegalSubstitution, ImproperPositioning, ReentryAfterElimination, UnsportsmanlikeConduct,
    IntentionalFoul, EquipmentTampering]

  lemma AllFoulTypesComplete(f: FoulType)
    ensures f in AllFoulTypes
  {
  }

  /** `counts.get(f, 0)` for an inner dictionary. */
  function CountIn(m: map<FoulType, int>, f: FoulType): int {
    if f in m then m[f] else 0
  }

  /** `sum(counts.values())`, written as a sum over the foul types in `fs`. */
  function SumCounts(m: map<FoulType, int>, fs: seq<FoulType>): int {
    if fs == [] then 0 else CountIn(m, fs[0]) + SumCounts(m, fs[1..])
  }

  /** Raising one foul type's count by one raises the sum by one, if that type is listed once. */
  lemma {:induction false} SumCountsIncrement(m: map<FoulType, int>, fs: seq<FoulType>, f: FoulType)
    requires forall i, j :: 0 <= i < j < |fs| ==> fs[i] != fs[j]
    ensures SumCounts(m[f := CountIn(m, f) + 1], fs) == SumCounts(m, fs) + (if f in fs then 1 else 0)
  {
    if fs != [] {
      SumCountsIncrement(m, fs[1..], f);
      assert f in fs[1..] ==> fs[0] != f;
      assert f in fs <==> fs[0] == f || f in fs[1..];
    }
  }

  /** A sum over an all-zero (empty) dictionary is zero. */
  lemma {:induction false} SumCountsEmpty(fs: seq<FoulType>)
    ensures SumCounts(map[], fs) == 0
  {
    if fs != [] { SumCountsEmpty(fs[1..]); }
  }

  lemma AllFoulTypesDistinct()
    ensures forall i, j :: 0 <= i < j < |AllFoulTypes| ==> AllFoulTypes[i] != AllFoulTypes[j]
  {
  }

  /** A player's count of one foul type in a `_foul_counts` dictionary. */
  function CountOf(counts: map<int, map<FoulType, int>>, playerId: int, foulType: FoulType): int {
    if playerId in counts then CountIn(counts[playerId], foulType) else 0
  }

  /** A player's total over every foul type. */
  function TotalOf(counts: map<int, map<FoulType, int>>, playerId: int): int {
    SumCounts(if playerId in counts then counts[playerId] else map[], AllFoulTypes)
  }

  /** The dictionary update of process_foul. */
  function Bump(counts: map<int, map<FoulType, int>>, playerId: int, foulType: FoulType): map<int, map<FoulType, int>> {
    var playerFouls := if playerId in counts then counts[playerId] else map[];
    counts[playerId := playerFouls[foulType := CountIn(playerFouls, foulType) + 1]]
  }

  /** Bump raises exactly one (player, foul type) count, and that player's total, by one. */
  lemma BumpEffect(counts: map<int, map<FoulType, int>>, playerId: int, foulType: FoulType)
    ensures CountOf(Bump(counts, playerId, foulType), playerId, foulType) == CountOf(counts, playerId, foulType) + 1
    ensures forall p, f :: (p != playerId || f != foulType) ==>
      CountOf(Bump(counts, playerId, foulType), p, f) == CountOf(counts, p, f)
    ensures TotalOf(Bump(counts, playerId, foulType), playerId) == TotalOf(counts, playerId) + 1
    ensures forall p :: p != playerId ==> TotalOf(Bump(counts, playerId, foulType), p) == TotalOf(counts, p)
  {
    var playerFouls := if playerId in counts then counts[playerId] else map[];
    SumCountsIncrement(playerFouls, AllFoulTypes, foulType);
    AllFoulTypesDistinct();
    AllFoulTypesComplete(foulType);
  }

  class RulesEngine {
    /** `_foul_counts`: player id -> foul type -> number of occurrences this match. */
    var foulCounts: map<int, map<FoulType, int>>

    constructor ()
      ensures foulCounts == map[]
    {
      foulCounts := map[];
    }

    /** get_foul_count. */
    function GetFoulCount(playerId: int, foulType: FoulType): int
      reads this
    {
      CountOf(foulCounts, playerId, foulType)
    }

    /** get_total_fouls: the sum of the player's counts over every foul type. */
    function GetTotalFouls(playerId: int): int
      reads this
    {
      TotalOf(foulCounts, playerId)
    }

    /** reset: every count becomes 0. */
    method Reset()
      modifies this
      ensures foulCounts == map[]
      ensures forall p, f :: GetFoulCount(p, f) == 0
      ensures forall p :: GetTotalFouls(p) == 0
    {
      foulCounts := map[];
      forall p ensures GetTotalFouls(p) == 0 { SumCountsEmpty(AllFoulTypes); }
    }

    /** _get_penalty: the same escalation loop as FoulRecord.get_penalty. */
    method GetPenaltyFor(foulType: FoulType, occurrence: int) returns (p: Penalty)
      ensures p == PrescribedPenalty(FoulPenalties(foulType), occurrence)
    {
      p := FindPenalty(FoulPenalties(foulType), occurrence);
    }

    /**
     * process_foul: exactly one (player, foul type) count goes up by one, and the penalty is
     * the table's entry for the new occurrence number.
     */
    method ProcessFoul(playerId: int, foulType: FoulType) returns (r: PenaltyResult)
      modifies this
      ensures GetFoulCount(playerId, foulType) == old(GetFoulCount(playerId, foulType)) + 1
      ensures forall p, f :: (p != playerId || f != foulType) ==> GetFoulCount(p, f) == old(GetFoulCount(p, f))
      ensures GetTotalFouls(playerId) == old(GetTotalFouls(playerId)) + 1
      ensures forall p :: p != playerId ==> GetTotalFouls(p) == old(GetTotalFouls(p))
      ensures r == ResultOf(PrescribedPenalty(FoulPenalties(foulType), GetFoulCount(playerId, foulType)))
    {
      BumpEffect(foulCounts, playerId, foulType);
      var playerFouls := if playerId in foulCounts then foulCounts[playerId] else map[];
      var occurrence := CountIn(playerFouls, foulType) + 1;
      foulCounts := foulCounts[playerId := playerFouls[foulType := occurrence]];
      var penalty := GetPenaltyFor(foulType, occurrence);
      r := ResultOf(penalty);
    }
  }

  // ============ Validators ============

  /** validate_round_count: 15 in team mode, otherwise one of 5, 10, 15. */
  function ValidateRoundCount(rounds: int, isTeamMode: bool := false): (ok: bool)
    ensures isTeamMode ==> (ok <==> rounds == TeamSize)
    ensures !isTeamMode ==> (ok <==> rounds in {5, 10, 15})
  {
    if isTeamMode then rounds == 15 else rounds in {5, 10, 15}
  }

  /** Every round count valid in team mode is valid in 1v1 mode, and 1v1 admits exactly two more. */
  lemma TeamRoundsAreValid1v1Rounds(rounds: int)
    ensures ValidateRoundCount(rounds, true) ==> ValidateRoundCount(rounds, false)
    ensures ValidateRoundCount(rounds, false) && !ValidateRoundCount(rounds, true) <==> rounds == 5 || rounds == 10
  {
  }

  /** The failure reasons of validate_team_size (its message strings are not modelled). */
  datatype TeamSizeVerdict = TeamSizeOk | TooFewPlayers | TooManyPlayers

  /** validate_team_size: valid exactly for 1..15 players. */
  function ValidateTeamSize(playerCount: int): (v: TeamSizeVerdict)
    ensures v == TeamSizeOk <==> 1 <= playerCount <= TeamSize
    ensures v == TooFewPlayers <==> playerCount < 1
    ensures v == TooManyPlayers <==> playerCount > TeamSize
  {
    if playerCount < 1 then TooFewPlayers
    else if playerCount > TeamSize then TooManyPlayers
    else TeamSizeOk
  }

  /** can_substitute: another substitution is allowed while fewer than five were used. */
  function CanSubstitute(teamSubsUsed: int): (ok: bool)
    ensures ok <==> teamSubsUsed < MaxSubstitutions
  {
    teamSubsUsed < MaxSubstitutions
  }

  // ============ Winners ============

  datatype Side = Player1 | Player2

  function Other(s: Side): Side {
    if s == Player1 then Player2 else Player1
  }

  function SwapWinner(w: Option<Side>): Option<Side> {
    match w
    case None => None
    case Some(s) => Some(Other(s))
  }

  /** determine_round_winner: strictly more AP wins; equal AP is a tie (None). */
  function DetermineRoundWinner(p1Ap: int, p2Ap: int): (w: Option<Side>)
    ensures w == Some(Player1) <==> p1Ap > p2Ap
    ensures w == Some(Player2) <==> p2Ap > p1Ap
    ensures w == None <==> p1Ap == p2Ap
  {
    if p1Ap > p2Ap then Some(Player1)
    else if p2Ap > p1Ap then Some(Player2)
    else None
  }

  /** Reference order for the match rule: total AP first, rounds won second. */
  predicate LexGreater(a1: int, a2: int, b1: int, b2: int) {
    a1 > b1 || (a1 == b1 && a2 > b2)
  }

  /** determine_match_winner: compare AP, then rounds won; None only when both tie. */
  function DetermineMatchWinner(p1TotalAp: int, p2TotalAp: int, p1RoundsWon: int := 0, p2RoundsWon: int := 0): (w: Option<Side>)
    ensures w == Some(Player1) <==> LexGreater(p1TotalAp, p1RoundsWon, p2TotalAp, p2RoundsWon)
    ensures w == Some(Player2) <==> LexGreater(p2TotalAp, p2RoundsWon, p1TotalAp, p1RoundsWon)
    ensures w == None <==> p1TotalAp == p2TotalAp && p1RoundsWon == p2RoundsWon
  {
    if p1TotalAp > p2TotalAp then Some(Player1)
    else if p2TotalAp > p1TotalAp then Some(Player2)
    else if p1RoundsWon > p2RoundsWon then Some(Player1)
    else if p2RoundsWon > p1RoundsWon then Some(Player2)
    else None
  }

  /** Swapping the two players swaps the winner of a round. */
  lemma RoundWinnerAntisymmetric(a: int, b: int)
    ensures DetermineRoundWinner(b, a) == SwapWinner(DetermineRoundWinner(a, b))
  {
  }

  /** Swapping the two players swaps the winner of a match. */
  lemma MatchWinnerAntisymmetric(a: int, b: int, ra: int, rb: int)
    ensures DetermineMatchWinner(b, a, rb, ra) == SwapWinner(DetermineMatchWinner(a, b, ra, rb))
  {
  }

  /** Rounds won only matter on equal AP: otherwise the match goes the way the AP goes. */
  lemma MatchWinnerExtendsRoundWinner(a: int, b: int, ra: int, rb: int)
    requires a != b
    ensures DetermineMatchWinner(a, b, ra, rb) == DetermineRoundWinner(a, b)
  {
  }

  // ============ Team mode ============

  /**
   * calculate_elimination_bonus, keyed by the losing team's remaining players after the
   * elimination: 3 above three, 5/10/15/15 for 3/2/1/0, and the default 3 for negatives.
   */
  function CalculateEliminationBonus(remainingPlayers: int): (bonus: int)
    ensures remainingPlayers > 3 || remainingPlayers < 0 ==> bonus == 3
    ensures remainingPlayers == 3 ==> bonus == 5
    ensures remainingPlayers == 2 ==> bonus == 10
    ensures 0 <= remainingPlayers <= 1 ==> bonus == 15
  {
    if remainingPlayers > 3 then 3
    else if remainingPlayers == 3 then 5
    else if remainingPlayers == 2 then 10
    else if remainingPlayers == 1 || remainingPlayers == 0 then 15
    else 3
  }

  /** The bonus never decreases as the team shrinks from 15 towards 1 player. */
  lemma EliminationBonusGrowsAsTeamShrinks(a: int, b: int)
    requires 0 <= a <= b
    ensures CalculateEliminationBonus(a) >= CalculateEliminationBonus(b)
  {
  }

  /** is_team_eliminated. */
  function IsTeamEliminated(rosterSize: int): (out: bool)
    ensures out <==> rosterSize <= 0
  {
    rosterSize <= 0
  }
}

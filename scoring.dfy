/**
 * The match state machine of engine/scoring.py: bouts, undo, rounds, fouls, pause and
 * team-mode eliminations. `Engine` is the value of all of the engine's fields; the pure
 * transition functions below say what each operation does to it, and the class
 * `ScoringEngine` keeps the same fields separately and updates them in place.
 */
module Scoring {
  import opened Common
  import Rules

  datatype MatchState = Idle | Setup | MatchActive | RoundActive | BoutInProgress
                      | RoundComplete | Paused | Completed | Protested

  /** OPA and OSHI, the two calls that decide a bout. */
  datatype BoutResult = Opa | Oshi

  /** One entry of the undo stack (the wall-clock timestamp is not modelled). */
  datatype BoutRecord = BoutRecord(roundNumber: int, boutNumber: int, result: BoutResult,
                                   winnerId: int, loserId: int, timeRemainingMs: int)

  /** "player1", "player2" or "tie". */
  datatype Outcome = Player1 | Player2 | Tie

  const RoundDurationMs := 60000
  const TeamRoundWinBonus := 3

  /** The integer counters: total AP, Opa/Oshi wins per player, bouts and AP of this round. */
  datatype Score = Score(p1Ap: int, p2Ap: int, p1Opa: int, p1Oshi: int, p2Opa: int, p2Oshi: int,
                         boutCount: int, roundP1Ap: int, roundP2Ap: int)

  const ZeroScore := Score(0, 0, 0, 0, 0, 0, 0, 0, 0)

  /** The player identifiers and names of a 1v1 match. */
  datatype Players = Players(p1Id: Option<int>, p2Id: Option<int>, p1Name: string, p2Name: string)

  const NoPlayers := Players(None, None, "", "")

  /** Team-mode state: the game number, both rosters, both eliminated lists, substitutions used. */
  datatype TeamState = TeamState(currentGame: int, homeRoster: seq<int>, awayRoster: seq<int>,
                                 homeEliminated: seq<int>, awayEliminated: seq<int>,
                                 homeSubsUsed: int, awaySubsUsed: int)

  const NoTeams := TeamState(0, [], [], [], [], 0, 0)

  /** Every field of the engine, grouped as _reset_state groups them. */
  datatype Engine = Engine(
    totalRounds: int, state: MatchState, previousState: Option<MatchState>,
    players: Players, score: Score, currentRound: int, roundTimeRemainingMs: int,
    boutHistory: seq<BoutRecord>, team: TeamState, roundWinners: seq<Outcome>)

  // ---------------- winner comparison ----------------

  /** The strict AP comparison of end_round and _complete_match. */
  function Compare(p1: int, p2: int): (o: Outcome)
    ensures o == Player1 <==> p1 > p2
    ensures o == Player2 <==> p2 > p1
    ensures o == Tie <==> p1 == p2
  {
    if p1 > p2 then Player1 else if p2 > p1 then Player2 else Tie
  }

  function Mirror(o: Outcome): Outcome {
    match o
    case Player1 => Player2
    case Player2 => Player1
    case Tie => Tie
  }

  /** Swapping the players mirrors the outcome. */
  lemma CompareAntisymmetric(p1: int, p2: int)
    ensures Compare(p2, p1) == Mirror(Compare(p1, p2))
  {
  }

  /** The engine's comparison is the one of RulesEngine.determine_round_winner. */
  lemma CompareAgreesWithRules(p1: int, p2: int)
    ensures Compare(p1, p2) == Tie <==> Rules.DetermineRoundWinner(p1, p2).None?
    ensures Compare(p1, p2) == Player1 <==> Rules.DetermineRoundWinner(p1, p2) == Some(Rules.Player1)
    ensures Compare(p1, p2) == Player2 <==> Rules.DetermineRoundWinner(p1, p2) == Some(Rules.Player2)
  {
  }

  // ---------------- crediting a bout ----------------

  /** A bout is credited to player 1 exactly when its winner id is player 1's; any other id credits player 2. */
  predicate CreditsPlayer1(p1Id: Option<int>, winnerId: int) {
    p1Id == Some(winnerId)
  }

  /** The counter updates of record_bout. */
  function Credit(s: Score, r: BoutResult, toP1: bool): Score {
    if toP1 then
      (if r == Opa then s.(p1Opa := s.p1Opa + 1) else s.(p1Oshi := s.p1Oshi + 1))
        .(p1Ap := s.p1Ap + 1, roundP1Ap := s.roundP1Ap + 1, boutCount := s.boutCount + 1)
    else
      (if r == Opa then s.(p2Opa := s.p2Opa + 1) else s.(p2Oshi := s.p2Oshi + 1))
        .(p2Ap := s.p2Ap + 1, roundP2Ap := s.roundP2Ap + 1, boutCount := s.boutCount + 1)
  }

  /** The counter updates of undo_last_bout. */
  function Uncredit(s: Score, r: BoutResult, toP1: bool): Score {
    if toP1 then
      (if r == Opa then s.(p1Opa := s.p1Opa - 1) else s.(p1Oshi := s.p1Oshi - 1))
        .(p1Ap := s.p1Ap - 1, roundP1Ap := s.roundP1Ap - 1, boutCount := s.boutCount - 1)
    else
      (if r == Opa then s.(p2Opa := s.p2Opa - 1) else s.(p2Oshi := s.p2Oshi - 1))
        .(p2Ap := s.p2Ap - 1, roundP2Ap := s.roundP2Ap - 1, boutCount := s.boutCount - 1)
  }

  /** Uncredit undoes Credit and Credit undoes Uncredit. */
  lemma CreditInverse(s: Score, r: BoutResult, toP1: bool)
    ensures Uncredit(Credit(s, r, toP1), r, toP1) == s
    ensures Credit(Uncredit(s, r, toP1), r, toP1) == s
  {
  }

  /** The Opa/Oshi part of the counters. */
  datatype Tally = Tally(p1Opa: int, p1Oshi: int, p2Opa: int, p2Oshi: int)

  function TallyOf(s: Score): Tally {
    Tally(s.p1Opa, s.p1Oshi, s.p2Opa, s.p2Oshi)
  }

  /** The counters obtained by crediting every record of a history, oldest first, from zero. */
  function Replay(h: seq<BoutRecord>, p1Id: Option<int>): Score {
    if h == [] then ZeroScore
    else
      var last := h[|h| - 1];
      Credit(Replay(h[..|h| - 1], p1Id), last.result, CreditsPlayer1(p1Id, last.winnerId))
  }

  /** Counters that agree on their Opa/Oshi part still agree after the same credit or uncredit. */
  lemma TallyCongruence(s: Score, t: Score, r: BoutResult, toP1: bool)
    requires TallyOf(s) == TallyOf(t)
    ensures TallyOf(Credit(s, r, toP1)) == TallyOf(Credit(t, r, toP1))
    ensures TallyOf(Uncredit(s, r, toP1)) == TallyOf(Uncredit(t, r, toP1))
  {
  }

  /** AP conservation: each player's AP is that player's Opa plus Oshi wins. */
  predicate Conserved(s: Score) {
    s.p1Ap == s.p1Opa + s.p1Oshi && s.p2Ap == s.p2Opa + s.p2Oshi
  }

  /**
   * Over a history, player 1's Opa plus Oshi wins is the number of bouts credited to
   * player 1, and likewise for player 2.
   */
  lemma {:induction false} ReplayCounts(h: seq<BoutRecord>, p1Id: Option<int>)
    ensures Replay(h, p1Id).p1Opa + Replay(h, p1Id).p1Oshi ==
      CountWhere(h, (b: BoutRecord) => CreditsPlayer1(p1Id, b.winnerId))
    ensures Replay(h, p1Id).p2Opa + Replay(h, p1Id).p2Oshi ==
      CountWhere(h, (b: BoutRecord) => !CreditsPlayer1(p1Id, b.winnerId))
    ensures Conserved(Replay(h, p1Id))
  {
    if h != [] {
      ReplayCounts(h[..|h| - 1], p1Id);
    }
  }

  // ---------------- the engine invariant ----------------

  /**
   * What holds of every reachable engine: the bout count is this round's AP of both
   * players together, the Opa/Oshi counters are those of the undo stack, the saved
   * pre-pause state is ROUND_ACTIVE if any, and BOUT_IN_PROGRESS and PROTESTED are never entered.
   */
  ghost predicate Inv(e: Engine) {
    e.score.boutCount == e.score.roundP1Ap + e.score.roundP2Ap &&
    TallyOf(e.score) == TallyOf(Replay(e.boutHistory, e.players.p1Id)) &&
    (e.previousState.None? || e.previousState == Some(RoundActive)) &&
    e.state != BoutInProgress && e.state != Protested
  }

  // ---------------- the operations ----------------

  /** _reset_state: every counter, id, roster and history back to its default; the state is kept. */
  function ResetState(e: Engine): Engine {
    Engine(e.totalRounds, e.state, e.previousState, NoPlayers, ZeroScore, 0, RoundDurationMs, [], NoTeams, [])
  }

  /** A new engine (IDLE). */
  function Initial(totalRounds: int): Engine {
    ResetState(Engine(totalRounds, Idle, None, NoPlayers, ZeroScore, 0, 0, [], NoTeams, []))
  }

  function Setup1v1Step(e: Engine, player1Id: int, player1Name: string, player2Id: int, player2Name: string): Engine {
    ResetState(e).(players := Players(Some(player1Id), Some(player2Id), player1Name, player2Name), state := Setup)
  }

  function SetupTeamMatchStep(e: Engine, homeRoster: seq<int>, awayRoster: seq<int>): Engine {
    ResetState(e).(team := NoTeams.(homeRoster := homeRoster, awayRoster := awayRoster), state := Setup)
  }

  /** start_match; None stands for the RuntimeError outside SETUP. */
  function StartMatchStep(e: Engine): Option<Engine> {
    if e.state != Setup then None else Some(e.(state := MatchActive))
  }

  /** start_round; None stands for the RuntimeError. The undo stack is kept. */
  function StartRoundStep(e: Engine): Option<Engine> {
    if e.state != MatchActive && e.state != RoundComplete then None
    else Some(e.(currentRound := e.currentRound + 1,
                 score := e.score.(boutCount := 0, roundP1Ap := 0, roundP2Ap := 0),
                 roundTimeRemainingMs := RoundDurationMs, state := RoundActive))
  }

  /** The record that record_bout pushes. */
  function NewRecord(e: Engine, result: BoutResult, winnerId: int, loserId: int, timeRemainingMs: int): BoutRecord {
    BoutRecord(e.currentRound, e.score.boutCount + 1, result, winnerId, loserId, timeRemainingMs)
  }

  /** record_bout; None stands for the RuntimeError outside ROUND_ACTIVE. */
  function RecordBoutStep(e: Engine, result: BoutResult, winnerId: int, loserId: int, timeRemainingMs: int): Option<Engine> {
    if e.state != RoundActive then None
    else Some(e.(roundTimeRemainingMs := timeRemainingMs,
                 boutHistory := e.boutHistory + [NewRecord(e, result, winnerId, loserId, timeRemainingMs)],
                 score := Credit(e.score, result, CreditsPlayer1(e.players.p1Id, winnerId))))
  }

  /** undo_last_bout: the new engine and the popped record, if any. */
  function UndoLastBoutStep(e: Engine): (Engine, Option<BoutRecord>) {
    if e.boutHistory == [] || e.state != RoundActive then (e, None)
    else
      var b := e.boutHistory[|e.boutHistory| - 1];
      (e.(boutHistory := e.boutHistory[..|e.boutHistory| - 1],
          score := Uncredit(e.score, b.result, CreditsPlayer1(e.players.p1Id, b.winnerId))), Some(b))
  }

  /** _complete_match's state change. */
  function CompleteMatchStep(e: Engine): Engine {
    e.(state := Completed)
  }

  /** The winner and winner id that _complete_match announces. */
  function MatchWinner(e: Engine): (Outcome, Option<int>) {
    var w := Compare(e.score.p1Ap, e.score.p2Ap);
    (w, if w == Player1 then e.players.p1Id else if w == Player2 then e.players.p2Id else None)
  }

  /** end_round; None stands for the RuntimeError outside ROUND_ACTIVE. */
  function EndRoundStep(e: Engine): Option<(Engine, Outcome)> {
    if e.state != RoundActive then None
    else
      var w := Compare(e.score.roundP1Ap, e.score.roundP2Ap);
      var ended := e.(roundWinners := e.roundWinners + [w], state := RoundComplete);
      Some((if e.currentRound >= e.totalRounds then CompleteMatchStep(ended) else ended, w))
  }

  /** apply_foul_penalty (allowed in every state): a positive deduction, clamped at zero, for the matching player. */
  function ApplyFoulPenaltyStep(e: Engine, playerId: int, apDeduction: int): Engine {
    if apDeduction > 0 && e.players.p1Id == Some(playerId) then
      e.(score := e.score.(p1Ap := Max(0, e.score.p1Ap - apDeduction)))
    else if apDeduction > 0 && e.players.p2Id == Some(playerId) then
      e.(score := e.score.(p2Ap := Max(0, e.score.p2Ap - apDeduction)))
    else e
  }

  function PauseStep(e: Engine): Engine {
    if e.state == RoundActive then e.(previousState := Some(RoundActive), state := Paused) else e
  }

  /** resume: back to the saved state, ROUND_ACTIVE when none was saved. */
  function ResumeStep(e: Engine): Engine {
    if e.state == Paused then e.(state := e.previousState.GetOr(RoundActive)) else e
  }

  /** `list.index`: the position of the first occurrence of `x`. */
  function FirstIndex(s: seq<int>, x: int): (i: nat)
    requires x in s
    ensures i < |s| && s[i] == x && x !in s[..i]
  {
    if s[0] == x then 0
    else
      assert s == [s[0]] + s[1..];
      var j := FirstIndex(s[1..], x);
      assert s[..j + 1] == [s[0]] + s[1..][..j];
      j + 1
  }

  /** Python's list.remove: drop the first occurrence, scanning from the front. */
  function RemoveFirst(s: seq<int>, x: int): (r: seq<int>)
    requires x in s
    ensures |r| == |s| - 1
    ensures multiset(r) == multiset(s) - multiset{x}
    ensures r == s[..FirstIndex(s, x)] + s[FirstIndex(s, x) + 1..]
  {
    if s[0] == x then
      SplitHead(s);
      s[1..]
    else
      var t := RemoveFirst(s[1..], x);
      SplitHead(s);
      SkipSlot(s, FirstIndex(s[1..], x));
      [s[0]] + t
  }

  lemma SplitHead(s: seq<int>)
    requires |s| > 0
    ensures s == [s[0]] + s[1..] && s[..0] + s[1..] == s[1..]
  {
  }

  lemma SkipSlot(s: seq<int>, j: nat)
    requires j + 1 < |s|
    ensures s[..j + 1] + s[j + 2..] == [s[0]] + (s[1..][..j] + s[1..][j + 1..])
  {
    assert s[..j + 1] == [s[0]] + s[1..][..j];
    assert s[j + 2..] == s[1..][j + 1..];
  }

  /** list.remove takes out the first occurrence and keeps everything else in order. */
  lemma RemoveFirstAtFirstOccurrence(s: seq<int>, x: int)
    requires x in s
    ensures exists i :: 0 <= i < |s| && s[i] == x && x !in s[..i] && RemoveFirst(s, x) == s[..i] + s[i + 1..]
  {
    var i := FirstIndex(s, x);
    assert s[i] == x && x !in s[..i];
  }

  /**
   * The bonus of eliminate_player, keyed on the players left after the removal:
   * TEAM_ROUND_WIN_BONUS above three, else ENDGAME_BONUSES at 3 - remaining, defaulting to it.
   */
  function EngineBonus(remaining: int): int {
    if remaining > 3 then TeamRoundWinBonus
    else
      var order := 3 - remaining;
      if order == 1 then 5 else if order == 2 then 10 else if order == 3 then 15 else TeamRoundWinBonus
  }

  /** The engine's schedule, for the count left after removal, is the rules' schedule for one more player. */
  lemma EngineBonusIsRulesBonusShifted(remaining: int)
    requires remaining >= 0
    ensures EngineBonus(remaining) == Rules.CalculateEliminationBonus(remaining + 1)
  {
  }

  /** The two schedules disagree: three players left is worth 3 here and 5 in the rules. */
  lemma EngineBonusDiffersFromRules()
    ensures EngineBonus(3) == 3 && Rules.CalculateEliminationBonus(3) == 5
  {
  }

  /** One side's roster and eliminated list after eliminate_player. */
  function RemoveFromSide(roster: seq<int>, eliminated: seq<int>, playerId: int): (seq<int>, seq<int>) {
    if playerId in roster then (RemoveFirst(roster, playerId), eliminated + [playerId]) else (roster, eliminated)
  }

  /** eliminate_player: the new engine and the bonus, credited to the other side; anything but "home" is away. */
  function EliminatePlayerStep(e: Engine, playerId: int, fromTeam: string): (Engine, int) {
    if fromTeam == "home" then
      var (roster, out) := RemoveFromSide(e.team.homeRoster, e.team.homeEliminated, playerId);
      var bonus := EngineBonus(|roster|);
      (e.(team := e.team.(homeRoster := roster, homeEliminated := out), score := e.score.(p2Ap := e.score.p2Ap + bonus)), bonus)
    else
      var (roster, out) := RemoveFromSide(e.team.awayRoster, e.team.awayEliminated, playerId);
      var bonus := EngineBonus(|roster|);
      (e.(team := e.team.(awayRoster := roster, awayEliminated := out), score := e.score.(p1Ap := e.score.p1Ap + bonus)), bonus)
  }

  function CanStartRoundIn(e: Engine): bool {
    (e.state == MatchActive || e.state == RoundComplete) && e.currentRound < e.totalRounds
  }

  function CanRecordBoutIn(e: Engine): bool {
    e.state == RoundActive
  }

  // ---------------- properties of the operations ----------------

  /** A new engine, and every set-up engine, satisfies the invariant with AP conserved. */
  lemma SetupEstablishesInv(e: Engine, id1: int, n1: string, id2: int, n2: string, home: seq<int>, away: seq<int>, rounds: int)
    requires Inv(e)
    ensures Inv(Initial(rounds)) && Initial(rounds).state == Idle
    ensures Inv(Setup1v1Step(e, id1, n1, id2, n2)) && Conserved(Setup1v1Step(e, id1, n1, id2, n2).score)
    ensures Inv(SetupTeamMatchStep(e, home, away)) && Conserved(SetupTeamMatchStep(e, home, away).score)
    ensures Setup1v1Step(e, id1, n1, id2, n2).boutHistory == [] && Setup1v1Step(e, id1, n1, id2, n2).score == ZeroScore
  {
  }

  /**
   * record_bout refuses outside ROUND_ACTIVE. Otherwise it adds one bout, one Opa/Oshi
   * win and one AP (total and round) to the winner's side — player 1 exactly when the
   * winner id is player 1's — and pushes one record; nothing else but the time
   * remaining changes.
   */
  lemma RecordBoutEffect(e: Engine, r: BoutResult, w: int, l: int, t: int)
    ensures RecordBoutStep(e, r, w, l, t).Some? <==> e.state == RoundActive
    ensures RecordBoutStep(e, r, w, l, t).Some? ==>
      var e1 := RecordBoutStep(e, r, w, l, t).value;
      var toP1 := e.players.p1Id == Some(w);
      e1.score.boutCount == e.score.boutCount + 1 &&
      e1.boutHistory == e.boutHistory + [BoutRecord(e.currentRound, e.score.boutCount + 1, r, w, l, t)] &&
      e1.score.p1Ap == e.score.p1Ap + (if toP1 then 1 else 0) &&
      e1.score.p2Ap == e.score.p2Ap + (if toP1 then 0 else 1) &&
      e1.score.roundP1Ap == e.score.roundP1Ap + (if toP1 then 1 else 0) &&
      e1.score.roundP2Ap == e.score.roundP2Ap + (if toP1 then 0 else 1) &&
      e1.score.p1Opa + e1.score.p1Oshi + e1.score.p2Opa + e1.score.p2Oshi ==
        e.score.p1Opa + e.score.p1Oshi + e.score.p2Opa + e.score.p2Oshi + 1 &&
      (if r == Opa then e1.score.p1Oshi == e.score.p1Oshi && e1.score.p2Oshi == e.score.p2Oshi
       else e1.score.p1Opa == e.score.p1Opa && e1.score.p2Opa == e.score.p2Opa) &&
      e1 == e.(score := e1.score, boutHistory := e1.boutHistory, roundTimeRemainingMs := t)
  {
  }

  lemma RecordBoutPreservesInv(e: Engine, r: BoutResult, w: int, l: int, t: int)
    requires Inv(e) && RecordBoutStep(e, r, w, l, t).Some?
    ensures Inv(RecordBoutStep(e, r, w, l, t).value)
    ensures Conserved(e.score) ==> Conserved(RecordBoutStep(e, r, w, l, t).value.score)
  {
    var e1 := RecordBoutStep(e, r, w, l, t).value;
    var h := e1.boutHistory;
    assert h[..|h| - 1] == e.boutHistory;
    TallyCongruence(e.score, Replay(e.boutHistory, e.players.p1Id), r, CreditsPlayer1(e.players.p1Id, w));
  }

  lemma UndoPreservesInv(e: Engine)
    requires Inv(e)
    ensures Inv(UndoLastBoutStep(e).0)
    ensures Conserved(e.score) ==> Conserved(UndoLastBoutStep(e).0.score)
  {
    if e.boutHistory != [] && e.state == RoundActive {
      var h := e.boutHistory;
      var b := h[|h| - 1];
      var toP1 := CreditsPlayer1(e.players.p1Id, b.winnerId);
      var prev := Replay(h[..|h| - 1], e.players.p1Id);
      TallyCongruence(e.score, Credit(prev, b.result, toP1), b.result, toP1);
      CreditInverse(prev, b.result, toP1);
    }
  }

  /**
   * The undo law: record_bout followed by undo_last_bout gives back every counter, the
   * bout count and the undo stack, and returns the pushed record (only the time
   * remaining keeps the bout's value).
   */
  lemma UndoUndoesRecord(e: Engine, r: BoutResult, w: int, l: int, t: int)
    requires RecordBoutStep(e, r, w, l, t).Some?
    ensures UndoLastBoutStep(RecordBoutStep(e, r, w, l, t).value) ==
      (e.(roundTimeRemainingMs := t), Some(NewRecord(e, r, w, l, t)))
  {
    var e1 := RecordBoutStep(e, r, w, l, t).value;
    assert e1.boutHistory[..|e1.boutHistory| - 1] == e.boutHistory;
    CreditInverse(e.score, r, CreditsPlayer1(e.players.p1Id, w));
  }

  /** undo_last_bout returns None and changes nothing exactly when the stack is empty or the state is not ROUND_ACTIVE. */
  lemma UndoRefusal(e: Engine)
    ensures UndoLastBoutStep(e).1.None? <==> (e.boutHistory == [] || e.state != RoundActive)
    ensures UndoLastBoutStep(e).1.None? ==> UndoLastBoutStep(e).0 == e
    ensures UndoLastBoutStep(e).1.Some? ==>
      UndoLastBoutStep(e).1.value == e.boutHistory[|e.boutHistory| - 1] &&
      |UndoLastBoutStep(e).0.boutHistory| == |e.boutHistory| - 1 &&
      UndoLastBoutStep(e).0.score.boutCount == e.score.boutCount - 1
  {
  }

  /**
   * Since start_round keeps the undo stack, an undo at the start of a round pops the
   * previous round's last bout and takes this round's counters below zero.
   */
  lemma UndoAcrossRoundBoundary(e: Engine)
    requires Inv(e) && e.state == RoundActive && e.boutHistory != [] && e.score.boutCount == 0
    requires e.score.roundP1Ap == 0 && e.score.roundP2Ap == 0
    ensures UndoLastBoutStep(e).1.Some?
    ensures UndoLastBoutStep(e).0.score.boutCount == -1
    ensures UndoLastBoutStep(e).0.score.roundP1Ap == -1 || UndoLastBoutStep(e).0.score.roundP2Ap == -1
  {
  }

  /**
   * A foul never makes AP negative, but an undo after one can: player 1 wins a bout
   * from zero, is fined three AP (clamped to zero), and the bout is undone.
   */
  lemma UndoAfterFoulGoesNegative(e: Engine, id: int, t: int)
    requires e.state == RoundActive && e.players.p1Id == Some(id) && e.score.p1Ap == 0
    ensures var e1 := RecordBoutStep(e, Opa, id, 0, t).value;
      var e2 := ApplyFoulPenaltyStep(e1, id, 3);
      e1.score.p1Ap == 1 && e2.score.p1Ap == 0 && UndoLastBoutStep(e2).0.score.p1Ap == -1
  {
  }

  /**
   * start_match acts only in SETUP. start_round acts only in MATCH_ACTIVE or
   * ROUND_COMPLETE: one round further, bout count and round AP zero, timer full,
   * undo stack and totals kept.
   */
  lemma StartEffect(e: Engine)
    ensures StartMatchStep(e).Some? <==> e.state == Setup
    ensures StartMatchStep(e).Some? ==> StartMatchStep(e).value == e.(state := MatchActive)
    ensures StartRoundStep(e).Some? <==> (e.state == MatchActive || e.state == RoundComplete)
    ensures StartRoundStep(e).Some? ==>
      var e1 := StartRoundStep(e).value;
      e1.state == RoundActive && e1.currentRound == e.currentRound + 1 &&
      e1.score.boutCount == 0 && e1.score.roundP1Ap == 0 && e1.score.roundP2Ap == 0 &&
      e1.boutHistory == e.boutHistory && e1.score.p1Ap == e.score.p1Ap && e1.score.p2Ap == e.score.p2Ap &&
      TallyOf(e1.score) == TallyOf(e.score)
  {
  }

  /**
   * end_round acts only in ROUND_ACTIVE. The round goes to the side with strictly more
   * round AP, else it is a tie; the result is appended, and the match is COMPLETED
   * exactly when the current round has reached the total, ROUND_COMPLETE otherwise.
   */
  lemma EndRoundEffect(e: Engine)
    ensures EndRoundStep(e).Some? <==> e.state == RoundActive
    ensures EndRoundStep(e).Some? ==>
      var (e1, w) := EndRoundStep(e).value;
      (w == Player1 <==> e.score.roundP1Ap > e.score.roundP2Ap) &&
      (w == Player2 <==> e.score.roundP2Ap > e.score.roundP1Ap) &&
      e1.roundWinners == e.roundWinners + [w] &&
      (e1.state == Completed <==> e.currentRound >= e.totalRounds) &&
      (e1.state != Completed ==> e1.state == RoundComplete) &&
      e1.score == e.score && e1.boutHistory == e.boutHistory
  {
  }

  /** The invariant survives every other operation. */
  lemma OtherOperationsPreserveInv(e: Engine, pid: int, d: int, team: string)
    requires Inv(e)
    ensures StartMatchStep(e).Some? ==> Inv(StartMatchStep(e).value)
    ensures StartRoundStep(e).Some? ==> Inv(StartRoundStep(e).value)
    ensures EndRoundStep(e).Some? ==> Inv(EndRoundStep(e).value.0)
    ensures Inv(ApplyFoulPenaltyStep(e, pid, d)) && Inv(PauseStep(e)) && Inv(ResumeStep(e))
  {
  }

  /** eliminate_player keeps the invariant. */
  lemma EliminatePreservesInv(e: Engine, pid: int, team: string)
    requires Inv(e)
    ensures Inv(EliminatePlayerStep(e, pid, team).0)
  {
  }

  /**
   * apply_foul_penalty changes at most the matching player's total AP, to
   * max(0, ap - d); a deduction of at most zero or an unknown id changes nothing, and
   * player 1 wins a tie of ids. Non-negative AP stays non-negative.
   */
  lemma FoulEffect(e: Engine, pid: int, d: int)
    ensures var e1 := ApplyFoulPenaltyStep(e, pid, d);
      e1 == e.(score := e1.score) &&
      e1.score == e.score.(p1Ap := e1.score.p1Ap, p2Ap := e1.score.p2Ap) &&
      (d <= 0 || (e.players.p1Id != Some(pid) && e.players.p2Id != Some(pid)) ==> e1 == e) &&
      (d > 0 && e.players.p1Id == Some(pid) ==> e1.score.p1Ap == Max(0, e.score.p1Ap - d) && e1.score.p2Ap == e.score.p2Ap) &&
      (d > 0 && e.players.p1Id != Some(pid) && e.players.p2Id == Some(pid) ==>
         e1.score.p2Ap == Max(0, e.score.p2Ap - d) && e1.score.p1Ap == e.score.p1Ap) &&
      (e.score.p1Ap >= 0 ==> e1.score.p1Ap >= 0) && (e.score.p2Ap >= 0 ==> e1.score.p2Ap >= 0)
  {
  }

  /** pause acts only in ROUND_ACTIVE, resume only in PAUSED, and resume after pause is back in ROUND_ACTIVE. */
  lemma PauseResume(e: Engine)
    requires Inv(e)
    ensures e.state != RoundActive ==> PauseStep(e) == e
    ensures e.state != Paused ==> ResumeStep(e) == e
    ensures e.state == RoundActive ==> PauseStep(e).state == Paused && ResumeStep(PauseStep(e)) == e.(previousState := Some(RoundActive))
    ensures e.state == Paused ==> ResumeStep(e).state == RoundActive
  {
  }

  /**
   * eliminate_player removes the first occurrence of the id from the named side's
   * roster (if present) and appends it to that side's eliminated list; the bonus for
   * the count left goes to the other side's total and nothing else changes. No player
   * is lost: the roster and eliminated list hold the same ids as before.
   */
  lemma EliminateEffect(e: Engine, pid: int, team: string)
    ensures var (e1, bonus) := EliminatePlayerStep(e, pid, team);
      var home := team == "home";
      var roster := if home then e1.team.homeRoster else e1.team.awayRoster;
      var oldRoster := if home then e.team.homeRoster else e.team.awayRoster;
      var out := if home then e1.team.homeEliminated else e1.team.awayEliminated;
      var oldOut := if home then e.team.homeEliminated else e.team.awayEliminated;
      bonus == EngineBonus(|roster|) &&
      (pid in oldRoster ==> |roster| == |oldRoster| - 1 && out == oldOut + [pid]) &&
      (pid !in oldRoster ==> roster == oldRoster && out == oldOut) &&
      multiset(roster) + multiset(out) == multiset(oldRoster) + multiset(oldOut) &&
      (home ==> e1.score == e.score.(p2Ap := e.score.p2Ap + bonus) &&
                e1.team.awayRoster == e.team.awayRoster && e1.team.awayEliminated == e.team.awayEliminated) &&
      (!home ==> e1.score == e.score.(p1Ap := e.score.p1Ap + bonus) &&
                 e1.team.homeRoster == e.team.homeRoster && e1.team.homeEliminated == e.team.homeEliminated)
  {
  }

  /** The bonus is 3 while at least three players are left, then 5, 10, 15 for two, one, none. */
  lemma EngineBonusSchedule(remaining: int)
    ensures remaining >= 3 ==> EngineBonus(remaining) == 3
    ensures remaining == 2 ==> EngineBonus(remaining) == 5
    ensures remaining == 1 ==> EngineBonus(remaining) == 10
    ensures remaining == 0 ==> EngineBonus(remaining) == 15
  {
  }

  /** A round can be recorded into exactly when record_bout would succeed; start_round is allowed beyond the last round but can_start_round is not. */
  lemma GuardsAgree(e: Engine)
    ensures CanRecordBoutIn(e) <==> RecordBoutStep(e, Opa, 0, 0, 0).Some?
    ensures CanStartRoundIn(e) <==> StartRoundStep(e).Some? && e.currentRound < e.totalRounds
  {
  }

  // ---------------- the engine object ----------------

  /** The Qt signals whose order and number the model states. */
  datatype Event = RoundStarted(round: int)
                 | RoundEnded(round: int, winner: Outcome)
                 | MatchCompleted(winner: Outcome, winnerId: Option<int>, player1Ap: int, player2Ap: int,
                                  roundsPlayed: int, roundWinners: seq<Outcome>)

  /** The signals end_round emits. */
  function EndRoundEvents(e: Engine): seq<Event>
    requires EndRoundStep(e).Some?
  {
    var (e1, w) := EndRoundStep(e).value;
    [RoundEnded(e.currentRound, w)] +
    (if e.currentRound >= e.totalRounds
     then [MatchCompleted(MatchWinner(e1).0, MatchWinner(e1).1, e1.score.p1Ap, e1.score.p2Ap,
                          e1.currentRound, e1.roundWinners)]
     else [])
  }

  /** The counter updates of record_bout, branch by branch: one bout, and one Opa or Oshi win and one AP (total and round) for the winner. */
  method AwardBout(s: Score, result: BoutResult, toP1: bool) returns (t: Score)
    ensures t == Credit(s, result, toP1)
    ensures t.boutCount == s.boutCount + 1
    ensures t.p1Ap + t.p2Ap == s.p1Ap + s.p2Ap + 1 && t.roundP1Ap + t.roundP2Ap == s.roundP1Ap + s.roundP2Ap + 1
  {
    t := s.(boutCount := s.boutCount + 1);
    if result == Opa {
      if toP1 {
        t := t.(p1Opa := t.p1Opa + 1, p1Ap := t.p1Ap + 1, roundP1Ap := t.roundP1Ap + 1);
      } else {
        t := t.(p2Opa := t.p2Opa + 1, p2Ap := t.p2Ap + 1, roundP2Ap := t.roundP2Ap + 1);
      }
    } else {
      if toP1 {
        t := t.(p1Oshi := t.p1Oshi + 1, p1Ap := t.p1Ap + 1, roundP1Ap := t.roundP1Ap + 1);
      } else {
        t := t.(p2Oshi := t.p2Oshi + 1, p2Ap := t.p2Ap + 1, roundP2Ap := t.roundP2Ap + 1);
      }
    }
  }

  /** The counter updates of undo_last_bout, branch by branch; they take back what AwardBout gave. */
  method ReverseBout(s: Score, result: BoutResult, toP1: bool) returns (t: Score)
    ensures t == Uncredit(s, result, toP1)
    ensures Uncredit(Credit(s, result, toP1), result, toP1) == s
  {
    t := s;
    if result == Opa {
      if toP1 {
        t := t.(p1Opa := t.p1Opa - 1, p1Ap := t.p1Ap - 1, roundP1Ap := t.roundP1Ap - 1);
      } else {
        t := t.(p2Opa := t.p2Opa - 1, p2Ap := t.p2Ap - 1, roundP2Ap := t.roundP2Ap - 1);
      }
    } else {
      if toP1 {
        t := t.(p1Oshi := t.p1Oshi - 1, p1Ap := t.p1Ap - 1, roundP1Ap := t.roundP1Ap - 1);
      } else {
        t := t.(p2Oshi := t.p2Oshi - 1, p2Ap := t.p2Ap - 1, roundP2Ap := t.roundP2Ap - 1);
      }
    }
    t := t.(boutCount := t.boutCount - 1);
    CreditInverse(s, result, toP1);
  }

  class ScoringEngine {
    const totalRounds: int
    var state: MatchState
    /** The state saved by pause. */
    var previousState: Option<MatchState>
    var players: Players
    /** AP totals, Opa/Oshi counts, the bout count and the round's AP. */
    var score: Score
    var currentRound: int
    var roundTimeRemainingMs: int
    /** The undo stack, most recent bout last. */
    var boutHistory: seq<BoutRecord>
    var team: TeamState
    var roundWinners: seq<Outcome>
    /** round_started, round_ended and match_completed, in emission order. */
    ghost var events: seq<Event>

    function View(): Engine
      reads this
    {
      Engine(totalRounds, state, previousState, players, score, currentRound, roundTimeRemainingMs,
             boutHistory, team, roundWinners)
    }

    ghost predicate Valid()
      reads this
    {
      Inv(View())
    }

    /** _reset_state: every group of fields back to its default; the state itself is left alone. */
    method ResetFields()
      modifies this
      ensures View() == ResetState(old(View()))
      ensures events == old(events)
    {
      players := NoPlayers;
      score := ZeroScore;
      currentRound, roundTimeRemainingMs := 0, RoundDurationMs;
      boutHistory := [];
      team := NoTeams;
      roundWinners := [];
    }

    constructor (totalRounds: int)
      ensures Valid() && View() == Initial(totalRounds) && events == []
    {
      this.totalRounds := totalRounds;
      state := Idle;
      previousState := None;
      players := NoPlayers;
      score := ZeroScore;
      currentRound, roundTimeRemainingMs := 0, RoundDurationMs;
      boutHistory := [];
      team := NoTeams;
      roundWinners := [];
      events := [];
    }

    method Setup1v1Match(player1Id: int, player1Name: string, player2Id: int, player2Name: string)
      requires Valid()
      modifies this
      ensures Valid() && Conserved(score)
      ensures View() == Setup1v1Step(old(View()), player1Id, player1Name, player2Id, player2Name)
      ensures events == old(events)
    {
      ResetFields();
      players := Players(Some(player1Id), Some(player2Id), player1Name, player2Name);
      state := Setup;
    }

    method StartMatch() returns (ok: bool)
      requires Valid()
      modifies this
      ensures Valid()
      ensures ok <==> old(state) == Setup
      ensures ok ==> View() == StartMatchStep(old(View())).value
      ensures !ok ==> View() == old(View())
      ensures events == old(events)
    {
      if state != Setup {
        return false;
      }
      state := MatchActive;
      ok := true;
    }

    method StartRound() returns (ok: bool)
      requires Valid()
      modifies this
      ensures Valid()
      ensures ok <==> (old(state) == MatchActive || old(state) == RoundComplete)
      ensures ok ==> View() == StartRoundStep(old(View())).value
      ensures ok ==> events == old(events) + [RoundStarted(currentRound)]
      ensures !ok ==> View() == old(View()) && events == old(events)
    {
      if state != MatchActive && state != RoundComplete {
        return false;
      }
      currentRound := currentRound + 1;
      score := score.(boutCount := 0, roundP1Ap := 0, roundP2Ap := 0);
      roundTimeRemainingMs := RoundDurationMs;
      state := RoundActive;
      events := events + [RoundStarted(currentRound)];
      ok := true;
    }

    method RecordBout(result: BoutResult, winnerId: int, loserId: int, timeRemainingMs: int := 0) returns (ok: bool)
      requires Valid()
      modifies this
      ensures Valid()
      ensures ok <==> old(state) == RoundActive
      ensures ok ==> View() == RecordBoutStep(old(View()), result, winnerId, loserId, timeRemainingMs).value
      ensures ok && Conserved(old(score)) ==> Conserved(score)
      ensures !ok ==> View() == old(View())
      ensures events == old(events)
    {
      if state != RoundActive {
        return false;
      }
      RecordBoutPreservesInv(View(), result, winnerId, loserId, timeRemainingMs);
      var record := BoutRecord(currentRound, score.boutCount + 1, result, winnerId, loserId, timeRemainingMs);
      var s := AwardBout(score, result, Some(winnerId) == players.p1Id);
      PushBout(record, s);
      ok := true;
    }

    /** The writes of record_bout: the record pushed, the new counters, the record's time remaining. */
    method PushBout(record: BoutRecord, s: Score)
      modifies this
      ensures View() == old(View()).(boutHistory := old(boutHistory) + [record], score := s,
                                      roundTimeRemainingMs := record.timeRemainingMs)
      ensures events == old(events)
    {
      roundTimeRemainingMs := record.timeRemainingMs;
      boutHistory := boutHistory + [record];
      score := s;
    }

    method UndoLastBout() returns (r: Option<BoutRecord>)
      requires Valid()
      modifies this
      ensures Valid()
      ensures (View(), r) == UndoLastBoutStep(old(View()))
      ensures Conserved(old(score)) ==> Conserved(score)
      ensures events == old(events)
    {
      if boutHistory == [] {
        return None;
      }
      if state != RoundActive {
        return None;
      }
      UndoPreservesInv(View());
      var bout := boutHistory[|boutHistory| - 1];
      boutHistory := boutHistory[..|boutHistory| - 1];
      score := ReverseBout(score, bout.result, Some(bout.winnerId) == players.p1Id);
      r := Some(bout);
    }

    /** _complete_match: COMPLETED, announcing the winner by total AP. */
    method CompleteMatch()
      modifies this
      ensures View() == CompleteMatchStep(old(View()))
      ensures events == old(events) + [MatchCompleted(MatchWinner(View()).0, MatchWinner(View()).1, score.p1Ap,
                                                      score.p2Ap, currentRound, roundWinners)]
    {
      state := Completed;
      var winner: Outcome;
      var winnerId: Option<int>;
      if score.p1Ap > score.p2Ap {
        winner, winnerId := Player1, players.p1Id;
      } else if score.p2Ap > score.p1Ap {
        winner, winnerId := Player2, players.p2Id;
      } else {
        winner, winnerId := Tie, None;
      }
      events := events + [MatchCompleted(winner, winnerId, score.p1Ap, score.p2Ap, currentRound, roundWinners)];
    }

    method EndRound() returns (r: Option<Outcome>)
      requires Valid()
      modifies this
      ensures Valid()
      ensures r.Some? <==> old(state) == RoundActive
      ensures r.Some? ==> (View(), r.value) == EndRoundStep(old(View())).value
      ensures r.Some? ==> events == old(events) + EndRoundEvents(old(View()))
      ensures r.None? ==> View() == old(View()) && events == old(events)
    {
      if state != RoundActive {
        return None;
      }
      var winner: Outcome;
      if score.roundP1Ap > score.roundP2Ap {
        winner := Player1;
      } else if score.roundP2Ap > score.roundP1Ap {
        winner := Player2;
      } else {
        winner := Tie;
      }
      roundWinners := roundWinners + [winner];
      state := RoundComplete;
      events := events + [RoundEnded(currentRound, winner)];
      if currentRound >= totalRounds {
        CompleteMatch();
      }
      r := Some(winner);
    }

    method ApplyFoulPenalty(playerId: int, apDeduction: int := 0)
      requires Valid()
      modifies this
      ensures Valid()
      ensures View() == ApplyFoulPenaltyStep(old(View()), playerId, apDeduction)
      ensures events == old(events)
    {
      if apDeduction > 0 {
        if Some(playerId) == players.p1Id {
          score := score.(p1Ap := Max(0, score.p1Ap - apDeduction));
        } else if Some(playerId) == players.p2Id {
          score := score.(p2Ap := Max(0, score.p2Ap - apDeduction));
        }
      }
    }

    method Pause()
      requires Valid()
      modifies this
      ensures Valid()
      ensures View() == PauseStep(old(View()))
      ensures events == old(events)
    {
      if state == RoundActive {
        previousState := Some(state);
        state := Paused;
      }
    }

    method Resume()
      requires Valid()
      modifies this
      ensures Valid()
      ensures View() == ResumeStep(old(View()))
      ensures events == old(events)
    {
      if state == Paused {
        state := previousState.GetOr(RoundActive);
      }
    }

    /** update_timer: the round time remaining takes the timer's value; nothing else changes. */
    method UpdateTimer(remainingMs: int)
      requires Valid()
      modifies this
      ensures Valid()
      ensures View() == old(View()).(roundTimeRemainingMs := remainingMs)
      ensures events == old(events)
    {
      roundTimeRemainingMs := remainingMs;
    }

    method SetupTeamMatch(homeRoster: seq<int>, awayRoster: seq<int>)
      requires Valid()
      modifies this
      ensures Valid() && Conserved(score)
      ensures View() == SetupTeamMatchStep(old(View()), homeRoster, awayRoster)
      ensures events == old(events)
    {
      ResetFields();
      team := team.(homeRoster := homeRoster, awayRoster := awayRoster);
      state := Setup;
    }

    method EliminatePlayer(playerId: int, fromTeam: string) returns (bonus: int)
      requires Valid()
      modifies this
      ensures Valid()
      ensures (View(), bonus) == EliminatePlayerStep(old(View()), playerId, fromTeam)
      ensures events == old(events)
    {
      var t := team;
      var remaining: int;
      if fromTeam == "home" {
        var (roster, out) := RemoveFromSide(t.homeRoster, t.homeEliminated, playerId);
        t := t.(homeRoster := roster, homeEliminated := out);
        remaining := |roster|;
      } else {
        var (roster, out) := RemoveFromSide(t.awayRoster, t.awayEliminated, playerId);
        t := t.(awayRoster := roster, awayEliminated := out);
        remaining := |roster|;
      }
      if remaining > 3 {
        bonus := TeamRoundWinBonus;
      } else {
        var elimOrder := 3 - remaining;
        bonus := if elimOrder == 1 then 5 else if elimOrder == 2 then 10 else if elimOrder == 3 then 15
                 else TeamRoundWinBonus;
      }
      assert bonus == EngineBonus(remaining);
      var s := if fromTeam == "home" then score.(p2Ap := score.p2Ap + bonus) else score.(p1Ap := score.p1Ap + bonus);
      assert (View().(team := t, score := s), bonus) == EliminatePlayerStep(View(), playerId, fromTeam);
      EliminatePreservesInv(View(), playerId, fromTeam);
      team, score := t, s;
    }

    function IsMatchComplete(): (b: bool)
      reads this
      ensures b <==> state == Completed
    {
      state == Completed
    }

    function CanStartRound(): (b: bool)
      reads this
      ensures b <==> CanStartRoundIn(View())
      ensures b ==> StartRoundStep(View()).Some?
    {
      (state == MatchActive || state == RoundComplete) && currentRound < totalRounds
    }

    function CanRecordBout(): (b: bool)
      reads this
      ensures b <==> RecordBoutStep(View(), Opa, 0, 0, 0).Some?
    {
      state == RoundActive
    }
  }
}

/** The team-mode Box/Lane rotation queue (engine/player_queue.py). */
module PlayerQueues {
  import opened Common
  import Sorting

  const MaxPlayers := 15
  const MaxSubstitutions := 5

  /** The five lanes of three boxes each, plus the exit lane of eliminated players. */
  datatype Lane = Lane1 | Lane2 | Lane3 | Lane4 | Lane5 | Exit

  /** The enum's value (`lane.value`). */
  function LaneValue(l: Lane): int {
    match l
    case Lane1 => 1
    case Lane2 => 2
    case Lane3 => 3
    case Lane4 => 4
    case Lane5 => 5
    case Exit => 6
  }

  /** _get_lane_for_box. */
  function LaneForBox(boxNumber: int): (l: Lane)
    ensures l == Exit <==> boxNumber <= 0
    ensures 1 <= boxNumber <= 15 ==> LaneValue(l) == (boxNumber - 1) / 3 + 1
    ensures boxNumber >= 13 ==> l == Lane5
  {
    if boxNumber <= 0 then Exit
    else if boxNumber <= 3 then Lane1
    else if boxNumber <= 6 then Lane2
    else if boxNumber <= 9 then Lane3
    else if boxNumber <= 12 then Lane4
    else Lane5
  }

  /** A player's position in the queue (a value; the source's records are mutated in place). */
  datatype PlayerPosition = PlayerPosition(playerId: int, playerName: string, boxNumber: int,
                                           lane: Lane, isEliminated: bool, isActive: bool)

  /** Number of players still in the game: `active_count`. */
  function LiveCount(ps: seq<PlayerPosition>): (n: nat)
    ensures n <= |ps|
  {
    if ps == [] then 0 else LiveCount(ps[..|ps| - 1]) + (if ps[|ps| - 1].isEliminated then 0 else 1)
  }

  /** Some live player sits in box b. */
  ghost predicate HasBox(ps: seq<PlayerPosition>, b: int) {
    exists i :: 0 <= i < |ps| && !ps[i].isEliminated && ps[i].boxNumber == b
  }

  /** Each live player is in a box of 1..m, in the lane of that box, and active iff in box 1. */
  ghost predicate LivePlaced(ps: seq<PlayerPosition>, m: int) {
    forall i :: 0 <= i < |ps| && !ps[i].isEliminated ==>
      1 <= ps[i].boxNumber <= m && ps[i].lane == LaneForBox(ps[i].boxNumber) &&
      ps[i].isActive == (ps[i].boxNumber == 1)
  }

  /** No two live players share a box. */
  ghost predicate BoxesDistinct(ps: seq<PlayerPosition>) {
    forall i, j :: 0 <= i < j < |ps| && !ps[i].isEliminated && !ps[j].isEliminated ==>
      ps[i].boxNumber != ps[j].boxNumber
  }

  /** Every box of 1..m is taken. */
  ghost predicate BoxesCovered(ps: seq<PlayerPosition>, m: int) {
    forall b :: 1 <= b <= m ==> HasBox(ps, b)
  }

  /** Eliminated players sit in box 0 of the exit lane, inactive. */
  ghost predicate RetiredPlaced(ps: seq<PlayerPosition>) {
    forall i :: 0 <= i < |ps| && ps[i].isEliminated ==>
      ps[i].boxNumber == 0 && ps[i].lane == Exit && !ps[i].isActive
  }

  /**
   * The queue invariant: the M non-eliminated players occupy boxes 1..M with no duplicate
   * and no gap, each lane is derived from its box, exactly the box-1 player is active, and
   * eliminated players sit in box 0 of the exit lane, inactive.
   */
  ghost predicate QueueInvariant(ps: seq<PlayerPosition>) {
    var m := LiveCount(ps);
    LivePlaced(ps, m) && BoxesDistinct(ps) && BoxesCovered(ps, m) && RetiredPlaced(ps)
  }

  /** At most one player is active, and only in box 1. */
  lemma ExactlyOneActive(ps: seq<PlayerPosition>, i: nat, j: nat)
    requires QueueInvariant(ps) && i < |ps| && j < |ps|
    requires ps[i].isActive && ps[j].isActive
    ensures i == j && !ps[i].isEliminated && ps[i].boxNumber == 1
  {
  }

  /** While some player remains, someone is active in box 1. */
  lemma SomeoneActive(ps: seq<PlayerPosition>) returns (i: nat)
    requires QueueInvariant(ps) && LiveCount(ps) > 0
    ensures i < |ps| && ps[i].isActive && !ps[i].isEliminated && ps[i].boxNumber == 1
  {
    assert HasBox(ps, 1);
    i :| 0 <= i < |ps| && !ps[i].isEliminated && ps[i].boxNumber == 1;
  }

  /** Two queues with the same elimination flags have the same live count. */
  lemma {:induction false} LiveCountSameFlags(ps: seq<PlayerPosition>, qs: seq<PlayerPosition>)
    requires |ps| == |qs|
    requires forall i :: 0 <= i < |ps| ==> ps[i].isEliminated == qs[i].isEliminated
    ensures LiveCount(ps) == LiveCount(qs)
  {
    if ps != [] {
      LiveCountSameFlags(ps[..|ps| - 1], qs[..|qs| - 1]);
    }
  }

  /** Eliminating one live player lowers the live count by one. */
  lemma {:induction false} LiveCountEliminate(ps: seq<PlayerPosition>, k: nat, p: PlayerPosition)
    requires k < |ps| && !ps[k].isEliminated && p.isEliminated
    ensures LiveCount(ps[k := p]) == LiveCount(ps) - 1
  {
    var qs := ps[k := p];
    if k == |ps| - 1 {
      assert qs[..|qs| - 1] == ps[..|ps| - 1];
    } else {
      LiveCountEliminate(ps[..|ps| - 1], k, p);
      assert qs[..|qs| - 1] == ps[..|ps| - 1][k := p];
    }
  }

  /** A queue with no eliminated player has every player live. */
  lemma {:induction false} LiveCountAllLive(ps: seq<PlayerPosition>)
    requires forall i :: 0 <= i < |ps| ==> !ps[i].isEliminated
    ensures LiveCount(ps) == |ps|
  {
    if ps != [] { LiveCountAllLive(ps[..|ps| - 1]); }
  }

  // ---------------- setup_roster ----------------

  /** The position setup_roster gives the i-th roster entry. */
  function SetupPosition(entry: (int, string), i: nat): PlayerPosition {
    PlayerPosition(entry.0, entry.1, i + 1, LaneForBox(i + 1), false, i + 1 == 1)
  }

  /** A freshly set-up roster satisfies the queue invariant, with every entry live. */
  lemma {:induction false} SetupEstablishesInvariant(roster: seq<(int, string)>, ps: seq<PlayerPosition>)
    requires |ps| == |roster|
    requires forall i :: 0 <= i < |roster| ==> ps[i] == SetupPosition(roster[i], i)
    ensures QueueInvariant(ps) && LiveCount(ps) == |roster|
  {
    LiveCountAllLive(ps);
    forall b | 1 <= b <= LiveCount(ps) ensures HasBox(ps, b) {
      assert ps[b - 1].boxNumber == b;
    }
  }

  // ---------------- advance_queue ----------------

  /** Index of the first player that `active_player` returns, if any. */
  function FirstActive(ps: seq<PlayerPosition>): (r: Option<nat>)
    ensures r.Some? ==> r.value < |ps| && ps[r.value].isActive && !ps[r.value].isEliminated
    ensures r.Some? ==> forall k :: 0 <= k < r.value ==> !(ps[k].isActive && !ps[k].isEliminated)
    ensures r.None? ==> forall k :: 0 <= k < |ps| ==> !(ps[k].isActive && !ps[k].isEliminated)
  {
    if ps == [] then None
    else if ps[0].isActive && !ps[0].isEliminated then Some(0)
    else match FirstActive(ps[1..])
      case None => None
      case Some(k) => Some(k + 1)
  }

  /**
   * One player's move in advance_queue AS WRITTEN: the box-1 player goes to box m and is
   * made inactive, every other live player moves down one box.
   */
  function AdvanceStepAsWritten(p: PlayerPosition, m: int): PlayerPosition {
    if p.isEliminated then p
    else if p.boxNumber == 1 then p.(boxNumber := m, isActive := false, lane := LaneForBox(m))
    else p.(boxNumber := p.boxNumber - 1,
            isActive := if p.boxNumber - 1 == 1 then true else p.isActive,
            lane := LaneForBox(p.boxNumber - 1))
  }

  /** The whole advance_queue as written. */
  function AdvancedAsWritten(ps: seq<PlayerPosition>): seq<PlayerPosition> {
    var m := LiveCount(ps);
    if m == 0 || FirstActive(ps).None? then ps
    else seq(|ps|, i requires 0 <= i < |ps| => AdvanceStepAsWritten(ps[i], m))
  }

  /**
   * As written, a queue with one player left loses its active player: the lone player
   * stays in box 1 but is marked inactive, breaking the queue invariant, after which
   * active_player is None and advance_queue does nothing.
   */
  lemma AdvanceAsWrittenDeactivatesLonePlayer(id: int, name: string)
    ensures var ps := [PlayerPosition(id, name, 1, Lane1, false, true)];
      QueueInvariant(ps) &&
      AdvancedAsWritten(ps) == [PlayerPosition(id, name, 1, Lane1, false, false)] &&
      !QueueInvariant(AdvancedAsWritten(ps)) &&
      FirstActive(AdvancedAsWritten(ps)).None?
  {
    var ps := [PlayerPosition(id, name, 1, Lane1, false, true)];
    assert LiveCount(ps) == 1 by { assert ps[..0] == []; }
    assert ps[0].boxNumber == 1;
    var qs := AdvancedAsWritten(ps);
    assert qs[0] == PlayerPosition(id, name, 1, Lane1, false, false);
    assert LiveCount(qs) == 1 by { assert qs[..0] == []; }
  }

  /**
   * One player's move in the corrected advance: as written, except that the box-1 player
   * is active afterwards exactly when it lands in box 1 again (a lone player).
   */
  function AdvanceStep(p: PlayerPosition, m: int): PlayerPosition {
    if p.isEliminated then p
    else if p.boxNumber == 1 then p.(boxNumber := m, isActive := m == 1, lane := LaneForBox(m))
    else p.(boxNumber := p.boxNumber - 1,
            isActive := if p.boxNumber - 1 == 1 then true else p.isActive,
            lane := LaneForBox(p.boxNumber - 1))
  }

  /** The corrected advance_queue, as used by PlayerQueue.AdvanceQueue. */
  function Advanced(ps: seq<PlayerPosition>): (r: seq<PlayerPosition>)
    ensures |r| == |ps|
  {
    var m := LiveCount(ps);
    if m == 0 || FirstActive(ps).None? then ps
    else seq(|ps|, i requires 0 <= i < |ps| => AdvanceStep(ps[i], m))
  }

  /** The as-written and corrected advances differ only on the lone player's flag. */
  lemma AdvanceFixOnlyTouchesLonePlayer(ps: seq<PlayerPosition>)
    requires QueueInvariant(ps) && LiveCount(ps) != 1
    ensures AdvancedAsWritten(ps) == Advanced(ps)
  {
  }

  /** The box a live player moves to in one advance of m players. */
  function NextBox(b: int, m: int): int {
    if b == 1 then m else b - 1
  }

  /** Pointwise description of the corrected advance of a queue whose box-1 player exists. */
  lemma AdvancedPointwise(ps: seq<PlayerPosition>)
    requires QueueInvariant(ps) && LiveCount(ps) > 0
    ensures forall i :: 0 <= i < |ps| ==> Advanced(ps)[i] == AdvanceStep(ps[i], LiveCount(ps))
  {
    var a := SomeoneActive(ps);
    assert FirstActive(ps).Some?;
  }

  lemma AdvanceStepPlaced(ps: seq<PlayerPosition>, qs: seq<PlayerPosition>, m: int)
    requires m == LiveCount(ps) && LivePlaced(ps, m) && RetiredPlaced(ps) && |qs| == |ps|
    requires forall i :: 0 <= i < |ps| ==> qs[i] == AdvanceStep(ps[i], m)
    ensures LivePlaced(qs, m) && RetiredPlaced(qs)
  {
  }

  lemma AdvanceStepDistinct(ps: seq<PlayerPosition>, qs: seq<PlayerPosition>, m: int)
    requires m == LiveCount(ps) && LivePlaced(ps, m) && BoxesDistinct(ps) && |qs| == |ps|
    requires forall i :: 0 <= i < |ps| ==> qs[i] == AdvanceStep(ps[i], m)
    ensures BoxesDistinct(qs)
  {
  }

  lemma AdvanceStepCovered(ps: seq<PlayerPosition>, qs: seq<PlayerPosition>, m: int)
    requires m == LiveCount(ps) && LivePlaced(ps, m) && BoxesCovered(ps, m) && |qs| == |ps|
    requires forall i :: 0 <= i < |ps| ==> qs[i] == AdvanceStep(ps[i], m)
    ensures BoxesCovered(qs, m)
  {
    forall b | 1 <= b <= m ensures HasBox(qs, b) {
      var src := if b == m then 1 else b + 1;
      assert HasBox(ps, src);
      var i :| 0 <= i < |ps| && !ps[i].isEliminated && ps[i].boxNumber == src;
      assert qs[i].boxNumber == b;
    }
  }

  /** The corrected advance keeps the queue invariant and moves every live player one box. */
  lemma AdvancePreservesInvariant(ps: seq<PlayerPosition>)
    requires QueueInvariant(ps)
    ensures QueueInvariant(Advanced(ps))
    ensures LiveCount(Advanced(ps)) == LiveCount(ps)
    ensures forall i :: 0 <= i < |ps| ==>
      Advanced(ps)[i].playerId == ps[i].playerId && Advanced(ps)[i].playerName == ps[i].playerName &&
      Advanced(ps)[i].isEliminated == ps[i].isEliminated &&
      Advanced(ps)[i].boxNumber == (if ps[i].isEliminated then 0 else NextBox(ps[i].boxNumber, LiveCount(ps)))
  {
    var m := LiveCount(ps);
    var qs := Advanced(ps);
    if m == 0 {
      return;
    }
    AdvancedPointwise(ps);
    LiveCountSameFlags(ps, qs);
    AdvanceStepPlaced(ps, qs, m);
    AdvanceStepDistinct(ps, qs, m);
    AdvanceStepCovered(ps, qs, m);
  }

  // ---------------- the rotation cycle law ----------------

  /** advance_queue applied k times. */
  function AdvancedTimes(ps: seq<PlayerPosition>, k: nat): seq<PlayerPosition> {
    if k == 0 then ps else Advanced(AdvancedTimes(ps, k - 1))
  }

  /** Where a player in box b is after k advances of m players. */
  function RotatedBox(b: int, k: nat, m: int): int {
    if k == 0 then b else NextBox(RotatedBox(b, k - 1, m), m)
  }

  lemma {:induction false} RotatedBoxCompose(b: int, j: nat, k: nat, m: int)
    ensures RotatedBox(b, j + k, m) == RotatedBox(RotatedBox(b, j, m), k, m)
  {
    if k > 0 { RotatedBoxCompose(b, j, k - 1, m); }
  }

  lemma {:induction false} RotatedBoxDown(b: int, j: nat, m: int)
    requires j < b
    ensures RotatedBox(b, j, m) == b - j
  {
    if j > 0 { RotatedBoxDown(b, j - 1, m); }
  }

  /** m advances bring box b of 1..m back to b. */
  lemma RotatedBoxFullCycle(b: int, m: int)
    requires 1 <= b <= m
    ensures RotatedBox(b, m, m) == b
  {
    RotatedBoxDown(b, b - 1, m);
    assert RotatedBox(b, b, m) == m;
    RotatedBoxCompose(b, b, m - b, m);
    if m - b > 0 {
      RotatedBoxDown(m, m - b, m);
    }
  }

  lemma {:induction false} AdvancedTimesTracksBoxes(ps: seq<PlayerPosition>, k: nat)
    requires QueueInvariant(ps)
    ensures QueueInvariant(AdvancedTimes(ps, k))
    ensures LiveCount(AdvancedTimes(ps, k)) == LiveCount(ps)
    ensures |AdvancedTimes(ps, k)| == |ps|
    ensures forall i :: 0 <= i < |ps| ==>
      var q := AdvancedTimes(ps, k)[i];
      q.playerId == ps[i].playerId && q.playerName == ps[i].playerName &&
      q.isEliminated == ps[i].isEliminated &&
      q.boxNumber == (if ps[i].isEliminated then 0 else RotatedBox(ps[i].boxNumber, k, LiveCount(ps)))
  {
    if k > 0 {
      AdvancedTimesTracksBoxes(ps, k - 1);
      AdvancePreservesInvariant(AdvancedTimes(ps, k - 1));
    }
  }

  /**
   * The rotation cycle law: with no elimination or substitution in between, M advances
   * of a queue with M live players give back the very same queue.
   */
  lemma RotationCycle(ps: seq<PlayerPosition>)
    requires QueueInvariant(ps)
    ensures AdvancedTimes(ps, LiveCount(ps)) == ps
  {
    var m := LiveCount(ps);
    var qs := AdvancedTimes(ps, m);
    AdvancedTimesTracksBoxes(ps, m);
    forall i | 0 <= i < |ps| ensures qs[i] == ps[i] {
      if !ps[i].isEliminated {
        RotatedBoxFullCycle(ps[i].boxNumber, m);
      }
    }
  }

  // ---------------- eliminate_player and _compact_queue ----------------

  /** The record of a player right after elimination, before compaction. */
  function Retired(p: PlayerPosition): PlayerPosition {
    p.(isEliminated := true, isActive := false, boxNumber := 0, lane := Lane.Exit)
  }

  /** Compaction of one live player once box `gap` has been vacated. */
  function CompactStep(p: PlayerPosition, gap: int): PlayerPosition {
    if p.isEliminated then p
    else
      var b := if p.boxNumber > gap then p.boxNumber - 1 else p.boxNumber;
      p.(boxNumber := b, lane := LaneForBox(b), isActive := b == 1)
  }

  function Compacted(ps: seq<PlayerPosition>, gap: int): (r: seq<PlayerPosition>)
    ensures |r| == |ps|
  {
    seq(|ps|, i requires 0 <= i < |ps| => CompactStep(ps[i], gap))
  }

  /** eliminate_player on the live player at index k, followed by _compact_queue. */
  function EliminatedAt(ps: seq<PlayerPosition>, k: nat): (r: seq<PlayerPosition>)
    requires k < |ps|
    ensures |r| == |ps|
  {
    Compacted(ps[k := Retired(ps[k])], ps[k].boxNumber)
  }

  lemma CompactPlaced(mid: seq<PlayerPosition>, qs: seq<PlayerPosition>, gap: int, m: int)
    requires 1 <= gap <= m + 1 && qs == Compacted(mid, gap) && RetiredPlaced(mid)
    requires forall i :: 0 <= i < |mid| && !mid[i].isEliminated ==>
      1 <= mid[i].boxNumber <= m + 1 && mid[i].boxNumber != gap
    ensures LivePlaced(qs, m) && RetiredPlaced(qs)
  {
  }

  lemma CompactDistinct(mid: seq<PlayerPosition>, qs: seq<PlayerPosition>, gap: int)
    requires qs == Compacted(mid, gap) && BoxesDistinct(mid)
    requires forall i :: 0 <= i < |mid| && !mid[i].isEliminated ==> mid[i].boxNumber != gap
    ensures BoxesDistinct(qs)
  {
  }

  lemma CompactCovered(ps: seq<PlayerPosition>, k: nat, mid: seq<PlayerPosition>, qs: seq<PlayerPosition>)
    requires QueueInvariant(ps) && k < |ps| && !ps[k].isEliminated
    requires mid == ps[k := Retired(ps[k])] && qs == Compacted(mid, ps[k].boxNumber)
    ensures BoxesCovered(qs, LiveCount(ps) - 1)
  {
    var gap := ps[k].boxNumber;
    forall b | 1 <= b <= LiveCount(ps) - 1 ensures HasBox(qs, b) {
      var src := if b < gap then b else b + 1;
      assert HasBox(ps, src);
      var i :| 0 <= i < |ps| && !ps[i].isEliminated && ps[i].boxNumber == src;
      assert i != k;
      assert qs[i].boxNumber == b;
    }
  }

  /** Compaction touches no elimination flag, so the live count stays. */
  lemma CompactedLiveCount(mid: seq<PlayerPosition>, gap: int)
    ensures LiveCount(Compacted(mid, gap)) == LiveCount(mid)
  {
    LiveCountSameFlags(mid, Compacted(mid, gap));
  }

  /** Right after the retirement, before compaction: the live players keep distinct boxes in 1..M, none in the vacated box. */
  lemma RetireFacts(ps: seq<PlayerPosition>, k: nat)
    requires QueueInvariant(ps) && k < |ps| && !ps[k].isEliminated
    ensures 1 <= ps[k].boxNumber <= LiveCount(ps)
    ensures var mid := ps[k := Retired(ps[k])];
      RetiredPlaced(mid) && BoxesDistinct(mid) &&
      forall i :: 0 <= i < |mid| && !mid[i].isEliminated ==>
        1 <= mid[i].boxNumber <= LiveCount(ps) && mid[i].boxNumber != ps[k].boxNumber
  {
  }

  /** Eliminating a live player keeps the invariant, with one player fewer. */
  lemma EliminationPreservesInvariant(ps: seq<PlayerPosition>, k: nat)
    requires QueueInvariant(ps) && k < |ps| && !ps[k].isEliminated
    ensures QueueInvariant(EliminatedAt(ps, k))
    ensures LiveCount(EliminatedAt(ps, k)) == LiveCount(ps) - 1
  {
    var gap := ps[k].boxNumber;
    var mid := ps[k := Retired(ps[k])];
    var qs := EliminatedAt(ps, k);
    var m := LiveCount(ps);
    LiveCountEliminate(ps, k, Retired(ps[k]));
    CompactedLiveCount(mid, gap);
    RetireFacts(ps, k);
    CompactPlaced(mid, qs, gap, m - 1);
    CompactDistinct(mid, qs, gap);
    CompactCovered(ps, k, mid, qs);
  }

  /**
   * Elimination retires that player, keeps every identity and every other player's
   * elimination flag, and renumbers the live players in their prior box order.
   */
  lemma EliminationKeepsOrder(ps: seq<PlayerPosition>, k: nat)
    requires QueueInvariant(ps) && k < |ps| && !ps[k].isEliminated
    ensures EliminatedAt(ps, k)[k] == Retired(ps[k])
    ensures forall i :: 0 <= i < |ps| ==>
      EliminatedAt(ps, k)[i].playerId == ps[i].playerId &&
      EliminatedAt(ps, k)[i].playerName == ps[i].playerName
    ensures forall i :: 0 <= i < |ps| && i != k ==> EliminatedAt(ps, k)[i].isEliminated == ps[i].isEliminated
    ensures forall i, j :: (0 <= i < |ps| && 0 <= j < |ps| && i != k && j != k &&
      !ps[i].isEliminated && !ps[j].isEliminated) ==>
      (ps[i].boxNumber < ps[j].boxNumber <==> EliminatedAt(ps, k)[i].boxNumber < EliminatedAt(ps, k)[j].boxNumber)
  {
    var gap := ps[k].boxNumber;
    var qs := EliminatedAt(ps, k);
    assert forall i :: 0 <= i < |ps| && i != k && !ps[i].isEliminated ==>
      qs[i].boxNumber == (if ps[i].boxNumber > gap then ps[i].boxNumber - 1 else ps[i].boxNumber);
  }

  /** Index of the first non-eliminated player with this id, the one eliminate_player and substitute_player act on. */
  function FirstLiveWithId(ps: seq<PlayerPosition>, playerId: int): (r: Option<nat>)
    ensures r.Some? ==> r.value < |ps| && ps[r.value].playerId == playerId && !ps[r.value].isEliminated
    ensures r.Some? ==> forall j :: 0 <= j < r.value ==> ps[j].playerId != playerId || ps[j].isEliminated
    ensures r.None? ==> forall j :: 0 <= j < |ps| ==> ps[j].playerId != playerId || ps[j].isEliminated
  {
    if ps == [] then None
    else if ps[0].playerId == playerId && !ps[0].isEliminated then Some(0)
    else match FirstLiveWithId(ps[1..], playerId)
      case None => None
      case Some(k) => Some(k + 1)
  }

  // ---------------- substitute_player ----------------

  /** Two queues agreeing on every player's box, lane and flags. */
  ghost predicate SamePlacement(ps: seq<PlayerPosition>, qs: seq<PlayerPosition>) {
    |qs| == |ps| &&
    forall i :: 0 <= i < |ps| ==>
      qs[i].boxNumber == ps[i].boxNumber && qs[i].lane == ps[i].lane &&
      qs[i].isEliminated == ps[i].isEliminated && qs[i].isActive == ps[i].isActive
  }

  /** The invariant only looks at placement, so a queue placed alike satisfies it too. */
  lemma SamePlacementKeepsInvariant(ps: seq<PlayerPosition>, qs: seq<PlayerPosition>)
    requires QueueInvariant(ps) && SamePlacement(ps, qs)
    ensures QueueInvariant(qs) && LiveCount(qs) == LiveCount(ps)
  {
    LiveCountSameFlags(ps, qs);
    forall b | 1 <= b <= LiveCount(ps) ensures HasBox(qs, b) {
      assert HasBox(ps, b);
      var i :| 0 <= i < |ps| && !ps[i].isEliminated && ps[i].boxNumber == b;
      assert qs[i].boxNumber == b;
    }
  }

  /** Replacing a live player's identity in place keeps the invariant. */
  lemma SubstitutionPreservesInvariant(ps: seq<PlayerPosition>, k: nat, inId: int, inName: string)
    requires QueueInvariant(ps) && k < |ps| && !ps[k].isEliminated
    ensures QueueInvariant(ps[k := ps[k].(playerId := inId, playerName := inName)])
    ensures LiveCount(ps[k := ps[k].(playerId := inId, playerName := inName)]) == LiveCount(ps)
  {
    var qs := ps[k := ps[k].(playerId := inId, playerName := inName)];
    assert SamePlacement(ps, qs);
    SamePlacementKeepsInvariant(ps, qs);
  }

  // ---------------- get_queue_state ----------------

  /** The live players, in list order. */
  function LivePlayers(ps: seq<PlayerPosition>): (r: seq<PlayerPosition>)
    ensures |r| == LiveCount(ps)
  {
    if ps == [] then []
    else LivePlayers(ps[..|ps| - 1]) + (if ps[|ps| - 1].isEliminated then [] else [ps[|ps| - 1]])
  }

  /** Each entry of LivePlayers is a live player of the queue, taken from an index at or after the previous one. */
  lemma {:induction false} LivePlayersOrigin(ps: seq<PlayerPosition>, i: nat)
    requires i < |LivePlayers(ps)|
    ensures exists a :: 0 <= a < |ps| && !ps[a].isEliminated && ps[a] == LivePlayers(ps)[i]
  {
    var init := ps[..|ps| - 1];
    if i < |LivePlayers(init)| {
      LivePlayersOrigin(init, i);
      var a :| 0 <= a < |init| && !init[a].isEliminated && init[a] == LivePlayers(init)[i];
      assert ps[a] == init[a];
    } else {
      assert ps[|ps| - 1] == LivePlayers(ps)[i];
    }
  }

  /** Distinct positions of LivePlayers come from distinct live positions of the queue. */
  lemma {:induction false} LivePlayersIndices(ps: seq<PlayerPosition>, i: nat, j: nat)
    requires i < j < |LivePlayers(ps)|
    ensures exists a, b :: (0 <= a < b < |ps| && !ps[a].isEliminated && !ps[b].isEliminated &&
                            ps[a] == LivePlayers(ps)[i] && ps[b] == LivePlayers(ps)[j])
  {
    var init := ps[..|ps| - 1];
    var li := LivePlayers(init);
    if j < |li| {
      LivePlayersIndices(init, i, j);
      var a, b :| 0 <= a < b < |init| && !init[a].isEliminated && !init[b].isEliminated &&
        init[a] == li[i] && init[b] == li[j];
      assert ps[a] == init[a] && ps[b] == init[b];
    } else {
      assert LivePlayers(ps)[j] == ps[|ps| - 1];
      assert LivePlayers(ps)[i] == li[i];
      LivePlayersOrigin(init, i);
      var a :| 0 <= a < |init| && !init[a].isEliminated && init[a] == li[i];
      assert ps[a] == init[a];
    }
  }

  /** Under the invariant the live players have pairwise different boxes. */
  lemma LivePlayersBoxesDistinct(ps: seq<PlayerPosition>)
    requires QueueInvariant(ps)
    ensures forall i, j :: 0 <= i < j < |LivePlayers(ps)| ==> LivePlayers(ps)[i].boxNumber != LivePlayers(ps)[j].boxNumber
  {
    forall i, j | 0 <= i < j < |LivePlayers(ps)|
      ensures LivePlayers(ps)[i].boxNumber != LivePlayers(ps)[j].boxNumber
    {
      LivePlayersIndices(ps, i, j);
    }
  }

  /** Under the invariant every live player's box lies in 1..M. */
  lemma LivePlayersBoxesInRange(ps: seq<PlayerPosition>)
    requires QueueInvariant(ps)
    ensures forall i :: 0 <= i < |LivePlayers(ps)| ==>
      1 <= LivePlayers(ps)[i].boxNumber <= LiveCount(ps) && !LivePlayers(ps)[i].isEliminated &&
      LivePlayers(ps)[i].isActive == (LivePlayers(ps)[i].boxNumber == 1)
  {
    forall i | 0 <= i < |LivePlayers(ps)|
      ensures 1 <= LivePlayers(ps)[i].boxNumber <= LiveCount(ps) && !LivePlayers(ps)[i].isEliminated &&
        LivePlayers(ps)[i].isActive == (LivePlayers(ps)[i].boxNumber == 1)
    {
      LivePlayersOrigin(ps, i);
    }
  }

  /** The order get_queue_state sorts by. */
  function ByBox(a: PlayerPosition, b: PlayerPosition): bool {
    a.boxNumber <= b.boxNumber
  }

  lemma ByBoxIsPreorder()
    ensures Sorting.TotalPreorder(ByBox)
  {
  }

  /** In a sequence with pairwise different boxes, a permutation of it has pairwise different boxes too. */
  lemma PermutationKeepsDistinctBoxes(s: seq<PlayerPosition>, t: seq<PlayerPosition>, i: nat, j: nat)
    requires forall a, b :: 0 <= a < b < |s| ==> s[a].boxNumber != s[b].boxNumber
    requires multiset(t) == multiset(s) && i < j < |t|
    ensures t[i].boxNumber != t[j].boxNumber
  {
    assert t[i] in multiset(s) && t[j] in multiset(s);
    var a :| 0 <= a < |s| && s[a] == t[i];
    var b :| 0 <= b < |s| && s[b] == t[j];
    if a == b {
      assert multiset(t)[t[i]] >= 2 by {
        assert t == t[..i] + [t[i]] + t[i + 1..j] + [t[j]] + t[j + 1..];
      }
      MultiplicityOneWhenBoxesDistinct(s, t[i]);
      assert false;
    }
  }

  /** In a sequence with pairwise different boxes, no record occurs twice. */
  lemma {:induction false} MultiplicityOneWhenBoxesDistinct(s: seq<PlayerPosition>, x: PlayerPosition)
    requires forall a, b :: 0 <= a < b < |s| ==> s[a].boxNumber != s[b].boxNumber
    ensures multiset(s)[x] <= 1
  {
    if s != [] {
      MultiplicityOneWhenBoxesDistinct(s[1..], x);
      assert s == [s[0]] + s[1..];
      if s[0] == x {
        assert forall k :: 0 <= k < |s[1..]| ==> s[1..][k] != x by {
          forall k | 0 <= k < |s[1..]| ensures s[1..][k] != x {
            assert s[1..][k] == s[k + 1];
          }
        }
        assert x !in s[1..];
      }
    }
  }

  /** A strictly increasing run of n integers inside 1..n is exactly 1, 2, ..., n. */
  lemma IncreasingFillsRange(s: seq<int>, k: nat)
    requires forall i, j :: 0 <= i < j < |s| ==> s[i] < s[j]
    requires forall i :: 0 <= i < |s| ==> 1 <= s[i] <= |s|
    requires k < |s|
    ensures s[k] == k + 1
  {
    LowerBound(s, k);
    UpperBound(s, k);
  }

  lemma {:induction false} LowerBound(s: seq<int>, k: nat)
    requires forall i, j :: 0 <= i < j < |s| ==> s[i] < s[j]
    requires forall i :: 0 <= i < |s| ==> 1 <= s[i]
    requires k < |s|
    ensures s[k] >= k + 1
  {
    if k > 0 { LowerBound(s, k - 1); }
  }

  lemma {:induction false} UpperBound(s: seq<int>, k: nat)
    requires forall i, j :: 0 <= i < j < |s| ==> s[i] < s[j]
    requires forall i :: 0 <= i < |s| ==> s[i] <= |s|
    requires k < |s|
    ensures s[k] <= k + 1
    decreases |s| - k
  {
    if k < |s| - 1 { UpperBound(s, k + 1); }
  }

  /** get_queue_state's ordering: the live players sorted by box. */
  function QueueState(ps: seq<PlayerPosition>): seq<PlayerPosition> {
    Sorting.SortBy(LivePlayers(ps), ByBox)
  }

  /**
   * Under the invariant the queue state lists boxes 1, 2, ..., M in order, only the first
   * active, and holds exactly the live players.
   */
  lemma QueueStateIsBoxOrder(ps: seq<PlayerPosition>)
    requires QueueInvariant(ps)
    ensures |QueueState(ps)| == LiveCount(ps)
    ensures multiset(QueueState(ps)) == multiset(LivePlayers(ps))
    ensures forall k :: 0 <= k < |QueueState(ps)| ==>
      QueueState(ps)[k].boxNumber == k + 1 && !QueueState(ps)[k].isEliminated &&
      QueueState(ps)[k].isActive == (k == 0)
  {
    var live := LivePlayers(ps);
    var s := QueueState(ps);
    ByBoxIsPreorder();
    Sorting.SortByCorrect(live, ByBox);
    LivePlayersBoxesDistinct(ps);
    LivePlayersBoxesInRange(ps);
    PermutationKeepsPlacement(live, s, |s|);
    SortedDistinctIncreasing(live, s);
    BoxesAreRange(s);
  }

  /** A permutation of the live players inherits their boxes in 1..m and their flags. */
  lemma PermutationKeepsPlacement(live: seq<PlayerPosition>, s: seq<PlayerPosition>, m: int)
    requires multiset(s) == multiset(live)
    requires forall i :: 0 <= i < |live| ==>
      1 <= live[i].boxNumber <= m && !live[i].isEliminated && live[i].isActive == (live[i].boxNumber == 1)
    ensures forall k :: 0 <= k < |s| ==>
      1 <= s[k].boxNumber <= m && !s[k].isEliminated && s[k].isActive == (s[k].boxNumber == 1)
  {
    forall k | 0 <= k < |s|
      ensures 1 <= s[k].boxNumber <= m && !s[k].isEliminated && s[k].isActive == (s[k].boxNumber == 1)
    {
      assert s[k] in multiset(live);
    }
  }

  /** Sorted by box and permuting records of pairwise different boxes: the boxes strictly increase. */
  lemma SortedDistinctIncreasing(live: seq<PlayerPosition>, s: seq<PlayerPosition>)
    requires Sorting.SortedBy(s, ByBox) && multiset(s) == multiset(live)
    requires forall a, b :: 0 <= a < b < |live| ==> live[a].boxNumber != live[b].boxNumber
    ensures forall i, j :: 0 <= i < j < |s| ==> s[i].boxNumber < s[j].boxNumber
  {
    forall i, j | 0 <= i < j < |s| ensures s[i].boxNumber < s[j].boxNumber {
      PermutationKeepsDistinctBoxes(live, s, i, j);
      assert ByBox(s[i], s[j]);
    }
  }

  /** Strictly increasing boxes, all in 1..|s|: box k + 1 at position k. */
  lemma BoxesAreRange(s: seq<PlayerPosition>)
    requires forall i, j :: 0 <= i < j < |s| ==> s[i].boxNumber < s[j].boxNumber
    requires forall k :: 0 <= k < |s| ==> 1 <= s[k].boxNumber <= |s|
    ensures forall k :: 0 <= k < |s| ==> s[k].boxNumber == k + 1
  {
    var boxes := seq(|s|, k requires 0 <= k < |s| => s[k].boxNumber);
    forall k | 0 <= k < |s| ensures s[k].boxNumber == k + 1 {
      IncreasingFillsRange(boxes, k);
    }
  }

  /** The loop of advance_queue: each player takes its AdvanceStep for m live players. */
  method AdvanceEach(ps: seq<PlayerPosition>, m: int) returns (qs: seq<PlayerPosition>)
    ensures |qs| == |ps| && forall k :: 0 <= k < |ps| ==> qs[k] == AdvanceStep(ps[k], m)
  {
    qs := ps;
    var i := 0;
    while i < |ps|
      invariant 0 <= i <= |ps| && |qs| == |ps|
      invariant forall k :: 0 <= k < i ==> qs[k] == AdvanceStep(ps[k], m)
      invariant forall k :: i <= k < |ps| ==> qs[k] == ps[k]
    {
      var p := qs[i];
      if !p.isEliminated {
        if p.boxNumber == 1 {
          p := p.(boxNumber := m, isActive := m == 1);
        } else {
          p := p.(boxNumber := p.boxNumber - 1);
          if p.boxNumber == 1 {
            p := p.(isActive := true);
          }
        }
        p := p.(lane := LaneForBox(p.boxNumber));
      }
      qs := qs[i := p];
      i := i + 1;
    }
  }

  /**
   * _compact_queue: renumber the live players 1..M in their prior box order. It is given
   * the box the eliminated player vacated; each box above it moves down by one.
   */
  method CompactQueue(ps: seq<PlayerPosition>, gap: int) returns (qs: seq<PlayerPosition>)
    ensures qs == Compacted(ps, gap)
  {
    qs := ps;
    var i := 0;
    while i < |ps|
      invariant 0 <= i <= |ps| && |qs| == |ps|
      invariant forall k :: 0 <= k < i ==> qs[k] == CompactStep(ps[k], gap)
      invariant forall k :: i <= k < |ps| ==> qs[k] == ps[k]
    {
      var p := qs[i];
      if !p.isEliminated {
        var b := if p.boxNumber > gap then p.boxNumber - 1 else p.boxNumber;
        qs := qs[i := p.(boxNumber := b, lane := LaneForBox(b), isActive := b == 1)];
      }
      i := i + 1;
    }
  }

  /** The search of eliminate_player and substitute_player: the first live player with the id. */
  method FindLive(ps: seq<PlayerPosition>, playerId: int) returns (r: Option<nat>)
    ensures r == FirstLiveWithId(ps, playerId)
  {
    var i := 0;
    while i < |ps|
      invariant 0 <= i <= |ps|
      invariant forall j :: 0 <= j < i ==> ps[j].playerId != playerId || ps[j].isEliminated
    {
      if ps[i].playerId == playerId && !ps[i].isEliminated {
        return Some(i);
      }
      i := i + 1;
    }
    return None;
  }

  class PlayerQueue {
    const teamId: int
    const teamName: string
    var players: seq<PlayerPosition>
    /** Ids of the eliminated players, in elimination order. */
    var eliminated: seq<int>
    var substitutionCount: int

    ghost predicate Valid()
      reads this
    {
      QueueInvariant(players) &&
      |eliminated| == |players| - LiveCount(players) &&
      0 <= substitutionCount <= MaxSubstitutions
    }

    /** A queue with no players and no substitutions made (the dataclass defaults). */
    constructor (teamId: int, teamName: string)
      ensures Valid()
      ensures this.teamId == teamId && this.teamName == teamName
      ensures players == [] && eliminated == [] && substitutionCount == 0
    {
      this.teamId := teamId;
      this.teamName := teamName;
      players := [];
      eliminated := [];
      substitutionCount := 0;
    }

    /**
     * setup_roster: refuses (and changes nothing) above 15 entries; otherwise boxes 1..n in
     * roster order, only box 1 active, no one eliminated. The substitution count is kept.
     */
    method SetupRoster(roster: seq<(int, string)>) returns (ok: bool)
      requires Valid()
      modifies this
      ensures Valid()
      ensures ok <==> |roster| <= MaxPlayers
      ensures !ok ==> players == old(players) && eliminated == old(eliminated)
      ensures ok ==> |players| == |roster| && eliminated == []
      ensures ok ==> forall i :: 0 <= i < |roster| ==> players[i] == SetupPosition(roster[i], i)
      ensures ok ==> LiveCount(players) == |roster|
      ensures substitutionCount == old(substitutionCount)
    {
      if |roster| > MaxPlayers {
        return false;
      }
      players := [];
      eliminated := [];
      var i := 0;
      while i < |roster|
        invariant 0 <= i <= |roster|
        invariant |players| == i
        invariant forall k :: 0 <= k < i ==> players[k] == SetupPosition(roster[k], k)
        invariant eliminated == [] && substitutionCount == old(substitutionCount)
      {
        var boxNumber := i + 1;
        players := players + [PlayerPosition(roster[i].0, roster[i].1, boxNumber, LaneForBox(boxNumber),
                                             false, boxNumber == 1)];
        i := i + 1;
      }
      SetupEstablishesInvariant(roster, players);
      ok := true;
    }

    /** active_player: the first active, non-eliminated player. */
    method ActivePlayer() returns (r: Option<PlayerPosition>)
      requires Valid()
      ensures r.Some? <==> LiveCount(players) > 0
      ensures r.Some? ==> r.value in players && !r.value.isEliminated && r.value.isActive && r.value.boxNumber == 1
    {
      var i := 0;
      while i < |players|
        invariant 0 <= i <= |players|
        invariant forall k :: 0 <= k < i ==> !(players[k].isActive && !players[k].isEliminated)
      {
        if players[i].isActive && !players[i].isEliminated {
          return Some(players[i]);
        }
        i := i + 1;
      }
      assert !HasBox(players, 1);
      return None;
    }

    /** active_count. */
    function ActiveCount(): (n: nat)
      reads this
      ensures n == |LivePlayers(players)|
    {
      LiveCount(players)
    }

    /** is_team_eliminated. */
    function IsTeamEliminated(): bool
      reads this
    {
      ActiveCount() == 0
    }

    /**
     * advance_queue (with the lone-player flag corrected): every live player moves one box
     * towards box 1 and the box-1 player goes to the back. Nothing happens without players.
     */
    method AdvanceQueue()
      requires Valid()
      modifies this
      ensures Valid()
      ensures players == Advanced(old(players))
      ensures eliminated == old(eliminated) && substitutionCount == old(substitutionCount)
    {
      var ps := players;
      var m := LiveCount(ps);
      if m == 0 {
        return;
      }
      var current := FirstActive(ps);
      if current.None? {
        return;
      }
      var qs := AdvanceEach(ps, m);
      AdvancedPointwise(ps);
      assert qs == Advanced(ps);
      AdvancePreservesInvariant(ps);
      players := qs;
    }

    /**
     * eliminate_player: the first live player with this id is retired (box 0, exit lane,
     * inactive), its id is appended to `eliminated` and the rest are compacted. With no
     * such player nothing changes and None is returned.
     */
    method EliminatePlayer(playerId: int) returns (r: Option<PlayerPosition>)
      requires Valid()
      modifies this
      ensures Valid()
      ensures substitutionCount == old(substitutionCount)
      ensures r.None? <==> FirstLiveWithId(old(players), playerId).None?
      ensures r.None? ==> players == old(players) && eliminated == old(eliminated)
      ensures r.Some? ==> players == EliminatedAt(old(players), FirstLiveWithId(old(players), playerId).value)
      ensures r.Some? ==> r.value == Retired(old(players)[FirstLiveWithId(old(players), playerId).value])
      ensures r.Some? ==> eliminated == old(eliminated) + [playerId]
      ensures r.Some? ==> LiveCount(players) == LiveCount(old(players)) - 1
    {
      var ps := players;
      var found := FindLive(ps, playerId);
      if found.None? {
        return None;
      }
      var i := found.value;
      var gap := ps[i].boxNumber;
      var qs := CompactQueue(ps[i := Retired(ps[i])], gap);
      EliminationPreservesInvariant(ps, i);
      players, eliminated := qs, eliminated + [playerId];
      return Some(qs[i]);
    }

    /**
     * substitute_player: refused when five substitutions were made, when no live player
     * has the outgoing id, or when that player is in box 1; otherwise the identity is
     * replaced in place, keeping the box, and the count goes up by one.
     */
    method SubstitutePlayer(outPlayerId: int, inPlayerId: int, inPlayerName: string) returns (ok: bool)
      requires Valid()
      modifies this
      ensures Valid()
      ensures eliminated == old(eliminated)
      ensures ok <==> (old(substitutionCount) < MaxSubstitutions &&
                       FirstLiveWithId(old(players), outPlayerId).Some? &&
                       !old(players)[FirstLiveWithId(old(players), outPlayerId).value].isActive)
      ensures !ok ==> players == old(players) && substitutionCount == old(substitutionCount)
      ensures ok ==> substitutionCount == old(substitutionCount) + 1
      ensures ok ==> var k := FirstLiveWithId(old(players), outPlayerId).value;
        players == old(players)[k := old(players)[k].(playerId := inPlayerId, playerName := inPlayerName)]
    {
      if substitutionCount >= MaxSubstitutions {
        return false;
      }
      var found := FindLive(players, outPlayerId);
      if found.None? {
        return false;
      }
      var k := found.value;
      if players[k].isActive {
        return false;
      }
      SubstitutionPreservesInvariant(players, k, inPlayerId, inPlayerName);
      players := players[k := players[k].(playerId := inPlayerId, playerName := inPlayerName)];
      substitutionCount := substitutionCount + 1;
      ok := true;
    }

    /** get_player_at_box: the live player in that box; under the invariant, one exists iff 1 <= box <= M. */
    method GetPlayerAtBox(boxNumber: int) returns (r: Option<PlayerPosition>)
      requires Valid()
      ensures r.Some? ==> r.value in players && !r.value.isEliminated && r.value.boxNumber == boxNumber
      ensures r.Some? <==> 1 <= boxNumber <= LiveCount(players)
    {
      var i := 0;
      while i < |players|
        invariant 0 <= i <= |players|
        invariant forall j :: 0 <= j < i ==> players[j].boxNumber != boxNumber || players[j].isEliminated
      {
        if players[i].boxNumber == boxNumber && !players[i].isEliminated {
          return Some(players[i]);
        }
        i := i + 1;
      }
      assert !HasBox(players, boxNumber);
      return None;
    }

    /** get_queue_state: the live players sorted by box (the display dictionaries are these records). */
    method GetQueueState() returns (r: seq<PlayerPosition>)
      requires Valid()
      ensures r == QueueState(players)
      ensures |r| == LiveCount(players)
      ensures forall k :: 0 <= k < |r| ==> r[k].boxNumber == k + 1 && !r[k].isEliminated && r[k].isActive == (k == 0)
      ensures multiset(r) == multiset(LivePlayers(players))
    {
      r := Sorting.SortBy(LivePlayers(players), ByBox);
      QueueStateIsBoxOrder(players);
    }

    /** can_substitute. */
    function CanSubstitute(): (ok: bool)
      reads this
      ensures ok <==> substitutionCount < MaxSubstitutions
    {
      substitutionCount < MaxSubstitutions
    }

    /** remaining_substitutions; under the invariant it lies in 0..5. */
    function RemainingSubstitutions(): (n: int)
      reads this
      ensures n == MaxSubstitutions - substitutionCount
      ensures Valid() ==> 0 <= n <= MaxSubstitutions
      ensures n > 0 <==> CanSubstitute()
    {
      MaxSubstitutions - substitutionCount
    }
  }
}

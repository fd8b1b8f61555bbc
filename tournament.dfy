/**
 * The tournament bracket of engine/tournament_bracket.py: serpentine seeding into groups,
 * round-robin group matches with standings, and a fixed knockout skeleton of 8/4/2/1
 * matches that winners advance through.
 *
 * Group names "A", "B", ... are group indices 0, 1, ...; match and slot identifiers are
 * structured values instead of strings. bracket_slots is not a separate field: each of its
 * entries is the very same object as one side of a knockout match, so it is modelled as a
 * lookup into the knockout matches (SlotById).
 */
module Tournaments {
  import opened Common
  import Sorting

  datatype Stage = GroupStage | RoundOf16 | QuarterFinal | SemiFinal | Final | Completed

  /** STAGES, the order of progression. */
  const Stages: seq<Stage> := [GroupStage, RoundOf16, QuarterFinal, SemiFinal, Final, Completed]

  /** STAGES.index(s). */
  function StageIndex(s: Stage): (r: nat)
    ensures r < |Stages| && Stages[r] == s
  {
    match s
    case GroupStage => 0
    case RoundOf16 => 1
    case QuarterFinal => 2
    case SemiFinal => 3
    case Final => 4
    case Completed => 5
  }

  /** The STAGES entry after s, which every stage but COMPLETED has. */
  function NextStage(s: Stage): (r: Option<Stage>)
    ensures r.Some? <==> s != Completed
    ensures r.Some? ==> StageIndex(r.value) == StageIndex(s) + 1
  {
    var i := StageIndex(s);
    if i + 1 < |Stages| then Some(Stages[i + 1]) else None
  }

  datatype Team = Team(id: int, name: string)

  /** match_id: "G<group>_<n>" for group matches, "R16_<n>", "QF_<n>", "SF_<n>", "FINAL_1" for the knockout. */
  datatype MatchId = GroupMatchId(group: nat, number: nat) | KnockoutMatchId(stage: Stage, number: nat)

  /** slot_id: the match id followed by the side, 1 or 2. */
  datatype SlotId = SlotId(matchId: MatchId, side: nat)

  datatype BracketSlot = BracketSlot(
    slotId: SlotId,
    stage: Stage,
    position: int,
    teamId: Option<int>,
    teamName: Option<string>,
    seed: Option<int>,
    isWinner: bool)

  datatype BracketMatch = BracketMatch(
    matchId: MatchId,
    stage: Stage,
    position: int,
    slot1: BracketSlot,
    slot2: BracketSlot,
    winnerSlotId: Option<SlotId>,
    isComplete: bool,
    winnerTeamId: Option<int>,
    homeScore: int,
    awayScore: int)

  datatype GroupStanding = GroupStanding(
    teamId: int,
    teamName: string,
    group: nat,
    played: int,
    wins: int,
    losses: int,
    apScored: int,
    apConceded: int)
  {
    function ApDifferential(): int { apScored - apConceded }
    /** Three points per win. */
    function Points(): int { wins * 3 }
  }

  // ---------------------------------------------------------------------------------------
  // Team names

  /** `{t["id"]: t["name"] for t in teams}`: a later team with the same id overwrites an earlier one. */
  function TeamNames(teams: seq<Team>): map<int, string> {
    if teams == [] then map[]
    else TeamNames(teams[..|teams| - 1])[teams[|teams| - 1].id := teams[|teams| - 1].name]
  }

  /** Every listed id has a name, nothing else has one, and the name is that of the last team with the id. */
  lemma {:induction false} TeamNamesSpec(teams: seq<Team>, k: nat)
    requires k < |teams|
    ensures teams[k].id in TeamNames(teams)
    ensures (forall j :: k < j < |teams| ==> teams[j].id != teams[k].id) ==>
              TeamNames(teams)[teams[k].id] == teams[k].name
  {
    if k < |teams| - 1 {
      TeamNamesSpec(teams[..|teams| - 1], k);
    }
  }

  lemma {:induction false} TeamNamesOnlyListed(teams: seq<Team>, id: int)
    requires id in TeamNames(teams)
    ensures exists k :: 0 <= k < |teams| && teams[k].id == id
  {
    if teams[|teams| - 1].id != id {
      TeamNamesOnlyListed(teams[..|teams| - 1], id);
      var k :| 0 <= k < |teams| - 1 && teams[..|teams| - 1][k].id == id;
      assert teams[k].id == id;
    }
  }

  /** `self._teams.get(id, "")`. */
  function NameOf(names: map<int, string>, id: int): string {
    if id in names then names[id] else ""
  }

  // ---------------------------------------------------------------------------------------
  // Serpentine seeding

  /** The step at which group g is visited in a row: left to right on even rows, right to left on odd ones. */
  function SerpentineColumn(row: nat, g: nat, numGroups: nat): (c: nat)
    requires g < numGroups
    ensures c < numGroups
  {
    if row % 2 == 0 then g else numGroups - 1 - g
  }

  /** A row visits every group once: the group visited at step c is the one whose column is c. */
  lemma SerpentineInvolution(row: nat, g: nat, numGroups: nat)
    requires g < numGroups
    ensures SerpentineColumn(row, SerpentineColumn(row, g, numGroups), numGroups) == g
  {
  }

  /** The group team k is seeded into: row k div G, at column k mod G of that row's direction. */
  function SerpentineGroup(k: nat, numGroups: nat): (g: nat)
    requires numGroups > 0
    ensures g < numGroups
  {
    SerpentineColumn(k / numGroups, k % numGroups, numGroups)
  }

  lemma MulStep(rows: nat, numGroups: nat)
    ensures (rows + 1) * numGroups == rows * numGroups + numGroups
  {
  }

  lemma MulMonotone(a: nat, b: nat, c: nat)
    requires a <= b
    ensures a * c <= b * c
  {
  }

  lemma NonNegativeFactor(a: int, b: int)
    requires a > 0 && a * b >= 0
    ensures b >= 0
  {
  }

  /** Team k of G * rows teams lies in row k div G, below `rows`, at column k mod G. */
  lemma RowOf(k: nat, numGroups: nat, rows: nat)
    requires numGroups > 0 && k < numGroups * rows
    ensures k == (k / numGroups) * numGroups + k % numGroups
    ensures k / numGroups < rows
  {
    if k / numGroups >= rows {
      MulMonotone(rows, k / numGroups, numGroups);
    }
  }

  /** The teams of group g after `rows` rows of seeding: row r holds team r * G + (its column in row r). */
  function SeededTeams(teams: seq<Team>, numGroups: nat, rows: nat, g: nat): (r: seq<Team>)
    requires g < numGroups && rows * numGroups <= |teams|
    ensures |r| == rows
    decreases rows
  {
    if rows == 0 then []
    else
      MulStep(rows - 1, numGroups);
      SeededTeams(teams, numGroups, rows - 1, g) +
        [teams[(rows - 1) * numGroups + SerpentineColumn(rows - 1, g, numGroups)]]
  }

  /** The row r of group g holds the team at index r * G + column. */
  lemma {:induction false} SeededTeamsAt(teams: seq<Team>, numGroups: nat, rows: nat, g: nat, r: nat)
    requires g < numGroups && rows * numGroups <= |teams| && r < rows
    ensures r * numGroups + SerpentineColumn(r, g, numGroups) < |teams|
    ensures SeededTeams(teams, numGroups, rows, g)[r] == teams[r * numGroups + SerpentineColumn(r, g, numGroups)]
    decreases rows
  {
    MulStep(rows - 1, numGroups);
    if r < rows - 1 {
      SeededTeamsAt(teams, numGroups, rows - 1, g, r);
    }
  }

  /**
   * Serpentine placement: with G groups of T teams, the team at index r * G + c (row r,
   * column c; RowOf splits any index so) sits in row r of group SerpentineColumn(r, c, G):
   * every team is seeded, each into one seat.
   */
  lemma SerpentinePlacement(teams: seq<Team>, numGroups: nat, rows: nat, r: nat, c: nat)
    requires |teams| == rows * numGroups && r < rows && c < numGroups
    ensures r * numGroups + c < |teams| &&
            SeededTeams(teams, numGroups, rows, SerpentineColumn(r, c, numGroups))[r] == teams[r * numGroups + c]
  {
    var g := SerpentineColumn(r, c, numGroups);
    SerpentineInvolution(r, c, numGroups);
    SeededTeamsAt(teams, numGroups, rows, g, r);
  }

  /** The concrete layout of 16 teams in 4 groups: group A gets the 1st, 8th, 9th and 16th team. */
  lemma SixteenTeamSeeding(teams: seq<Team>)
    requires |teams| == 16
    ensures SeededTeams(teams, 4, 4, 0) == [teams[0], teams[7], teams[8], teams[15]]
    ensures SeededTeams(teams, 4, 4, 1) == [teams[1], teams[6], teams[9], teams[14]]
    ensures SeededTeams(teams, 4, 4, 3) == [teams[3], teams[4], teams[11], teams[12]]
  {
  }

  function IdsOf(ts: seq<Team>): (r: seq<int>)
    ensures |r| == |ts| && forall i :: 0 <= i < |ts| ==> r[i] == ts[i].id
  {
    seq(|ts|, i requires 0 <= i < |ts| => ts[i].id)
  }

  /** A fresh GroupStanding: nothing played yet. */
  function NewStanding(t: Team, g: nat): GroupStanding {
    GroupStanding(t.id, t.name, g, 0, 0, 0, 0, 0)
  }

  function NewStandings(ts: seq<Team>, g: nat): (r: seq<GroupStanding>)
    ensures |r| == |ts| && forall i :: 0 <= i < |ts| ==> r[i] == NewStanding(ts[i], g)
  {
    seq(|ts|, i requires 0 <= i < |ts| => NewStanding(ts[i], g))
  }

  /** The number of groups: one per name in range(num_groups). */
  function GroupCount(numGroups: int): nat {
    if numGroups > 0 then numGroups else 0
  }

  lemma IdsOfAppend(ts: seq<Team>, t: Team)
    ensures IdsOf(ts + [t]) == IdsOf(ts) + [t.id]
  {
  }

  lemma NewStandingsAppend(ts: seq<Team>, t: Team, g: nat)
    ensures NewStandings(ts + [t], g) == NewStandings(ts, g) + [NewStanding(t, g)]
  {
  }

  lemma SeededTeamsNext(teams: seq<Team>, count: nat, row: nat, g: nat)
    requires g < count && (row + 1) * count <= |teams|
    ensures row * count + SerpentineColumn(row, g, count) < |teams|
    ensures SeededTeams(teams, count, row + 1, g) ==
            SeededTeams(teams, count, row, g) + [teams[row * count + SerpentineColumn(row, g, count)]]
  {
    MulStep(row, count);
  }

  /** The groups and standings after `rows` complete rows of seeding. */
  ghost predicate SeededUpTo(teams: seq<Team>, count: nat, rows: nat, groups: seq<seq<int>>, standings: seq<seq<GroupStanding>>)
    requires rows * count <= |teams|
  {
    |groups| == count && |standings| == count &&
    forall g :: 0 <= g < count ==>
      groups[g] == IdsOf(SeededTeams(teams, count, rows, g)) &&
      standings[g] == NewStandings(SeededTeams(teams, count, rows, g), g)
  }

  /** Group g holds the ids and fresh standings of its teams after `rows` rows. */
  ghost predicate GroupSeeded(teams: seq<Team>, count: nat, rows: nat, g: nat,
                              groups: seq<seq<int>>, standings: seq<seq<GroupStanding>>)
    requires g < count && rows * count <= |teams| && g < |groups| && g < |standings|
  {
    groups[g] == IdsOf(SeededTeams(teams, count, rows, g)) &&
    standings[g] == NewStandings(SeededTeams(teams, count, rows, g), g)
  }

  /** Part way through row `row`: the groups visited at the first j steps already hold their row-`row` team. */
  ghost predicate RowProgress(teams: seq<Team>, count: nat, row: nat, j: nat,
                              groups: seq<seq<int>>, standings: seq<seq<GroupStanding>>)
    requires (row + 1) * count <= |teams|
  {
    MulStep(row, count);
    |groups| == count && |standings| == count &&
    forall g :: 0 <= g < count ==>
      GroupSeeded(teams, count, if SerpentineColumn(row, g, count) < j then row + 1 else row, g, groups, standings)
  }

  /** One step of a row: team row * G + j joins the group visited at step j. */
  method PlaceTeam(teams: seq<Team>, count: nat, row: nat, j: nat,
                   groups: seq<seq<int>>, standings: seq<seq<GroupStanding>>)
      returns (groups': seq<seq<int>>, standings': seq<seq<GroupStanding>>)
    requires (row + 1) * count <= |teams| && j < count
    requires RowProgress(teams, count, row, j, groups, standings)
    ensures RowProgress(teams, count, row, j + 1, groups', standings')
  {
    MulStep(row, count);
    var group := SerpentineColumn(row, j, count);
    SerpentineInvolution(row, j, count);
    var team := teams[row * count + j];
    groups' := groups[group := groups[group] + [team.id]];
    standings' := standings[group := standings[group] + [NewStanding(team, group)]];
    assert GroupSeeded(teams, count, row, group, groups, standings);
    JoinGroup(teams, count, row, group, groups, standings);
    forall g | 0 <= g < count
      ensures GroupSeeded(teams, count, if SerpentineColumn(row, g, count) < j + 1 then row + 1 else row, g, groups', standings')
    {
      if g != group {
        SerpentineInvolution(row, g, count);
        var rows := if SerpentineColumn(row, g, count) < j then row + 1 else row;
        assert GroupSeeded(teams, count, rows, g, groups, standings);
        KeepGroup(teams, count, rows, g, groups, standings, groups', standings');
      }
    }
  }

  /** The group visited next gains the row's team: its ids and standings grow by that team. */
  lemma JoinGroup(teams: seq<Team>, count: nat, row: nat, group: nat,
                  groups: seq<seq<int>>, standings: seq<seq<GroupStanding>>)
    requires (row + 1) * count <= |teams| && group < count && |groups| == count && |standings| == count
    requires GroupSeeded(teams, count, row, group, groups, standings)
    ensures row * count + SerpentineColumn(row, group, count) < |teams|
    ensures var team := teams[row * count + SerpentineColumn(row, group, count)];
            GroupSeeded(teams, count, row + 1, group,
                        groups[group := groups[group] + [team.id]],
                        standings[group := standings[group] + [NewStanding(team, group)]])
  {
    SeededTeamsNext(teams, count, row, group);
    var team := teams[row * count + SerpentineColumn(row, group, count)];
    IdsOfAppend(SeededTeams(teams, count, row, group), team);
    NewStandingsAppend(SeededTeams(teams, count, row, group), team, group);
  }

  /** A group whose entries are untouched stays seeded. */
  lemma KeepGroup(teams: seq<Team>, count: nat, rows: nat, g: nat,
                  groups: seq<seq<int>>, standings: seq<seq<GroupStanding>>,
                  groups': seq<seq<int>>, standings': seq<seq<GroupStanding>>)
    requires g < count && rows * count <= |teams| && g < |groups| && g < |standings|
    requires g < |groups'| && g < |standings'| && groups'[g] == groups[g] && standings'[g] == standings[g]
    requires GroupSeeded(teams, count, rows, g, groups, standings)
    ensures GroupSeeded(teams, count, rows, g, groups', standings')
  {
  }

  /** One row of _seed_groups: the row's G teams go to the groups in this row's direction. */
  method SeedRow(teams: seq<Team>, count: nat, row: nat, groups: seq<seq<int>>, standings: seq<seq<GroupStanding>>)
      returns (groups': seq<seq<int>>, standings': seq<seq<GroupStanding>>)
    requires (row + 1) * count <= |teams|
    requires row * count <= |teams| && SeededUpTo(teams, count, row, groups, standings)
    ensures SeededUpTo(teams, count, row + 1, groups', standings')
  {
    MulStep(row, count);
    groups', standings' := groups, standings;
    for j := 0 to count
      invariant RowProgress(teams, count, row, j, groups', standings')
    {
      groups', standings' := PlaceTeam(teams, count, row, j, groups', standings');
    }
  }

  /**
   * _seed_groups: rows of G teams in serpentine order, appending each team's id to its group
   * and a fresh standing to the group's standings. After the team count check the source's
   * `team_index < len(teams)` guard always holds, so it is not repeated here; the running
   * team_index is row * G + j.
   */
  method SeedGroups(teams: seq<Team>, numGroups: int, teamsPerGroup: int)
      returns (groups: seq<seq<int>>, standings: seq<seq<GroupStanding>>)
    requires |teams| == numGroups * teamsPerGroup
    ensures |groups| == GroupCount(numGroups) && |standings| == |groups|
    ensures |groups| > 0 ==> teamsPerGroup >= 0 && |teams| == |groups| * teamsPerGroup
    ensures |groups| > 0 ==> SeededUpTo(teams, |groups|, teamsPerGroup, groups, standings)
  {
    var count := GroupCount(numGroups);
    groups := seq(count, _ => []);
    standings := seq(count, _ => []);
    if count == 0 {
      return;
    }
    NonNegativeFactor(numGroups, teamsPerGroup);
    for row := 0 to teamsPerGroup
      invariant row * count <= |teams|
      invariant SeededUpTo(teams, count, row, groups, standings)
    {
      MulMonotone(row + 1, teamsPerGroup, count);
      groups, standings := SeedRow(teams, count, row, groups, standings);
      MulStep(row, count);
    }
  }

  // ---------------------------------------------------------------------------------------
  // Round-robin group matches

  /** One pairing of _generate_group_matches: the group, the first-listed (home) and the later (away) team. */
  datatype Fixture = Fixture(group: nat, home: int, away: int)

  /** `for team2_id in team_ids[i + 1:]`: team i meets every team listed after it. */
  function RowFixtures(g: nat, ids: seq<int>, i: nat): (r: seq<Fixture>)
    requires i < |ids|
    ensures |r| == |ids| - 1 - i
    ensures forall j :: i < j < |ids| ==> r[j - i - 1] == Fixture(g, ids[i], ids[j])
  {
    seq(|ids| - 1 - i, k requires 0 <= k < |ids| - 1 - i => Fixture(g, ids[i], ids[i + 1 + k]))
  }

  /** The pairings of the first n teams of a group, in the source's order. */
  function Fixtures(g: nat, ids: seq<int>, n: nat): seq<Fixture>
    requires n <= |ids|
    decreases n
  {
    if n == 0 then [] else Fixtures(g, ids, n - 1) + RowFixtures(g, ids, n - 1)
  }

  /** Every pairing of one group. */
  function RoundRobin(g: nat, ids: seq<int>): seq<Fixture> {
    Fixtures(g, ids, |ids|)
  }

  lemma {:induction false} FixturesCount(g: nat, ids: seq<int>, n: nat)
    requires n <= |ids|
    ensures 2 * |Fixtures(g, ids, n)| == n * (2 * |ids| - n - 1)
    decreases n
  {
    if n > 0 {
      FixturesCount(g, ids, n - 1);
      assert |Fixtures(g, ids, n)| == |Fixtures(g, ids, n - 1)| + (|ids| - n);
      CountStep(n, |ids|, |Fixtures(g, ids, n - 1)|);
    }
  }

  /** Adding row n - 1 of m teams, m - n pairings, to the count of the first n - 1 rows. */
  lemma CountStep(n: int, m: int, p: int)
    requires 2 * p == (n - 1) * (2 * m - n)
    ensures 2 * (p + (m - n)) == n * (2 * m - n - 1)
  {
    assert (n - 1) * (2 * m - n) == n * (2 * m - n) - (2 * m - n);
    assert n * (2 * m - n) == n * (2 * m - n - 1) + n;
  }

  /** A group of T teams plays T(T-1)/2 matches. */
  lemma RoundRobinCount(g: nat, ids: seq<int>)
    ensures 2 * |RoundRobin(g, ids)| == |ids| * (|ids| - 1)
  {
    FixturesCount(g, ids, |ids|);
  }

  lemma {:induction false} FixturesMembers(g: nat, ids: seq<int>, n: nat, f: Fixture)
    requires n <= |ids|
    ensures f in Fixtures(g, ids, n) <==>
            f.group == g && exists i, j :: 0 <= i < n && i < j < |ids| && ids[i] == f.home && ids[j] == f.away
    decreases n
  {
    if n > 0 {
      FixturesMembers(g, ids, n - 1, f);
      var row := RowFixtures(g, ids, n - 1);
      if f in row {
        var k :| 0 <= k < |row| && row[k] == f;
        assert ids[n - 1] == f.home && ids[n + k] == f.away;
      }
      if f.group == g && (exists j :: n - 1 < j < |ids| && ids[n - 1] == f.home && ids[j] == f.away) {
        var j :| n - 1 < j < |ids| && ids[n - 1] == f.home && ids[j] == f.away;
        assert row[j - n] == f;
      }
    }
  }

  /** Round robin: a pairing is played exactly when its home team is listed before its away team in the group. */
  lemma RoundRobinMembers(g: nat, ids: seq<int>, f: Fixture)
    ensures f in RoundRobin(g, ids) <==>
            f.group == g && exists i, j :: 0 <= i < j < |ids| && ids[i] == f.home && ids[j] == f.away
  {
    FixturesMembers(g, ids, |ids|, f);
  }

  /** The pairings of groups 0 .. n-1, in group order. */
  function AllFixtures(groups: seq<seq<int>>, n: nat): seq<Fixture>
    requires n <= |groups|
    decreases n
  {
    if n == 0 then [] else AllFixtures(groups, n - 1) + RoundRobin(n - 1, groups[n - 1])
  }

  /** A group-stage slot: the team and its name, no seed. */
  function GroupSlot(id: MatchId, side: nat, number: nat, team: int, names: map<int, string>): BracketSlot {
    BracketSlot(SlotId(id, side), GroupStage, number, Some(team), Some(NameOf(names, team)), None, false)
  }

  /** The `number`-th group match (numbered across all groups from 1), for one pairing. */
  function FixtureMatch(f: Fixture, number: nat, names: map<int, string>): (m: BracketMatch)
    ensures m.matchId == GroupMatchId(f.group, number) && m.stage == GroupStage && m.position == number
    ensures m.slot1.teamId == Some(f.home) && m.slot2.teamId == Some(f.away)
    ensures m.slot1.slotId == SlotId(m.matchId, 1) && m.slot2.slotId == SlotId(m.matchId, 2)
    ensures !m.isComplete && m.winnerTeamId.None? && m.winnerSlotId.None?
  {
    var id := GroupMatchId(f.group, number);
    BracketMatch(id, GroupStage, number, GroupSlot(id, 1, number, f.home, names),
                 GroupSlot(id, 2, number, f.away, names), None, false, None, 0, 0)
  }

  /** Matches for a list of pairings, numbered from 1 in list order. */
  function MatchesFor(fs: seq<Fixture>, names: map<int, string>): (ms: seq<BracketMatch>)
    ensures |ms| == |fs| && forall k :: 0 <= k < |fs| ==> ms[k] == FixtureMatch(fs[k], k + 1, names)
  {
    seq(|fs|, k requires 0 <= k < |fs| => FixtureMatch(fs[k], k + 1, names))
  }

  lemma MatchesForAppend(fs: seq<Fixture>, f: Fixture, names: map<int, string>)
    ensures MatchesFor(fs + [f], names) == MatchesFor(fs, names) + [FixtureMatch(f, |fs| + 1, names)]
  {
  }

  /** The group matches of a whole tournament: every group's round robin, numbered on. */
  function GroupMatches(groups: seq<seq<int>>, names: map<int, string>): seq<BracketMatch> {
    MatchesFor(AllFixtures(groups, |groups|), names)
  }

  /** Group match ids are distinct: the running counter gives each match its own number. */
  lemma GroupMatchIdsDistinct(groups: seq<seq<int>>, names: map<int, string>, i: nat, j: nat)
    requires i < j < |GroupMatches(groups, names)|
    ensures GroupMatches(groups, names)[i].matchId != GroupMatches(groups, names)[j].matchId
  {
  }

  /** The default tournament: 4 groups of 4 teams play 24 group matches. */
  lemma SixteenTeamMatchCount(groups: seq<seq<int>>, names: map<int, string>)
    requires |groups| == 4 && forall g :: 0 <= g < 4 ==> |groups[g]| == 4
    ensures |GroupMatches(groups, names)| == 24
  {
    RoundRobinCount(0, groups[0]);
    RoundRobinCount(1, groups[1]);
    RoundRobinCount(2, groups[2]);
    RoundRobinCount(3, groups[3]);
  }

  /** The inner loop of _generate_group_matches: team i against every later team, numbering on. */
  method AppendRow(g: nat, ids: seq<int>, i: nat, matches: seq<BracketMatch>, ghost before: seq<Fixture>,
                   names: map<int, string>) returns (matches': seq<BracketMatch>)
    requires i < |ids| && matches == MatchesFor(before, names)
    ensures matches' == MatchesFor(before + RowFixtures(g, ids, i), names)
  {
    matches' := matches;
    ghost var row := RowFixtures(g, ids, i);
    for j := i + 1 to |ids|
      invariant matches' == MatchesFor(before + row[..j - i - 1], names)
    {
      var f := Fixture(g, ids[i], ids[j]);
      MatchesForAppend(before + row[..j - i - 1], f, names);
      matches' := matches' + [FixtureMatch(f, |matches'| + 1, names)];
      assert before + row[..j - i] == (before + row[..j - i - 1]) + [f];
    }
    assert row[..|ids| - i - 1] == row;
  }

  /** The middle loop of _generate_group_matches: one group's round robin, numbering on. */
  method AppendGroup(g: nat, ids: seq<int>, matches: seq<BracketMatch>, ghost before: seq<Fixture>,
                     names: map<int, string>) returns (matches': seq<BracketMatch>)
    requires matches == MatchesFor(before, names)
    ensures matches' == MatchesFor(before + RoundRobin(g, ids), names)
  {
    matches' := matches;
    for i := 0 to |ids|
      invariant matches' == MatchesFor(before + Fixtures(g, ids, i), names)
    {
      matches' := AppendRow(g, ids, i, matches', before + Fixtures(g, ids, i), names);
      FixturesStep(before, g, ids, i);
    }
  }

  lemma FixturesStep(before: seq<Fixture>, g: nat, ids: seq<int>, i: nat)
    requires i < |ids|
    ensures before + Fixtures(g, ids, i) + RowFixtures(g, ids, i) == before + Fixtures(g, ids, i + 1)
  {
  }

  /**
   * _generate_group_matches: for each group, each team against each later-listed team,
   * numbering the matches with one counter across all groups.
   */
  method GenerateGroupMatches(groups: seq<seq<int>>, names: map<int, string>) returns (matches: seq<BracketMatch>)
    ensures matches == GroupMatches(groups, names)
  {
    matches := [];
    for g := 0 to |groups|
      invariant matches == MatchesFor(AllFixtures(groups, g), names)
    {
      matches := AppendGroup(g, groups[g], matches, AllFixtures(groups, g), names);
    }
  }

  // ---------------------------------------------------------------------------------------
  // Knockout skeleton

  /** Matches per knockout stage: 8, 4, 2, 1. */
  function StageSize(s: Stage): nat {
    match s
    case RoundOf16 => 8
    case QuarterFinal => 4
    case SemiFinal => 2
    case Final => 1
    case _ => 0
  }

  /** Where a stage starts in knockout_matches, which lists the stages in order. */
  function StageOffset(s: Stage): nat {
    match s
    case RoundOf16 => 0
    case QuarterFinal => 8
    case SemiFinal => 12
    case Final => 14
    case _ => 15
  }

  /** The stage of knockout match k. */
  function StageAt(k: nat): (s: Stage)
    requires k < 15
    ensures StageOffset(s) <= k < StageOffset(s) + StageSize(s)
  {
    if k < 8 then RoundOf16 else if k < 12 then QuarterFinal else if k < 14 then SemiFinal else Final
  }

  /** A knockout stage's matches are exactly the indices StageOffset .. StageOffset + StageSize. */
  lemma StageRange(s: Stage, k: nat)
    requires k < 15
    ensures StageAt(k) == s <==> StageOffset(s) <= k < StageOffset(s) + StageSize(s)
  {
  }

  function EmptySlot(id: MatchId, side: nat, s: Stage, position: int): BracketSlot {
    BracketSlot(SlotId(id, side), s, position, None, None, None, false)
  }

  /** winner_slot_id: match i of a stage feeds side i mod 2 + 1 of match i div 2 + 1 of the next stage; the final feeds nothing. */
  function FedSlot(s: Stage, i: nat): (r: Option<SlotId>)
    ensures r.Some? <==> s in {RoundOf16, QuarterFinal, SemiFinal}
  {
    match s
    case RoundOf16 => Some(SlotId(KnockoutMatchId(QuarterFinal, i / 2 + 1), i % 2 + 1))
    case QuarterFinal => Some(SlotId(KnockoutMatchId(SemiFinal, i / 2 + 1), i % 2 + 1))
    case SemiFinal => Some(SlotId(KnockoutMatchId(Final, i / 2 + 1), i % 2 + 1))
    case _ => None
  }

  /** Match i (0-based) of a knockout stage as first built: empty slots at positions 2i and 2i + 1. */
  function SkeletonMatch(s: Stage, i: nat): BracketMatch {
    var id := KnockoutMatchId(s, i + 1);
    BracketMatch(id, s, i, EmptySlot(id, 1, s, 2 * i), EmptySlot(id, 2, s, 2 * i + 1), FedSlot(s, i), false, None, 0, 0)
  }

  function StageMatches(s: Stage): (ms: seq<BracketMatch>)
    ensures |ms| == StageSize(s) && forall i :: 0 <= i < StageSize(s) ==> ms[i] == SkeletonMatch(s, i)
  {
    seq(StageSize(s), i requires 0 <= i < StageSize(s) => SkeletonMatch(s, i))
  }

  /** The 15 knockout matches as _initialize_knockout_bracket builds them. */
  function Skeleton(): (ms: seq<BracketMatch>)
    ensures |ms| == 15
    ensures forall k :: 0 <= k < 15 ==> ms[k] == SkeletonMatch(StageAt(k), k - StageOffset(StageAt(k)))
  {
    StageMatches(RoundOf16) + StageMatches(QuarterFinal) + StageMatches(SemiFinal) + StageMatches(Final)
  }

  /** One loop of _initialize_knockout_bracket: the matches of one stage, in order. */
  method AppendStage(km: seq<BracketMatch>, s: Stage) returns (km': seq<BracketMatch>)
    ensures km' == km + StageMatches(s)
  {
    km' := km;
    for i := 0 to StageSize(s)
      invariant km' == km + StageMatches(s)[..i]
    {
      var id := KnockoutMatchId(s, i + 1);
      var slot1 := EmptySlot(id, 1, s, i * 2);
      var slot2 := EmptySlot(id, 2, s, i * 2 + 1);
      km' := km' + [BracketMatch(id, s, i, slot1, slot2, FedSlot(s, i), false, None, 0, 0)];
      assert StageMatches(s)[..i + 1] == StageMatches(s)[..i] + [SkeletonMatch(s, i)];
    }
    assert StageMatches(s)[..StageSize(s)] == StageMatches(s);
  }

  /** _initialize_knockout_bracket: round of 16, quarter-finals and semi-finals in loops, then the final. */
  method InitializeKnockoutBracket() returns (km: seq<BracketMatch>)
    ensures km == Skeleton()
  {
    km := AppendStage([], RoundOf16);
    km := AppendStage(km, QuarterFinal);
    km := AppendStage(km, SemiFinal);
    var id := KnockoutMatchId(Final, 1);
    km := km + [BracketMatch(id, Final, 0, EmptySlot(id, 1, Final, 0), EmptySlot(id, 2, Final, 1), None, false, None, 0, 0)];
  }

  /** Two matches agree on everything _initialize_knockout_bracket fixes; results and teams may differ. */
  predicate SameShape(m: BracketMatch, n: BracketMatch) {
    m.matchId == n.matchId && m.stage == n.stage && m.position == n.position && m.winnerSlotId == n.winnerSlotId &&
    m.slot1.slotId == n.slot1.slotId && m.slot1.stage == n.slot1.stage && m.slot1.position == n.slot1.position &&
    m.slot2.slotId == n.slot2.slotId && m.slot2.stage == n.slot2.stage && m.slot2.position == n.slot2.position
  }

  /** knockout_matches has the skeleton's 15 matches, whatever has been recorded in them. */
  ghost predicate KnockoutShaped(km: seq<BracketMatch>) {
    |km| == 15 && forall k {:trigger SkeletonAt(k)} :: 0 <= k < 15 ==> SameShape(km[k], SkeletonAt(k))
  }

  /** Match k of the skeleton. */
  function SkeletonAt(k: nat): BracketMatch
    requires k < 15
  {
    SkeletonMatch(StageAt(k), k - StageOffset(StageAt(k)))
  }

  lemma SkeletonShaped()
    ensures KnockoutShaped(Skeleton())
  {
  }

  // ---------------------------------------------------------------------------------------
  // Lookup

  /** `next((m for m in ms if m.match_id == id), None)`: the first match with the id. */
  function FindMatch(ms: seq<BracketMatch>, id: MatchId): (r: Option<nat>)
    ensures r.Some? ==> r.value < |ms| && ms[r.value].matchId == id && forall j :: 0 <= j < r.value ==> ms[j].matchId != id
    ensures r.None? ==> forall j :: 0 <= j < |ms| ==> ms[j].matchId != id
  {
    if ms == [] then None
    else if ms[0].matchId == id then Some(0)
    else match FindMatch(ms[1..], id)
      case Some(k) => Some(k + 1)
      case None => None
  }

  /** Where a knockout match of a given id sits, when the id names one of the skeleton's matches. */
  function KnockoutIndex(id: MatchId): (r: Option<nat>)
    ensures r.Some? ==> r.value < 15
  {
    match id
    case KnockoutMatchId(s, n) =>
      if 1 <= n <= StageSize(s) then Some(StageOffset(s) + n - 1) else None
    case GroupMatchId(_, _) => None
  }

  /** The id of skeleton match k leads back to k. */
  lemma SkeletonIdIndex(k: nat)
    requires k < 15
    ensures KnockoutIndex(SkeletonAt(k).matchId) == Some(k)
  {
    StageRange(StageAt(k), k);
  }

  /** An id KnockoutIndex places at k is the id of skeleton match k. */
  lemma IndexSkeletonId(id: MatchId)
    requires KnockoutIndex(id).Some?
    ensures SkeletonAt(KnockoutIndex(id).value).matchId == id
  {
    var k := KnockoutIndex(id).value;
    StageRange(id.stage, k);
  }

  lemma FoundIsIndexed(km: seq<BracketMatch>, id: MatchId)
    requires KnockoutShaped(km) && FindMatch(km, id).Some?
    ensures KnockoutIndex(id) == FindMatch(km, id)
  {
    var k := FindMatch(km, id).value;
    assert km[k].matchId == SkeletonAt(k).matchId;
    SkeletonIdIndex(k);
  }

  lemma IndexedIsFound(km: seq<BracketMatch>, id: MatchId)
    requires KnockoutShaped(km) && KnockoutIndex(id).Some?
    ensures FindMatch(km, id).Some?
  {
    var k := KnockoutIndex(id).value;
    assert km[k].matchId == SkeletonAt(k).matchId;
    IndexSkeletonId(id);
  }

  /** In a shaped bracket every knockout id is found at its computed place, and nothing else is found. */
  lemma ShapedFind(km: seq<BracketMatch>, id: MatchId)
    requires KnockoutShaped(km)
    ensures FindMatch(km, id) == KnockoutIndex(id)
  {
    if FindMatch(km, id).Some? {
      FoundIsIndexed(km, id);
    } else if KnockoutIndex(id).Some? {
      IndexedIsFound(km, id);
    }
  }

  /**
   * bracket_slots: the dictionary maps each knockout slot id to that very slot of its match, so a
   * lookup is the slot's match index and side.
   */
  function SlotIndex(sid: SlotId): (r: Option<(nat, nat)>)
    ensures r.Some? ==> r.value.0 < 15 && (r.value.1 == 1 || r.value.1 == 2)
  {
    match KnockoutIndex(sid.matchId)
    case Some(k) => if sid.side == 1 || sid.side == 2 then Some((k, sid.side)) else None
    case None => None
  }

  function SideOf(m: BracketMatch, side: nat): BracketSlot {
    if side == 1 then m.slot1 else m.slot2
  }

  /** The lookup agrees with the matches: a slot id is found exactly where a shaped bracket holds it. */
  lemma SlotIndexSpec(km: seq<BracketMatch>, sid: SlotId, k: nat, side: nat)
    requires KnockoutShaped(km) && k < 15 && (side == 1 || side == 2)
    ensures SlotIndex(sid) == Some((k, side)) <==> SideOf(km[k], side).slotId == sid
  {
    assert SameShape(km[k], SkeletonAt(k));
  }

  // ---------------------------------------------------------------------------------------
  // Recording results

  /** The side a result marks as the winner: side 1 if it holds the winning team, otherwise side 2. */
  function WinnerSide(m: BracketMatch, w: int): (side: nat)
    ensures side == 1 <==> m.slot1.teamId == Some(w)
    ensures side == 1 || side == 2
  {
    if m.slot1.teamId == Some(w) then 1 else 2
  }

  /** A recorded result: complete, the winner and both scores, and the winning side marked. */
  function MarkResult(m: BracketMatch, w: int, h: int, a: int): (r: BracketMatch)
    ensures SameShape(r, m) && r.isComplete && r.winnerTeamId == Some(w) && r.homeScore == h && r.awayScore == a
    ensures r.slot1 == (if WinnerSide(m, w) == 1 then m.slot1.(isWinner := true) else m.slot1)
    ensures r.slot2 == (if WinnerSide(m, w) == 2 then m.slot2.(isWinner := true) else m.slot2)
  {
    var won := m.slot1.teamId == Some(w);
    m.(isComplete := true, winnerTeamId := Some(w), homeScore := h, awayScore := a,
       slot1 := if won then m.slot1.(isWinner := true) else m.slot1,
       slot2 := if won then m.slot2 else m.slot2.(isWinner := true))
  }

  /** The advancing team's id, name and seed written into one side of a match. */
  function FillSide(m: BracketMatch, side: nat, teamId: int, name: Option<string>, seed: Option<int>): (r: BracketMatch)
    ensures SameShape(r, m) && r.isComplete == m.isComplete && r.winnerTeamId == m.winnerTeamId
  {
    if side == 1 then m.(slot1 := m.slot1.(teamId := Some(teamId), teamName := name, seed := seed))
    else m.(slot2 := m.slot2.(teamId := Some(teamId), teamName := name, seed := seed))
  }

  /**
   * record_knockout_result on the match at index k: mark it, then copy the winner into the
   * slot its winner_slot_id names, when bracket_slots has that slot. The id copied is the one
   * recorded, the name and seed those of the side marked as the winner.
   */
  function RecordKnockout(km: seq<BracketMatch>, k: nat, w: int, h: int, a: int): seq<BracketMatch>
    requires k < |km|
  {
    var m := km[k];
    var won := SideOf(m, WinnerSide(m, w));
    var marked := km[k := MarkResult(m, w, h, a)];
    match m.winnerSlotId
    case None => marked
    case Some(sid) =>
      match SlotIndex(sid)
      case None => marked
      case Some((j, side)) =>
        if j < |marked| then marked[j := FillSide(marked[j], side, w, won.teamName, won.seed)] else marked
  }

  /** Where the winner of knockout match k goes: the match index and side of the next stage. */
  function Feeds(k: nat): (nat, nat)
    requires k < 14
  {
    if k < 8 then (8 + k / 2, k % 2 + 1)
    else if k < 12 then (12 + (k - 8) / 2, (k - 8) % 2 + 1)
    else (14, (k - 12) % 2 + 1)
  }

  /** In the skeleton, match k's winner_slot_id is side Feeds(k).1 of match Feeds(k).0, one stage on. */
  lemma SkeletonFeeds(k: nat)
    requires k < 14
    ensures SkeletonAt(k).winnerSlotId == Some(SideOf(SkeletonAt(Feeds(k).0), Feeds(k).1).slotId)
    ensures SlotIndex(SkeletonAt(k).winnerSlotId.value) == Some(Feeds(k))
    ensures NextStage(StageAt(k)) == Some(StageAt(Feeds(k).0))
  {
    if k < 8 {
      RoundOf16Feeds(k);
      FedSide(QuarterFinal, k / 2, k % 2 + 1);
    } else if k < 12 {
      QuarterFinalFeeds(k);
      FedSide(SemiFinal, (k - 8) / 2, (k - 8) % 2 + 1);
    } else {
      SemiFinalFeeds(k);
      FedSide(Final, 0, k - 11);
    }
  }

  /** Side `side` of match i of stage s has the slot id that names it, and the lookup finds it there. */
  lemma FedSide(s: Stage, i: nat, side: nat)
    requires i < StageSize(s) && (side == 1 || side == 2)
    ensures SideOf(SkeletonMatch(s, i), side).slotId == SlotId(KnockoutMatchId(s, i + 1), side)
    ensures SlotIndex(SlotId(KnockoutMatchId(s, i + 1), side)) == Some((StageOffset(s) + i, side))
  {
    var id := KnockoutMatchId(s, i + 1);
    assert SkeletonMatch(s, i).slot1 == EmptySlot(id, 1, s, 2 * i);
    assert SkeletonMatch(s, i).slot2 == EmptySlot(id, 2, s, 2 * i + 1);
    assert KnockoutIndex(id) == Some(StageOffset(s) + i);
  }

  lemma RoundOf16Feeds(i: nat)
    requires i < 8
    ensures Feeds(i) == (8 + i / 2, i % 2 + 1) && i / 2 < StageSize(QuarterFinal)
    ensures SkeletonAt(i).winnerSlotId == Some(SlotId(KnockoutMatchId(QuarterFinal, i / 2 + 1), i % 2 + 1))
    ensures SkeletonAt(8 + i / 2) == SkeletonMatch(QuarterFinal, i / 2)
    ensures StageAt(i) == RoundOf16 && StageAt(8 + i / 2) == QuarterFinal && NextStage(RoundOf16) == Some(QuarterFinal)
  {
    assert StageAt(i) == RoundOf16 && i - StageOffset(RoundOf16) == i;
    assert SkeletonAt(i) == SkeletonMatch(RoundOf16, i);
    assert StageAt(8 + i / 2) == QuarterFinal && 8 + i / 2 - StageOffset(QuarterFinal) == i / 2;
  }

  lemma QuarterFinalFeeds(k: nat)
    requires 8 <= k < 12
    ensures Feeds(k) == (12 + (k - 8) / 2, (k - 8) % 2 + 1) && (k - 8) / 2 < StageSize(SemiFinal)
    ensures SkeletonAt(k).winnerSlotId == Some(SlotId(KnockoutMatchId(SemiFinal, (k - 8) / 2 + 1), (k - 8) % 2 + 1))
    ensures SkeletonAt(12 + (k - 8) / 2) == SkeletonMatch(SemiFinal, (k - 8) / 2)
    ensures StageAt(k) == QuarterFinal && StageAt(12 + (k - 8) / 2) == SemiFinal && NextStage(QuarterFinal) == Some(SemiFinal)
  {
    assert StageAt(k) == QuarterFinal && k - StageOffset(QuarterFinal) == k - 8;
    assert SkeletonAt(k) == SkeletonMatch(QuarterFinal, k - 8);
    assert StageAt(12 + (k - 8) / 2) == SemiFinal && 12 + (k - 8) / 2 - StageOffset(SemiFinal) == (k - 8) / 2;
  }

  lemma SemiFinalFeeds(k: nat)
    requires 12 <= k < 14
    ensures Feeds(k) == (14, k - 11)
    ensures SkeletonAt(k).winnerSlotId == Some(SlotId(KnockoutMatchId(Final, 1), k - 11))
    ensures SkeletonAt(14) == SkeletonMatch(Final, 0)
    ensures StageAt(k) == SemiFinal && StageAt(14) == Final && NextStage(SemiFinal) == Some(Final)
  {
    assert StageAt(k) == SemiFinal && k - StageOffset(SemiFinal) == k - 12;
    assert SkeletonAt(k) == SkeletonMatch(SemiFinal, k - 12);
  }

  /** winner_slot_id names Feeds(k), which is a slot of the following stage, and the final feeds nothing. */
  lemma FeedsNextStage(km: seq<BracketMatch>, k: nat)
    requires KnockoutShaped(km) && k < 15
    ensures k == 14 <==> km[k].winnerSlotId.None?
    ensures k < 14 ==> SlotIndex(km[k].winnerSlotId.value) == Some(Feeds(k)) &&
                       SideOf(km[Feeds(k).0], Feeds(k).1).slotId == km[k].winnerSlotId.value &&
                       NextStage(StageAt(k)) == Some(StageAt(Feeds(k).0))
  {
    assert SameShape(km[k], SkeletonAt(k));
    if k < 14 {
      SkeletonFeeds(k);
      assert SameShape(km[Feeds(k).0], SkeletonAt(Feeds(k).0));
    }
  }

  /** The knockout is a tree: two matches never feed the same slot, and every slot after the round of 16 is fed. */
  lemma FeedsIsTree(k: nat, k': nat, j: nat, side: nat)
    requires k < 14 && k' < 14 && 8 <= j < 15 && (side == 1 || side == 2)
    ensures k != k' ==> Feeds(k) != Feeds(k')
    ensures exists x :: 0 <= x < 14 && Feeds(x) == (j, side)
  {
    var x := if j < 12 then 2 * (j - 8) + side - 1 else if j < 14 then 8 + 2 * (j - 12) + side - 1 else 12 + side - 1;
    assert Feeds(x) == (j, side);
  }

  lemma RecordKnockoutShape(km: seq<BracketMatch>, k: nat, w: int, h: int, a: int)
    requires KnockoutShaped(km) && k < 15
    ensures KnockoutShaped(RecordKnockout(km, k, w, h, a))
  {
    var r := RecordKnockout(km, k, w, h, a);
    forall x | 0 <= x < 15 ensures SameShape(r[x], SkeletonAt(x)) {
      assert SameShape(km[x], SkeletonAt(x));
    }
  }

  /**
   * A knockout result advances the winner: the match is marked, the slot it feeds receives the
   * recorded id with the name and seed of the winning side, and nothing else changes.
   */
  lemma WinnerAdvances(km: seq<BracketMatch>, k: nat, w: int, h: int, a: int)
    requires KnockoutShaped(km) && k < 14
    ensures var r := RecordKnockout(km, k, w, h, a);
            var won := SideOf(km[k], WinnerSide(km[k], w));
            var (j, side) := Feeds(k);
            |r| == 15 && r[k] == MarkResult(km[k], w, h, a) &&
            SideOf(r[j], side).teamId == Some(w) &&
            SideOf(r[j], side).teamName == won.teamName && SideOf(r[j], side).seed == won.seed &&
            SideOf(r[j], 3 - side) == SideOf(km[j], 3 - side) &&
            r[j].isComplete == km[j].isComplete && r[j].winnerTeamId == km[j].winnerTeamId &&
            forall x :: 0 <= x < 15 && x != k && x != j ==> r[x] == km[x]
  {
    FeedsNextStage(km, k);
  }

  /** The final feeds nothing: recording it only marks it. */
  lemma FinalOnlyMarks(km: seq<BracketMatch>, w: int, h: int, a: int)
    requires KnockoutShaped(km)
    ensures RecordKnockout(km, 14, w, h, a) == km[14 := MarkResult(km[14], w, h, a)]
  {
    FeedsNextStage(km, 14);
  }

  /** all(m.is_complete for m in matches if m.stage == s) */
  predicate StageComplete(km: seq<BracketMatch>, s: Stage) {
    forall k :: 0 <= k < |km| && km[k].stage == s ==> km[k].isComplete
  }

  /** _check_stage_advancement: when every match of the stage is complete, the current stage becomes the next one. */
  function StageAfterCheck(current: Stage, km: seq<BracketMatch>, s: Stage): (r: Stage)
    ensures StageComplete(km, s) && s != Completed ==> StageIndex(r) == StageIndex(s) + 1
    ensures !StageComplete(km, s) || s == Completed ==> r == current
  {
    if StageComplete(km, s) then NextStage(s).GetOr(current) else current
  }

  /** In a shaped bracket a stage is complete exactly when its own StageSize matches are. */
  lemma StageCompleteRange(km: seq<BracketMatch>, s: Stage)
    requires KnockoutShaped(km)
    ensures StageComplete(km, s) <==>
            forall k :: StageOffset(s) <= k < StageOffset(s) + StageSize(s) ==> k < 15 && km[k].isComplete
  {
    forall k | 0 <= k < 15 ensures km[k].stage == s <==> StageOffset(s) <= k < StageOffset(s) + StageSize(s) {
      assert SameShape(km[k], SkeletonAt(k));
      StageRange(s, k);
    }
    assert StageOffset(s) + StageSize(s) <= 15;
    if StageComplete(km, s) {
      forall k | StageOffset(s) <= k < StageOffset(s) + StageSize(s) ensures k < 15 && km[k].isComplete {
        assert km[k].stage == s;
      }
    }
    if forall k :: StageOffset(s) <= k < StageOffset(s) + StageSize(s) ==> k < 15 && km[k].isComplete {
      forall k | 0 <= k < |km| && km[k].stage == s ensures km[k].isComplete {
        assert StageOffset(s) <= k < StageOffset(s) + StageSize(s);
      }
    }
  }

  /** Recording the final completes the tournament, whatever happened in the earlier stages. */
  lemma FinalCompletesTournament(km: seq<BracketMatch>, current: Stage, w: int, h: int, a: int)
    requires KnockoutShaped(km)
    ensures StageAfterCheck(current, RecordKnockout(km, 14, w, h, a), km[14].stage) == Completed
  {
    FinalOnlyMarks(km, w, h, a);
    RecordKnockoutShape(km, 14, w, h, a);
    assert SameShape(km[14], SkeletonAt(14));
    StageCompleteRange(RecordKnockout(km, 14, w, h, a), Final);
  }

  /** record_knockout_result on the knockout matches and the current stage, from looking the match up to the stage check. */
  ghost predicate KnockoutRecorded(km: seq<BracketMatch>, current: Stage, id: MatchId, w: int, h: int, a: int,
                                   ok: bool, km': seq<BracketMatch>, stage: Stage) {
    (ok <==> FindMatch(km, id).Some?) &&
    (ok ==> var k := FindMatch(km, id).value;
            k < 15 && KnockoutIndex(id) == Some(k) && km' == RecordKnockout(km, k, w, h, a) &&
            stage == StageAfterCheck(current, km', km[k].stage)) &&
    (!ok ==> km' == km && stage == current)
  }

  method KnockoutResultStep(ghost groups: seq<seq<int>>, ghost standings: seq<seq<GroupStanding>>,
                            ghost groupMatches: seq<BracketMatch>,
                            km: seq<BracketMatch>, current: Stage, id: MatchId, w: int, h: int, a: int)
      returns (ok: bool, km': seq<BracketMatch>, stage: Stage)
    requires BracketInvariant(groups, standings, groupMatches, km)
    ensures BracketInvariant(groups, standings, groupMatches, km')
    ensures ok <==> FindMatch(km, id).Some?
    ensures ok ==> var k := FindMatch(km, id).value;
                   k < 15 && KnockoutIndex(id) == Some(k) && km' == RecordKnockout(km, k, w, h, a) &&
                   KnockoutShaped(km') && stage == StageAfterCheck(current, km', km[k].stage)
    ensures !ok ==> km' == km && stage == current
    ensures KnockoutRecorded(km, current, id, w, h, a, ok, km', stage)
  {
    var found := FindMatch(km, id);
    if found.None? {
      return false, km, current;
    }
    ShapedFind(km, id);
    km', stage := ApplyKnockoutResult(km, current, found.value, w, h, a);
    return true, km', stage;
  }

  /**
   * The updates of record_knockout_result on the match at index k: the result, the winner slot,
   * the advance into the slot bracket_slots holds for winner_slot_id, and the stage check.
   */
  method ApplyKnockoutResult(km: seq<BracketMatch>, current: Stage, k: nat, w: int, h: int, a: int)
      returns (km': seq<BracketMatch>, stage: Stage)
    requires KnockoutShaped(km) && k < 15
    ensures km' == RecordKnockout(km, k, w, h, a) && KnockoutShaped(km')
    ensures stage == StageAfterCheck(current, km', km[k].stage)
  {
    RecordKnockoutShape(km, k, w, h, a);
    var m := km[k];
    var won := if m.slot1.teamId == Some(w) then m.slot1 else m.slot2;
    km' := km[k := MarkResult(m, w, h, a)];
    if m.winnerSlotId.Some? {
      var place := SlotIndex(m.winnerSlotId.value);
      if place.Some? {
        var (j, side) := place.value;
        km' := km'[j := FillSide(km'[j], side, w, won.teamName, won.seed)];
      }
    }
    stage := current;
    if StageComplete(km', m.stage) {
      var i := StageIndex(m.stage);
      if i + 1 < |Stages| {
        stage := Stages[i + 1];
      }
    }
  }

  // ---------------------------------------------------------------------------------------
  // Standings

  /** played counts the wins and the losses. */
  predicate Balanced(st: GroupStanding) {
    st.played == st.wins + st.losses && st.wins >= 0 && st.losses >= 0
  }

  /**
   * The update record_group_result applies to one standing: the home team's (checked first),
   * else the away team's, else none.
   */
  function RecordInStanding(st: GroupStanding, t1: Option<int>, t2: Option<int>, w: int, h: int, a: int): GroupStanding {
    if Some(st.teamId) == t1 then
      st.(played := st.played + 1, apScored := st.apScored + h, apConceded := st.apConceded + a,
          wins := if Some(w) == t1 then st.wins + 1 else st.wins,
          losses := if Some(w) == t1 then st.losses else st.losses + 1)
    else if Some(st.teamId) == t2 then
      st.(played := st.played + 1, apScored := st.apScored + a, apConceded := st.apConceded + h,
          wins := if Some(w) == t2 then st.wins + 1 else st.wins,
          losses := if Some(w) == t2 then st.losses else st.losses + 1)
    else st
  }

  /** A result keeps every standing balanced, and the fields that identify it. */
  lemma RecordKeepsBalance(st: GroupStanding, t1: Option<int>, t2: Option<int>, w: int, h: int, a: int)
    requires Balanced(st)
    ensures Balanced(RecordInStanding(st, t1, t2, w, h, a))
    ensures RecordInStanding(st, t1, t2, w, h, a).teamId == st.teamId
    ensures RecordInStanding(st, t1, t2, w, h, a).teamName == st.teamName
    ensures RecordInStanding(st, t1, t2, w, h, a).group == st.group
  {
  }

  /**
   * A group result between two different teams: each plays once more, the AP differentials
   * move by opposite amounts, the winner gains three points, and a winner that played in
   * neither slot leaves both teams with a loss.
   */
  lemma ResultIsZeroSum(st1: GroupStanding, st2: GroupStanding, t1: Option<int>, t2: Option<int>, w: int, h: int, a: int)
    requires Some(st1.teamId) == t1 && Some(st2.teamId) == t2 && t1 != t2
    ensures var r1, r2 := RecordInStanding(st1, t1, t2, w, h, a), RecordInStanding(st2, t1, t2, w, h, a);
            r1.played == st1.played + 1 && r2.played == st2.played + 1 &&
            r1.ApDifferential() - st1.ApDifferential() == h - a &&
            r2.ApDifferential() - st2.ApDifferential() == a - h &&
            r1.Points() == st1.Points() + (if Some(w) == t1 then 3 else 0) &&
            r2.Points() == st2.Points() + (if Some(w) == t2 then 3 else 0) &&
            (r1.wins - st1.wins) + (r2.wins - st2.wins) == (if Some(w) == t1 || Some(w) == t2 then 1 else 0) &&
            (r1.losses - st1.losses) + (r2.losses - st2.losses) == (if Some(w) == t1 || Some(w) == t2 then 1 else 2)
  {
  }

  /** A team that played in neither slot keeps its standing. */
  lemma BystanderUnchanged(st: GroupStanding, t1: Option<int>, t2: Option<int>, w: int, h: int, a: int)
    requires Some(st.teamId) != t1 && Some(st.teamId) != t2
    ensures RecordInStanding(st, t1, t2, w, h, a) == st
  {
  }

  /** record_group_result does not check is_complete: recording a result again counts it again. */
  lemma RecordedTwiceCountsTwice(st: GroupStanding, t1: Option<int>, t2: Option<int>, w: int, h: int, a: int)
    requires Some(st.teamId) == t1
    ensures var r := RecordInStanding(RecordInStanding(st, t1, t2, w, h, a), t1, t2, w, h, a);
            r.played == st.played + 2 && r.apScored == st.apScored + 2 * h
  {
  }

  /** One group's standings after a result. */
  function RowAfterResult(row: seq<GroupStanding>, t1: Option<int>, t2: Option<int>, w: int, h: int, a: int):
      (r: seq<GroupStanding>)
    ensures |r| == |row| && forall i :: 0 <= i < |row| ==> r[i] == RecordInStanding(row[i], t1, t2, w, h, a)
  {
    seq(|row|, i requires 0 <= i < |row| => RecordInStanding(row[i], t1, t2, w, h, a))
  }

  /** Every group's standings after a result. */
  function AfterResult(standings: seq<seq<GroupStanding>>, t1: Option<int>, t2: Option<int>, w: int, h: int, a: int):
      (r: seq<seq<GroupStanding>>)
    ensures |r| == |standings| && forall g :: 0 <= g < |standings| ==> r[g] == RowAfterResult(standings[g], t1, t2, w, h, a)
  {
    seq(|standings|, g requires 0 <= g < |standings| => RowAfterResult(standings[g], t1, t2, w, h, a))
  }

  /** Every standing of every group is balanced. */
  ghost predicate AllBalanced(standings: seq<seq<GroupStanding>>) {
    forall g, i :: 0 <= g < |standings| && 0 <= i < |standings[g]| ==> Balanced(standings[g][i])
  }

  lemma AfterResultBalanced(standings: seq<seq<GroupStanding>>, t1: Option<int>, t2: Option<int>, w: int, h: int, a: int)
    requires AllBalanced(standings)
    ensures AllBalanced(AfterResult(standings, t1, t2, w, h, a))
  {
    forall g, i | 0 <= g < |standings| && 0 <= i < |standings[g]|
      ensures Balanced(AfterResult(standings, t1, t2, w, h, a)[g][i])
    {
      RecordKeepsBalance(standings[g][i], t1, t2, w, h, a);
    }
  }

  /** The standings loop of record_group_result: every standing of every group, updated in place. */
  method UpdateStandings(standings: seq<seq<GroupStanding>>, t1: Option<int>, t2: Option<int>, w: int, h: int, a: int)
      returns (r: seq<seq<GroupStanding>>)
    ensures r == AfterResult(standings, t1, t2, w, h, a)
  {
    r := standings;
    for g := 0 to |r|
      invariant |r| == |standings|
      invariant forall x :: 0 <= x < g ==> r[x] == RowAfterResult(standings[x], t1, t2, w, h, a)
      invariant forall x :: g <= x < |r| ==> r[x] == standings[x]
    {
      var row := r[g];
      for i := 0 to |row|
        invariant |row| == |standings[g]|
        invariant forall y :: 0 <= y < i ==> row[y] == RecordInStanding(standings[g][y], t1, t2, w, h, a)
        invariant forall y :: i <= y < |row| ==> row[y] == standings[g][y]
      {
        row := row[i := RecordInStanding(row[i], t1, t2, w, h, a)];
      }
      r := r[g := row];
    }
  }

  // ---------------------------------------------------------------------------------------
  // Ranking and qualifiers

  /** The sort key (points, AP differential, AP scored), compared lexicographically: a ranks at or above b. */
  predicate RanksAtLeast(a: GroupStanding, b: GroupStanding) {
    a.Points() > b.Points() ||
    (a.Points() == b.Points() &&
     (a.ApDifferential() > b.ApDifferential() ||
      (a.ApDifferential() == b.ApDifferential() && a.apScored >= b.apScored)))
  }

  lemma RanksAtLeastIsPreorder()
    ensures Sorting.TotalPreorder(RanksAtLeast)
  {
  }

  /** get_group_standings' `sorted(..., reverse=True)`: best first, ties in their listed order. */
  function Ranked(row: seq<GroupStanding>): seq<GroupStanding> {
    Sorting.SortBy(row, RanksAtLeast)
  }

  /**
   * The ranked standings are the group's standings, reordered so each ranks at least every
   * later one; standings tied on points, AP differential and AP scored keep their listed order.
   */
  lemma RankedCorrect(row: seq<GroupStanding>)
    ensures multiset(Ranked(row)) == multiset(row) && |Ranked(row)| == |row|
    ensures forall i, j :: 0 <= i < j < |row| ==> RanksAtLeast(Ranked(row)[i], Ranked(row)[j])
    ensures forall k :: Sorting.Ties(Ranked(row), k, RanksAtLeast) == Sorting.Ties(row, k, RanksAtLeast)
  {
    RanksAtLeastIsPreorder();
    Sorting.SortByCorrect(row, RanksAtLeast);
  }

  lemma RankedLength(row: seq<GroupStanding>)
    ensures |Ranked(row)| == |row|
  {
    Sorting.SortByLength(row, RanksAtLeast);
  }

  /** (team_id, team_name, seed) of a team that leaves the group stage. */
  datatype Qualifier = Qualifier(teamId: int, teamName: string, seed: int)

  /** The top two of group g, seeded 2g + 1 and 2g + 2; a group with fewer than two teams sends none. */
  function GroupQualifiers(ranked: seq<GroupStanding>, g: nat): seq<Qualifier> {
    if |ranked| >= 2 then
      [Qualifier(ranked[0].teamId, ranked[0].teamName, g * 2 + 1), Qualifier(ranked[1].teamId, ranked[1].teamName, g * 2 + 2)]
    else []
  }

  /** The qualifiers of groups 0 .. n-1, in group order. */
  function QualifiersOf(standings: seq<seq<GroupStanding>>, n: nat): seq<Qualifier>
    requires n <= |standings|
    decreases n
  {
    if n == 0 then [] else QualifiersOf(standings, n - 1) + GroupQualifiers(Ranked(standings[n - 1]), n - 1)
  }

  /** The qualifier loop of advance_to_knockout. Group names sort in index order, so groups are taken in order. */
  method CollectQualifiers(standings: seq<seq<GroupStanding>>) returns (q: seq<Qualifier>)
    ensures q == QualifiersOf(standings, |standings|)
  {
    q := [];
    for g := 0 to |standings|
      invariant q == QualifiersOf(standings, g)
    {
      var ranked := Ranked(standings[g]);
      if |ranked| >= 2 {
        q := q + [Qualifier(ranked[0].teamId, ranked[0].teamName, g * 2 + 1)];
        q := q + [Qualifier(ranked[1].teamId, ranked[1].teamName, g * 2 + 2)];
      }
    }
  }

  /**
   * When every group has at least two teams, qualifier 2g is group g's winner, seeded 2g + 1,
   * and qualifier 2g + 1 its runner-up, seeded 2g + 2.
   */
  lemma {:induction false} QualifierLayout(standings: seq<seq<GroupStanding>>, n: nat, g: nat)
    requires n <= |standings| && g < n
    requires forall x :: 0 <= x < n ==> |standings[x]| >= 2
    ensures |QualifiersOf(standings, n)| == 2 * n
    ensures |Ranked(standings[g])| >= 2
    ensures QualifiersOf(standings, n)[2 * g] == Qualifier(Ranked(standings[g])[0].teamId, Ranked(standings[g])[0].teamName, 2 * g + 1)
    ensures QualifiersOf(standings, n)[2 * g + 1] == Qualifier(Ranked(standings[g])[1].teamId, Ranked(standings[g])[1].teamName, 2 * g + 2)
    decreases n
  {
    RankedLength(standings[n - 1]);
    RankedLength(standings[g]);
    if g < n - 1 {
      QualifierLayout(standings, n - 1, g);
    } else if n - 1 > 0 {
      QualifierLayout(standings, n - 1, 0);
    }
  }

  /** The group winner ranks at least every team of its group. */
  lemma WinnerRanksFirst(row: seq<GroupStanding>, x: GroupStanding)
    requires x in row
    ensures RanksAtLeast(Ranked(row)[0], x)
  {
    RankedCorrect(row);
    assert x in multiset(Ranked(row));
    var i :| 0 <= i < |Ranked(row)| && Ranked(row)[i] == x;
  }

  // ---------------------------------------------------------------------------------------
  // Seating the round of 16

  /** bracket_order: the qualifier indices for sides 1 and 2 of the eight round-of-16 matches. */
  const BracketOrder: seq<(nat, nat)> := [(0, 3), (4, 7), (2, 1), (6, 5), (1, 2), (5, 6), (3, 0), (7, 4)]

  /** The qualifier index seated on one side of round-of-16 match i. */
  function Seated(i: nat, side: nat): nat
    requires i < 8
  {
    if side == 1 then BracketOrder[i].0 else BracketOrder[i].1
  }

  function SeatSlot(s: BracketSlot, q: Qualifier): BracketSlot {
    s.(teamId := Some(q.teamId), teamName := Some(q.teamName), seed := Some(q.seed))
  }

  /** Round-of-16 match i with its qualifiers seated, when the list holds both of them. */
  function SeatMatch(m: BracketMatch, i: nat, q: seq<Qualifier>): BracketMatch
    requires i < 8
  {
    if Seated(i, 1) < |q| && Seated(i, 2) < |q| then
      m.(slot1 := SeatSlot(m.slot1, q[Seated(i, 1)]), slot2 := SeatSlot(m.slot2, q[Seated(i, 2)]))
    else m
  }

  /** The knockout matches after seating: the first eight are the round of 16. */
  function Placed(km: seq<BracketMatch>, q: seq<Qualifier>): (r: seq<BracketMatch>)
    requires |km| >= 8
    ensures |r| == |km| && forall k :: 8 <= k < |km| ==> r[k] == km[k]
    ensures forall k :: 0 <= k < 8 ==> r[k] == SeatMatch(km[k], k, q)
  {
    seq(|km|, k requires 0 <= k < |km| => if k < 8 then SeatMatch(km[k], k, q) else km[k])
  }

  /** The seating loop of advance_to_knockout, over the round-of-16 matches in order. */
  method PlaceQualifiers(km: seq<BracketMatch>, q: seq<Qualifier>) returns (km': seq<BracketMatch>)
    requires |km| >= 8 && forall k :: 0 <= k < 8 ==> km[k].stage == RoundOf16
    ensures km' == Placed(km, q)
  {
    km' := km;
    for i := 0 to 8
      invariant |km'| == |km|
      invariant forall k :: 0 <= k < i ==> km'[k] == SeatMatch(km[k], k, q)
      invariant forall k :: i <= k < |km| ==> km'[k] == km[k]
    {
      var (idx1, idx2) := BracketOrder[i];
      if idx1 < |q| && idx2 < |q| {
        var m := km'[i];
        km' := km'[i := m.(slot1 := SeatSlot(m.slot1, q[idx1]), slot2 := SeatSlot(m.slot2, q[idx2]))];
      }
    }
  }

  lemma PlacedShape(km: seq<BracketMatch>, q: seq<Qualifier>)
    requires KnockoutShaped(km)
    ensures KnockoutShaped(Placed(km, q))
  {
    forall k | 0 <= k < 15 ensures SameShape(Placed(km, q)[k], SkeletonAt(k)) {
      assert SameShape(km[k], SkeletonAt(k));
    }
  }

  /** Every round-of-16 match pairs a group winner (even index) with a runner-up of another group. */
  lemma WinnerMeetsOtherRunnerUp(i: nat)
    requires i < 8
    ensures Seated(i, 1) % 2 != Seated(i, 2) % 2 && Seated(i, 1) / 2 != Seated(i, 2) / 2
  {
  }

  const FirstSeats: seq<(nat, nat)> := [(0, 1), (2, 2), (2, 1), (0, 2), (1, 1), (3, 2), (3, 1), (1, 2)]
  const SecondSeats: seq<(nat, nat)> := [(6, 2), (4, 1), (4, 2), (6, 1), (7, 2), (5, 1), (5, 2), (7, 1)]

  /**
   * Eight qualifiers fill sixteen seats: each qualifier is seated in exactly two round-of-16
   * matches, FirstSeats[x] and SecondSeats[x], so every pairing is played twice with sides swapped.
   */
  lemma SeatedTwice(x: nat, i: nat, side: nat)
    requires x < 8 && i < 8 && (side == 1 || side == 2)
    ensures FirstSeats[x] != SecondSeats[x]
    ensures Seated(i, side) == x <==> (i, side) == FirstSeats[x] || (i, side) == SecondSeats[x]
  {
  }

  /** Round-of-16 matches i and Rematch(i) hold the same two qualifiers, sides swapped. */
  function Rematch(i: nat): nat
    requires i < 8
  {
    [6, 7, 4, 5, 2, 3, 0, 1][i]
  }

  lemma RematchSwapsSides(i: nat)
    requires i < 8
    ensures Rematch(i) < 8 && Rematch(i) != i && Rematch(Rematch(i)) == i
    ensures Seated(Rematch(i), 1) == Seated(i, 2) && Seated(Rematch(i), 2) == Seated(i, 1)
  {
  }

  /** With at least eight qualifiers every seat is filled with the qualifier bracket_order names. */
  lemma SeatsFilled(km: seq<BracketMatch>, q: seq<Qualifier>, i: nat, side: nat)
    requires |km| >= 8 && |q| >= 8 && i < 8 && (side == 1 || side == 2)
    ensures SideOf(Placed(km, q)[i], side) == SeatSlot(SideOf(km[i], side), q[Seated(i, side)])
  {
  }

  // ---------------------------------------------------------------------------------------
  // The bracket

  /** A match still to play, of stage `s` when one is given. */
  predicate IsOpen(m: BracketMatch, s: Option<Stage>) {
    !m.isComplete && (s.None? || m.stage == s.value)
  }

  /** The positions from `i` on of the matches still to play, increasing, and every one of them. */
  function OpenIndicesFrom(ms: seq<BracketMatch>, s: Option<Stage>, i: nat): (ix: seq<nat>)
    requires i <= |ms|
    decreases |ms| - i
    ensures forall k :: 0 <= k < |ix| ==> i <= ix[k] < |ms| && IsOpen(ms[ix[k]], s)
    ensures forall k, l :: 0 <= k < l < |ix| ==> ix[k] < ix[l]
    ensures forall j :: i <= j < |ms| && IsOpen(ms[j], s) ==> j in ix
  {
    if i == |ms| then [] else (if IsOpen(ms[i], s) then [i] else []) + OpenIndicesFrom(ms, s, i + 1)
  }

  /** The list comprehension over `ms[i..]`. */
  function PendingFrom(ms: seq<BracketMatch>, s: Option<Stage>, i: nat): (r: seq<BracketMatch>)
    requires i <= |ms|
    decreases |ms| - i
    ensures |r| == |OpenIndicesFrom(ms, s, i)|
    ensures forall k :: 0 <= k < |r| ==> r[k] == ms[OpenIndicesFrom(ms, s, i)[k]]
  {
    if i == |ms| then [] else (if IsOpen(ms[i], s) then [ms[i]] else []) + PendingFrom(ms, s, i + 1)
  }

  /**
   * The matches still to play, optionally of one stage only, in list order: the k-th result
   * is the match at the k-th of the increasing positions of the open matches.
   */
  function Pending(ms: seq<BracketMatch>, s: Option<Stage>): (r: seq<BracketMatch>)
    ensures |r| <= |ms|
    ensures |r| == |OpenIndicesFrom(ms, s, 0)|
    ensures forall k :: 0 <= k < |r| ==> r[k] == ms[OpenIndicesFrom(ms, s, 0)[k]]
    ensures forall m :: m in r <==> m in ms && !m.isComplete && (s.None? || m.stage == s.value)
  {
    PendingMembers(ms, s);
    OpenIndicesBound(ms, s, 0);
    PendingFrom(ms, s, 0)
  }

  /** A match is pending exactly when the list holds it open. */
  lemma PendingMembers(ms: seq<BracketMatch>, s: Option<Stage>)
    ensures forall m :: m in PendingFrom(ms, s, 0) <==> m in ms && IsOpen(m, s)
  {
    var r := PendingFrom(ms, s, 0);
    var ix := OpenIndicesFrom(ms, s, 0);
    forall m | m in ms && IsOpen(m, s) ensures m in r {
      var j :| 0 <= j < |ms| && ms[j] == m;
      var k :| 0 <= k < |ix| && ix[k] == j;
      assert r[k] == m;
    }
    forall m | m in r ensures m in ms && IsOpen(m, s) {
      var k :| 0 <= k < |r| && r[k] == m;
      assert m == ms[ix[k]];
    }
  }

  lemma {:induction false} OpenIndicesBound(ms: seq<BracketMatch>, s: Option<Stage>, i: nat)
    requires i <= |ms|
    decreases |ms| - i
    ensures |OpenIndicesFrom(ms, s, i)| <= |ms| - i
  {
    if i < |ms| {
      OpenIndicesBound(ms, s, i + 1);
    }
  }

  /** Fresh standings are balanced. */
  lemma SeededBalanced(teams: seq<Team>, count: nat, rows: nat, groups: seq<seq<int>>, standings: seq<seq<GroupStanding>>)
    requires rows * count <= |teams| && SeededUpTo(teams, count, rows, groups, standings)
    ensures AllBalanced(standings)
  {
    forall g, i | 0 <= g < |standings| && 0 <= i < |standings[g]| ensures Balanced(standings[g][i]) {
      assert standings[g] == NewStandings(SeededTeams(teams, count, rows, g), g);
    }
  }

  /**
   * Every group has its standings, the knockout bracket is either not built yet (before any
   * initialisation) or has the skeleton's shape, and every standing counts its wins and losses.
   */
  ghost predicate BracketInvariant(groups: seq<seq<int>>, standings: seq<seq<GroupStanding>>,
                                   groupMatches: seq<BracketMatch>, knockoutMatches: seq<BracketMatch>) {
    |standings| == |groups| &&
    ((knockoutMatches == [] && groups == [] && groupMatches == []) || KnockoutShaped(knockoutMatches)) &&
    AllBalanced(standings)
  }

  class TournamentBracket {
    const tournamentId: Option<int>
    var currentStage: Stage
    /** Group g's team ids, in seeding order. */
    var groups: seq<seq<int>>
    var groupStandings: seq<seq<GroupStanding>>
    var groupMatches: seq<BracketMatch>
    var knockoutMatches: seq<BracketMatch>
    /** team id to name */
    var teams: map<int, string>

    ghost predicate Valid()
      reads this
    {
      BracketInvariant(groups, groupStandings, groupMatches, knockoutMatches)
    }

    constructor (tournamentId: Option<int>)
      ensures Valid()
      ensures this.tournamentId == tournamentId && currentStage == GroupStage
      ensures groups == [] && groupStandings == [] && groupMatches == [] && knockoutMatches == [] && teams == map[]
    {
      this.tournamentId := tournamentId;
      currentStage := GroupStage;
      groups := [];
      groupStandings := [];
      groupMatches := [];
      knockoutMatches := [];
      teams := map[];
    }

    /**
     * initialize_tournament: refuses (ValueError) unless there are exactly G * T teams;
     * otherwise names, serpentine groups, round-robin matches and the empty knockout skeleton,
     * back to the group stage.
     */
    method InitializeTournament(teamList: seq<Team>, numGroups: int, teamsPerGroup: int) returns (ok: bool)
      requires Valid()
      modifies this
      ensures Valid()
      ensures ok <==> |teamList| == numGroups * teamsPerGroup
      ensures !ok ==> unchanged(this)
      ensures ok ==> teams == TeamNames(teamList) && currentStage == GroupStage &&
                     |groups| == GroupCount(numGroups) && |groupStandings| == |groups| &&
                     groupMatches == GroupMatches(groups, teams) && knockoutMatches == Skeleton()
      ensures ok && |groups| > 0 ==> teamsPerGroup >= 0 && |teamList| == |groups| * teamsPerGroup &&
                                     SeededUpTo(teamList, |groups|, teamsPerGroup, groups, groupStandings)
    {
      if |teamList| != numGroups * teamsPerGroup {
        return false;
      }
      var names := TeamNames(teamList);
      var gs, ss := SeedGroups(teamList, numGroups, teamsPerGroup);
      var gm := GenerateGroupMatches(gs, names);
      var km := InitializeKnockoutBracket();
      SkeletonShaped();
      if |gs| > 0 {
        SeededBalanced(teamList, |gs|, teamsPerGroup, gs, ss);
      }
      teams, groups, groupStandings, groupMatches, knockoutMatches := names, gs, ss, gm, km;
      currentStage := GroupStage;
      return true;
    }

    /**
     * record_group_result: refuses (ValueError) an unknown match id; otherwise marks the first
     * group match with the id and applies the result to every standing of every group.
     */
    method RecordGroupResult(id: MatchId, w: int, h: int, a: int) returns (ok: bool)
      requires Valid()
      modifies this
      ensures Valid()
      ensures ok <==> FindMatch(old(groupMatches), id).Some?
      ensures !ok ==> unchanged(this)
      ensures ok ==> var k := FindMatch(old(groupMatches), id).value;
                     var m := old(groupMatches)[k];
                     groupMatches == old(groupMatches)[k := MarkResult(m, w, h, a)] &&
                     groupStandings == AfterResult(old(groupStandings), m.slot1.teamId, m.slot2.teamId, w, h, a)
      ensures unchanged(this`groups, this`knockoutMatches, this`teams, this`currentStage)
    {
      var found := FindMatch(groupMatches, id);
      if found.None? {
        return false;
      }
      var k := found.value;
      var m := groupMatches[k];
      AfterResultBalanced(groupStandings, m.slot1.teamId, m.slot2.teamId, w, h, a);
      var updated := UpdateStandings(groupStandings, m.slot1.teamId, m.slot2.teamId, w, h, a);
      groupMatches := groupMatches[k := MarkResult(m, w, h, a)];
      groupStandings := updated;
      return true;
    }

    /** get_group_standings: group g's standings ranked best first, or none for a group that does not exist. */
    function GetGroupStandings(g: int): (r: seq<GroupStanding>)
      reads this
      ensures !(0 <= g < |groupStandings|) ==> r == []
      ensures 0 <= g < |groupStandings| ==>
                multiset(r) == multiset(groupStandings[g]) &&
                forall i, j :: 0 <= i < j < |r| ==> RanksAtLeast(r[i], r[j])
    {
      if 0 <= g < |groupStandings| then
        RankedCorrect(groupStandings[g]);
        Ranked(groupStandings[g])
      else []
    }

    /** is_group_stage_complete; vacuously true with no group matches. */
    function IsGroupStageComplete(): (b: bool)
      reads this
      ensures b <==> forall k :: 0 <= k < |groupMatches| ==> groupMatches[k].isComplete
    {
      forall k :: 0 <= k < |groupMatches| ==> groupMatches[k].isComplete
    }

    /**
     * advance_to_knockout: refuses (RuntimeError) while a group match is open; otherwise seats
     * the top two of every group in the round of 16 by bracket_order and moves to that stage.
     */
    method AdvanceToKnockout() returns (ok: bool)
      requires Valid()
      modifies this
      ensures Valid()
      ensures ok <==> old(IsGroupStageComplete())
      ensures !ok ==> unchanged(this)
      ensures ok ==> currentStage == RoundOf16 &&
                     knockoutMatches == (if old(knockoutMatches) == [] then []
                                         else Placed(old(knockoutMatches), QualifiersOf(old(groupStandings), |old(groupStandings)|)))
      ensures unchanged(this`groups, this`groupStandings, this`groupMatches, this`teams)
    {
      if !IsGroupStageComplete() {
        return false;
      }
      var q := CollectQualifiers(groupStandings);
      if knockoutMatches != [] {
        forall k | 0 <= k < 8 ensures knockoutMatches[k].stage == RoundOf16 {
          assert SameShape(knockoutMatches[k], SkeletonAt(k));
        }
        PlacedShape(knockoutMatches, q);
        knockoutMatches := PlaceQualifiers(knockoutMatches, q);
      }
      currentStage := RoundOf16;
      return true;
    }

    /**
     * record_knockout_result: refuses (ValueError) an unknown match id; otherwise records the
     * result, advances the winner and checks whether the match's stage is now complete.
     */
    method RecordKnockoutResult(id: MatchId, w: int, h: int, a: int) returns (ok: bool)
      requires Valid()
      modifies this
      ensures Valid()
      ensures KnockoutRecorded(old(knockoutMatches), old(currentStage), id, w, h, a, ok, knockoutMatches, currentStage)
      ensures unchanged(this`groups, this`groupStandings, this`groupMatches, this`teams)
    {
      var km, stage;
      ok, km, stage := KnockoutResultStep(groups, groupStandings, groupMatches, knockoutMatches, currentStage, id, w, h, a);
      knockoutMatches, currentStage := km, stage;
    }

    /** get_upcoming_matches: the open group matches in the group stage, else the open matches of the current stage. */
    function GetUpcomingMatches(): (r: seq<BracketMatch>)
      reads this
      ensures currentStage == GroupStage ==> forall m :: m in r <==> m in groupMatches && !m.isComplete
      ensures currentStage != GroupStage ==>
                forall m :: m in r <==> m in knockoutMatches && !m.isComplete && m.stage == currentStage
      ensures currentStage == GroupStage ==>
                |r| == |OpenIndicesFrom(groupMatches, None, 0)| &&
                forall k :: 0 <= k < |r| ==> r[k] == groupMatches[OpenIndicesFrom(groupMatches, None, 0)[k]]
      ensures currentStage != GroupStage ==>
                |r| == |OpenIndicesFrom(knockoutMatches, Some(currentStage), 0)| &&
                forall k :: 0 <= k < |r| ==> r[k] == knockoutMatches[OpenIndicesFrom(knockoutMatches, Some(currentStage), 0)[k]]
    {
      if currentStage == GroupStage then Pending(groupMatches, None) else Pending(knockoutMatches, Some(currentStage))
    }

    /** get_match_by_id: group matches are searched first, then knockout matches. */
    method GetMatchById(id: MatchId) returns (r: Option<BracketMatch>)
      ensures FindMatch(groupMatches, id).Some? ==> r == Some(groupMatches[FindMatch(groupMatches, id).value])
      ensures FindMatch(groupMatches, id).None? && FindMatch(knockoutMatches, id).Some? ==>
                r == Some(knockoutMatches[FindMatch(knockoutMatches, id).value])
      ensures r.None? <==> FindMatch(groupMatches, id).None? && FindMatch(knockoutMatches, id).None?
    {
      for i := 0 to |groupMatches|
        invariant forall j :: 0 <= j < i ==> groupMatches[j].matchId != id
      {
        if groupMatches[i].matchId == id {
          return Some(groupMatches[i]);
        }
      }
      for i := 0 to |knockoutMatches|
        invariant forall j :: 0 <= j < i ==> knockoutMatches[j].matchId != id
      {
        if knockoutMatches[i].matchId == id {
          return Some(knockoutMatches[i]);
        }
      }
      return None;
    }
  }
}

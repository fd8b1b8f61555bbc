/** Foul types, penalty actions and the escalation table (models/foul.py). */
module Fouls {
  import opened Common

  datatype FoulType =
    | DelayOfGame
    | ExcessiveContact
    | IllegalFootThrust
    | Encroachment
    | IllegalSubstitution
    | ImproperPositioning
    | ReentryAfterElimination
    | UnsportsmanlikeConduct
    | IntentionalFoul
    | EquipmentTampering

  datatype PenaltyAction = Warning | ApDeduction | BoutLoss | RoundLoss | Disqualification

  /** An (action, AP to deduct) pair. */
  datatype Penalty = Penalty(action: PenaltyAction, apDeduction: int)

  /** One row of an escalation table: the penalty from this occurrence number on. */
  datatype Entry = Entry(occurrence: int, penalty: Penalty)

  /**
   * A per-foul escalation table, listed in ascending key order: the order in which
   * `sorted(foul_config.keys())` visits it.
   */
  type Table = seq<Entry>

  /** The default a missing key falls back to. */
  const NoPenalty := Penalty(Warning, 0)

  ghost predicate Ascending(t: Table) {
    forall i, j :: 0 <= i < j < |t| ==> t[i].occurrence < t[j].occurrence
  }

  /** FOUL_PENALTIES, foul type by foul type. */
  function FoulPenalties(f: FoulType): (t: Table)
    ensures Ascending(t)
  {
    match f
    case DelayOfGame => [Entry(1, Penalty(Warning, 0)), Entry(2, Penalty(ApDeduction, 1))]
    case ExcessiveContact => [Entry(1, Penalty(Warning, 0)), Entry(2, Penalty(ApDeduction, 3))]
    case IllegalFootThrust => [Entry(1, Penalty(BoutLoss, 0))]
    case Encroachment => [Entry(1, Penalty(BoutLoss, 0))]
    case IllegalSubstitution => [Entry(1, Penalty(RoundLoss, 0))]
    case ImproperPositioning => [Entry(1, Penalty(RoundLoss, 0))]
    case ReentryAfterElimination =>
      [Entry(1, Penalty(RoundLoss, 0)), Entry(2, Penalty(ApDeduction, 3)), Entry(3, Penalty(Disqualification, 0))]
    case UnsportsmanlikeConduct =>
      [Entry(1, Penalty(Warning, 0)), Entry(2, Penalty(ApDeduction, 3)), Entry(3, Penalty(Disqualification, 0))]
    case IntentionalFoul => [Entry(1, Penalty(Disqualification, 0))]
    case EquipmentTampering => [Entry(1, Penalty(Disqualification, 0))]
  }

  /** `foul_config.get(key)`: the penalty stored under `key`, if any. */
  function Lookup(t: Table, key: int): (r: Option<Penalty>)
    ensures r.Some? <==> exists i :: 0 <= i < |t| && t[i].occurrence == key
    ensures r.Some? && Ascending(t) ==> exists i :: 0 <= i < |t| && t[i] == Entry(key, r.value)
  {
    if t == [] then None
    else if t[0].occurrence == key then Some(t[0].penalty)
    else Lookup(t[1..], key)
  }

  /** The largest key of `t` that is at most `occurrence`, or None when every key exceeds it. */
  function LastKeyAtMost(t: Table, occurrence: int): (r: Option<int>)
    requires Ascending(t)
    ensures r.None? <==> forall i :: 0 <= i < |t| ==> t[i].occurrence > occurrence
    ensures r.Some? ==> r.value <= occurrence && exists i :: 0 <= i < |t| && t[i].occurrence == r.value
    ensures r.Some? ==> forall i :: 0 <= i < |t| && t[i].occurrence <= occurrence ==> t[i].occurrence <= r.value
  {
    if t == [] then None
    else if t[|t| - 1].occurrence <= occurrence then Some(t[|t| - 1].occurrence)
    else LastKeyAtMost(t[..|t| - 1], occurrence)
  }

  /**
   * The penalty the escalation rule prescribes: the entry at the highest key not exceeding
   * the occurrence, key 1 when there is none, and (WARNING, 0) when that key is absent.
   */
  function PrescribedPenalty(t: Table, occurrence: int): Penalty
    requires Ascending(t)
  {
    Lookup(t, LastKeyAtMost(t, occurrence).GetOr(1)).GetOr(NoPenalty)
  }

  lemma LastKeyAtMostPrefix(t: Table, i: nat, occurrence: int)
    requires Ascending(t) && i < |t|
    ensures LastKeyAtMost(t[..i + 1], occurrence)
         == if t[i].occurrence <= occurrence then Some(t[i].occurrence) else LastKeyAtMost(t[..i], occurrence)
  {
    assert t[..i + 1][..i] == t[..i];
  }

  /**
   * The loop shared by `FoulRecord.get_penalty` and `RulesEngine._get_penalty`: walk the
   * keys in ascending order, remembering the last one not above the occurrence.
   */
  method FindPenalty(config: Table, occurrence: int) returns (p: Penalty)
    requires Ascending(config)
    ensures p == PrescribedPenalty(config, occurrence)
  {
    var applicable := 1;
    var i := 0;
    while i < |config|
      invariant 0 <= i <= |config|
      invariant applicable == LastKeyAtMost(config[..i], occurrence).GetOr(1)
    {
      LastKeyAtMostPrefix(config, i, occurrence);
      if config[i].occurrence <= occurrence {
        applicable := config[i].occurrence;
      }
      i := i + 1;
    }
    assert config[..i] == config;
    var found := Lookup(config, applicable);
    p := found.GetOr(NoPenalty);
  }

  /** FoulRecord.get_penalty (the ORM columns of FoulRecord are not modelled). */
  method GetPenalty(foulType: FoulType, occurrence: int := 1) returns (p: Penalty)
    ensures p == PrescribedPenalty(FoulPenalties(foulType), occurrence)
  {
    p := FindPenalty(FoulPenalties(foulType), occurrence);
  }

  /** The last key of a foul type's table. */
  function LastKey(f: FoulType): (k: int)
    ensures 1 <= k <= 3 && k == |FoulPenalties(f)|
  {
    var t := FoulPenalties(f); t[|t| - 1].occurrence
  }

  /** Every table is keyed by the contiguous range 1..k, with 1 <= k <= 3. */
  lemma {:induction false} TableKeysContiguous(f: FoulType)
    ensures var t := FoulPenalties(f);
      1 <= |t| <= 3 && forall i :: 0 <= i < |t| ==> t[i].occurrence == i + 1
  {
  }

  /** An AP deduction is nonzero only on AP_DEDUCTION rows: 1 for delay of game, 3 otherwise. */
  lemma DeductionOnlyOnApRows(f: FoulType, i: nat)
    requires i < |FoulPenalties(f)|
    ensures var p := FoulPenalties(f)[i].penalty;
      (p.apDeduction != 0 <==> p.action == ApDeduction) &&
      (p.action == ApDeduction ==> p.apDeduction == if f == DelayOfGame then 1 else 3)
  {
  }

  /** Occurrences at or below 1 (including 0 and negatives) get the first row. */
  lemma FirstRowForLowOccurrences(f: FoulType, occurrence: int)
    requires occurrence <= 1
    ensures PrescribedPenalty(FoulPenalties(f), occurrence) == FoulPenalties(f)[0].penalty
  {
    var t := FoulPenalties(f);
    TableKeysContiguous(f);
    if occurrence == 1 {
      assert t[0].occurrence <= occurrence;
    }
  }

  /** Past its last key a table is constant: every later occurrence repeats the last row. */
  lemma ConstantBeyondLastKey(f: FoulType, occurrence: int)
    requires occurrence >= LastKey(f)
    ensures PrescribedPenalty(FoulPenalties(f), occurrence) == PrescribedPenalty(FoulPenalties(f), LastKey(f))
    ensures PrescribedPenalty(FoulPenalties(f), occurrence) == FoulPenalties(f)[|FoulPenalties(f)| - 1].penalty
  {
    var t := FoulPenalties(f);
    LastRowBeyondLastKey(t, occurrence);
    LastRowBeyondLastKey(t, LastKey(f));
  }

  /** In any ascending table, an occurrence at or past the last key gets the last row. */
  lemma LastRowBeyondLastKey(t: Table, occurrence: int)
    requires Ascending(t) && t != [] && occurrence >= t[|t| - 1].occurrence
    ensures PrescribedPenalty(t, occurrence) == t[|t| - 1].penalty
  {
    assert LastKeyAtMost(t, occurrence) == Some(t[|t| - 1].occurrence);
    LookupAscending(t, |t| - 1);
  }

  /** In an ascending table a key's lookup finds its own row. */
  lemma LookupAscending(t: Table, i: nat)
    requires Ascending(t) && i < |t|
    ensures Lookup(t, t[i].occurrence) == Some(t[i].penalty)
  {
    var r := Lookup(t, t[i].occurrence);
    assert r.Some?;
    var j :| 0 <= j < |t| && t[j] == Entry(t[i].occurrence, r.value);
    assert j == i;
  }

  /** Occurrence k within a table picks row k exactly. */
  lemma RowAtItsOwnOccurrence(f: FoulType, k: int)
    requires 1 <= k <= LastKey(f)
    ensures PrescribedPenalty(FoulPenalties(f), k) == FoulPenalties(f)[k - 1].penalty
  {
    TableKeysContiguous(f);
    var t := FoulPenalties(f);
    assert t[0].occurrence <= k && t[k - 1].occurrence == k;
    assert LastKeyAtMost(t, k) == Some(k);
    LookupAscending(t, k - 1);
  }

  /** An empty table (a foul type absent from FOUL_PENALTIES) always yields (WARNING, 0). */
  lemma EmptyTableYieldsWarning(occurrence: int)
    ensures PrescribedPenalty([], occurrence) == Penalty(Warning, 0)
  {
  }

  /**
   * Severity is not monotone along a table: re-entry after elimination goes
   * ROUND_LOSS, then AP_DEDUCTION, then DISQUALIFICATION.
   */
  lemma ReentryEscalation()
    ensures PrescribedPenalty(FoulPenalties(ReentryAfterElimination), 1).action == RoundLoss
    ensures PrescribedPenalty(FoulPenalties(ReentryAfterElimination), 2).action == ApDeduction
    ensures PrescribedPenalty(FoulPenalties(ReentryAfterElimination), 3).action == Disqualification
  {
    RowAtItsOwnOccurrence(ReentryAfterElimination, 1);
    RowAtItsOwnOccurrence(ReentryAfterElimination, 2);
    RowAtItsOwnOccurrence(ReentryAfterElimination, 3);
  }
}

/** The crew and mission records of the space-crew validator, their declared
    field ranges, and the cross-field rules checked after the fields. */
module SpaceCrew {
  import opened Wrappers
  import Seqs

  datatype Rank = Cadet | Officer | Lieutenant | Captain | Commander

  datatype CrewMember = CrewMember(
    memberId: string, name: string, rank: Rank, age: int,
    specialization: string, yearsExperience: int, isActive: bool)

  /** The budget (a float) and the launch date are not part of this model. */
  datatype SpaceMission = SpaceMission(
    missionId: string, missionName: string, destination: string,
    durationDays: int, crew: seq<CrewMember>, missionStatus: string)

  /** The declared ranges of one crew member's fields. */
  predicate MemberFieldsValid(m: CrewMember)
  {
    3 <= |m.memberId| <= 10 && 2 <= |m.name| <= 50 && 18 <= m.age <= 80
    && 3 <= |m.specialization| <= 30 && 0 <= m.yearsExperience <= 50
  }

  /** The declared ranges of a mission's fields, its crew's included. */
  predicate MissionFieldsValid(ms: SpaceMission)
  {
    5 <= |ms.missionId| <= 15 && 3 <= |ms.missionName| <= 100 && 3 <= |ms.destination| <= 50
    && 1 <= ms.durationDays <= 3650 && 1 <= |ms.crew| <= 12
    && forall i :: 0 <= i < |ms.crew| ==> MemberFieldsValid(ms.crew[i])
  }

  datatype MissionError =
    | FieldError
    | BadMissionId
    | NoLeader
    | InactiveCrew
    | InexperiencedCrew

  predicate IsLeader(m: CrewMember) { m.rank == Commander || m.rank == Captain }
  predicate IsInactive(m: CrewMember) { !m.isActive }
  predicate IsExperienced(m: CrewMember) { m.yearsExperience >= 5 }

  /** `any(m.rank in {COMMANDER, CAPTAIN} ...)`. */
  predicate HasLeader(crew: seq<CrewMember>) { exists i :: 0 <= i < |crew| && IsLeader(crew[i]) }
  /** The negation of `any(not m.is_active ...)`. */
  predicate AllActive(crew: seq<CrewMember>) { forall i :: 0 <= i < |crew| ==> crew[i].isActive }

  /** Members with at least five years' experience. */
  function Experienced(crew: seq<CrewMember>): nat
  {
    Seqs.Count(crew, IsExperienced)
  }

  /** At least half the crew is experienced, stated without division. */
  predicate HalfExperienced(crew: seq<CrewMember>)
  {
    2 * Experienced(crew) >= |crew|
  }

  /** `validate_mission`: the rules in their order; the first that fails is
      the error. The experience rule compares with the true quotient
      `len(crew) / 2`, so an odd crew needs strictly more than half. */
  function ValidateMission(ms: SpaceMission): (r: Result<SpaceMission, MissionError>)
    ensures r.Ok? ==> r.value == ms
    ensures r.Ok? <==>
      ("M" <= ms.missionId && HasLeader(ms.crew) && AllActive(ms.crew)
       && (ms.durationDays > 365 ==> HalfExperienced(ms.crew)))
    ensures r == Err(BadMissionId) <==> !("M" <= ms.missionId)
    ensures r == Err(NoLeader) <==> "M" <= ms.missionId && !HasLeader(ms.crew)
    ensures r == Err(InactiveCrew) <==> "M" <= ms.missionId && HasLeader(ms.crew) && !AllActive(ms.crew)
    ensures r == Err(InexperiencedCrew) <==>
      ("M" <= ms.missionId && HasLeader(ms.crew) && AllActive(ms.crew)
       && ms.durationDays > 365 && !HalfExperienced(ms.crew))
  {
    if !(|ms.missionId| >= 1 && ms.missionId[0] == 'M') then Err(BadMissionId)
    else if !HasLeader(ms.crew) then Err(NoLeader)
    else if !AllActive(ms.crew) then Err(InactiveCrew)
    else if ms.durationDays > 365 && (Experienced(ms.crew) as real) < (|ms.crew| as real) / 2.0 then
      Err(InexperiencedCrew)
    else Ok(ms)
  }

  /** Building a mission: the field ranges are checked first, then the rules. */
  function CreateMission(ms: SpaceMission): (r: Result<SpaceMission, MissionError>)
    ensures r == Err(FieldError) <==> !MissionFieldsValid(ms)
    ensures r.Ok? ==> MissionFieldsValid(ms) && r == ValidateMission(ms)
    ensures MissionFieldsValid(ms) ==> r == ValidateMission(ms)
  {
    if !MissionFieldsValid(ms) then Err(FieldError) else ValidateMission(ms)
  }

  /** Missions of at most a year are exempt from the experience rule: the
      crew's experience does not change the verdict. */
  lemma ShortMissionExempt(ms: SpaceMission, crew: seq<CrewMember>)
    requires ms.durationDays <= 365 && |crew| == |ms.crew|
    requires forall i :: 0 <= i < |crew| ==> crew[i] == ms.crew[i].(yearsExperience := crew[i].yearsExperience)
    ensures ValidateMission(ms.(crew := crew)).Ok? <==> ValidateMission(ms).Ok?
  {
    var ms2 := ms.(crew := crew);
    if HasLeader(ms.crew) {
      var i :| 0 <= i < |ms.crew| && IsLeader(ms.crew[i]);
      assert IsLeader(crew[i]);
    }
    if HasLeader(crew) {
      var i :| 0 <= i < |crew| && IsLeader(crew[i]);
      assert IsLeader(ms.crew[i]);
    }
  }

  function Seasoned(id: string, name: string, rank: Rank, spec: string): CrewMember
  {
    CrewMember(id, name, rank, 18, spec, 10, true)
  }

  /** The Mars colony of the demonstration: a commander, a lieutenant and an
      officer, all experienced, for 900 days. */
  lemma MarsMission(ms: SpaceMission)
    requires ms == SpaceMission("M2024_MARS", "Mars Colony Establishment", "Mars", 900,
      [Seasoned("member1", "Sarah Connor", Commander, "Mission Command"),
       Seasoned("member2", "John Smith", Lieutenant, "Navigation"),
       Seasoned("member3", "Alice Johnson", Officer, "Engineering")], "planned")
    ensures CreateMission(ms) == Ok(ms)
    ensures CreateMission(ms.(crew := [ms.crew[2]])) == Err(NoLeader)
  {
    assert IsLeader(ms.crew[0]);
    assert Experienced(ms.crew) == 3;
    var solo := ms.(crew := [ms.crew[2]]);
    assert MissionFieldsValid(solo);
    assert !IsLeader(solo.crew[0]);
  }
}

/** The catalogue of skills: a name-keyed map that `initBladeburnerSkills`
    fills by building one skill per metadata entry, in order. The map is
    never cleared, a later entry with a name already present replaces the
    earlier one, and a throw stops the loop with the earlier entries kept. */
module Skills {
  import opened Common
  import opened SkillModel
  import SkillsMetadata

  /** The names of a sequence of skill parameters. */
  function Names(ps: seq<SkillParams>): set<string>
  {
    if ps == [] then {} else Names(ps[..|ps| - 1]) + {ps[|ps| - 1].name}
  }

  lemma NamesStep(ps: seq<SkillParams>, i: nat)
    requires i < |ps|
    ensures Names(ps[..i + 1]) == Names(ps[..i]) + {ps[i].name}
  {
    assert ps[..i + 1][..i] == ps[..i];
  }

  /** Every entry's name is among the names. */
  lemma {:induction false} NamesMembers(ps: seq<SkillParams>)
    ensures forall j :: 0 <= j < |ps| ==> ps[j].name in Names(ps)
  {
    if ps != [] {
      var init := ps[..|ps| - 1];
      NamesMembers(init);
      assert forall j :: 0 <= j < |init| ==> ps[j] == init[j];
    }
  }

  /** The index of the first entry whose construction throws, or the length
      of the sequence when none does. */
  function FirstFailure(ps: seq<SkillParams>): (k: nat)
    ensures k <= |ps|
    ensures forall i :: 0 <= i < k ==> ConstructionError(ps[i]).None?
    ensures k < |ps| ==> ConstructionError(ps[k]).Some?
  {
    if ps == [] || ConstructionError(ps[0]).Some? then 0 else 1 + FirstFailure(ps[1..])
  }

  /** Entry `i` is the last among the first `k` entries with its name. */
  predicate LastWithName(ps: seq<SkillParams>, i: int, k: int)
    requires 0 <= i < k <= |ps|
  {
    forall j :: i < j < k ==> ps[j].name != ps[i].name
  }

  /** What the first `i` steps of the registration loop leave in `now`,
      starting from `start`: the names of the first `i` entries are added,
      every other key keeps its value, each added name holds a skill whose
      origin is its last entry among the first `i`, and every added skill
      was built from its origin. */
  ghost predicate Inserted(start: map<string, Skill>, now: map<string, Skill>, ps: seq<SkillParams>, i: nat)
    requires i <= |ps|
  {
    && now.Keys == start.Keys + Names(ps[..i])
    && (forall n :: n in start && n !in Names(ps[..i]) ==> now[n] == start[n])
    && (forall j :: 0 <= j < i && LastWithName(ps, j, i) ==> ps[j].name in now && now[ps[j].name].origin == ps[j])
    && (forall n :: n in Names(ps[..i]) ==> n in now && now[n].BuiltFrom(now[n].origin))
  }

  /** One more successful step of the loop keeps `Inserted`. */
  lemma InsertedStep(start: map<string, Skill>, now: map<string, Skill>, ps: seq<SkillParams>, i: nat, s: Skill)
    requires i < |ps| && Inserted(start, now, ps, i)
    requires s.origin == ps[i] && s.BuiltFrom(ps[i])
    ensures Inserted(start, now[ps[i].name := s], ps, i + 1)
  {
    InsertedStepKeys(start, now, ps, i, s);
    InsertedStepLast(start, now, ps, i, s);
  }

  lemma InsertedStepKeys(start: map<string, Skill>, now: map<string, Skill>, ps: seq<SkillParams>, i: nat, s: Skill)
    requires i < |ps| && Inserted(start, now, ps, i)
    requires s.origin == ps[i] && s.BuiltFrom(ps[i])
    ensures var next := now[ps[i].name := s];
      && next.Keys == start.Keys + Names(ps[..i + 1])
      && (forall n :: n in start && n !in Names(ps[..i + 1]) ==> next[n] == start[n])
      && (forall n :: n in Names(ps[..i + 1]) ==> n in next && next[n].BuiltFrom(next[n].origin))
  {
    NamesStep(ps, i);
  }

  lemma InsertedStepLast(start: map<string, Skill>, now: map<string, Skill>, ps: seq<SkillParams>, i: nat, s: Skill)
    requires i < |ps| && Inserted(start, now, ps, i)
    requires s.origin == ps[i]
    ensures var next := now[ps[i].name := s];
      forall j :: 0 <= j < i + 1 && LastWithName(ps, j, i + 1) ==> ps[j].name in next && next[ps[j].name].origin == ps[j]
  {
    var next := now[ps[i].name := s];
    forall j | 0 <= j < i + 1 && LastWithName(ps, j, i + 1)
      ensures ps[j].name in next && next[ps[j].name].origin == ps[j]
    {
      if j < i {
        assert LastWithName(ps, j, i);
        assert ps[i].name != ps[j].name;
      }
    }
  }

  class SkillRegistry {
    var skills: map<string, Skill>

    constructor ()
      ensures skills == map[]
    {
      skills := map[];
    }

    /** `constructSkill`: builds the skill and stores it under its name, or
        throws and leaves the map as it was. */
    method ConstructSkill(p: SkillParams) returns (err: Option<string>)
      modifies this
      ensures err == ConstructionError(p)
      ensures err.Some? ==> skills == old(skills)
      ensures err.None? ==> p.name in skills && skills == old(skills)[p.name := skills[p.name]]
      ensures err.None? ==> fresh(skills[p.name]) && skills[p.name].BuiltFrom(p) && skills[p.name].origin == p
    {
      var r := Skill.Create(p);
      match r
      case Err(e) => err := Some(e);
      case Ok(s) =>
        skills := skills[p.name := s];
        err := None;
    }

    /** One turn of the loop of `initBladeburnerSkills`: entry `i` is built
        and stored, which extends what the earlier turns did, or building it
        throws and nothing changes. */
    method AddEntry(ghost start: map<string, Skill>, metadata: seq<SkillParams>, i: nat) returns (err: Option<string>)
      requires i < |metadata| && Inserted(start, skills, metadata, i)
      modifies this
      ensures err == ConstructionError(metadata[i])
      ensures err.Some? ==> skills == old(skills)
      ensures err.None? ==> Inserted(start, skills, metadata, i + 1)
    {
      ghost var before := skills;
      err := ConstructSkill(metadata[i]);
      if err.None? {
        InsertedStep(start, before, metadata, i, skills[metadata[i].name]);
      }
    }

    /** The loop of `initBladeburnerSkills` over any metadata sequence. With
        `k` the first entry that throws (or all of them): the names of the
        entries before `k` are added, every other key keeps its value, and
        each added name holds the skill built from its last entry before
        `k`. */
    method InitFrom(metadata: seq<SkillParams>) returns (err: Option<string>)
      modifies this
      ensures var k := FirstFailure(metadata);
        && err == (if k < |metadata| then ConstructionError(metadata[k]) else None)
        && Inserted(old(skills), skills, metadata, k)
    {
      ghost var k := FirstFailure(metadata);
      err := None;
      var i := 0;
      assert metadata[..0] == [];
      while i < |metadata|
        invariant 0 <= i <= k
        invariant err.None?
        invariant Inserted(old(skills), skills, metadata, i)
      {
        err := AddEntry(old(skills), metadata, i);
        if err.Some? {
          break;
        }
        assert k != i by {
          assert k < |metadata| ==> ConstructionError(metadata[k]).Some?;
        }
        i := i + 1;
      }
      assert i == k;
    }

    /** `initBladeburnerSkills` on the skill table: it never throws, and
        every skill of the table is registered under its name. */
    method InitBladeburnerSkills() returns (err: Option<string>)
      modifies this
      ensures err.None?
      ensures skills.Keys == old(skills).Keys + Names(SkillsMetadata.Table)
      ensures forall i :: 0 <= i < |SkillsMetadata.Table| && LastWithName(SkillsMetadata.Table, i, |SkillsMetadata.Table|)
                ==> SkillsMetadata.Table[i].name in skills && skills[SkillsMetadata.Table[i].name].BuiltFrom(SkillsMetadata.Table[i])
    {
      SkillsMetadata.EveryEntryBuilds();
      var k := FirstFailure(SkillsMetadata.Table);
      assert k == |SkillsMetadata.Table|;
      assert SkillsMetadata.Table[..k] == SkillsMetadata.Table;
      err := InitFrom(SkillsMetadata.Table);
      NamesMembers(SkillsMetadata.Table);
    }
  }
}

/** The static table of the thirteen Bladeburner skills: the parameters each
    skill is built from. The skill names stand for the `SkillNames` constants,
    whose string values are not part of this model; each stand-in is the
    constant's identifier. Whether the real names are distinct is not part of
    this model either. */
module SkillsMetadata {
  import opened Common
  import opened SkillModel

  const BladesIntuition: string := "BladesIntuition"
  const Cloak: string := "Cloak"
  const ShortCircuit: string := "ShortCircuit"
  const DigitalObserver: string := "DigitalObserver"
  const Tracer: string := "Tracer"
  const Overclock: string := "Overclock"
  const Reaper: string := "Reaper"
  const EvasiveSystem: string := "EvasiveSystem"
  const Tact: string := "Tact"
  const Datamancer: string := "Datamancer"
  const CybersEdge: string := "CybersEdge"
  const HandsOfMidas: string := "HandsOfMidas"
  const Hyperdrive: string := "Hyperdrive"

  const BladesIntuitionDesc: string :=
    "Each level of this skill increases your success chance for all Contracts, Operations, and BlackOps by 3%"
  const CloakDesc: string :=
    "Each level of this skill increases your success chance in stealth-related Contracts, Operations, and BlackOps by 5.5%"
  const ShortCircuitDesc: string :=
    "Each level of this skill increases your success chance in Contracts, Operations, and BlackOps that involve retirement by 5.5%"
  const DigitalObserverDesc: string :=
    "Each level of this skill increases your success chance in all Operations and BlackOps by 4%"
  const TracerDesc: string :=
    "Each level of this skill increases your success chance in all Contracts by 4%"
  const OverclockDesc: string :=
    "Each level of this skill decreases the time it takes to attempt a Contract, Operation, and BlackOp by 1% (Max Level: 90)"
  const ReaperDesc: string :=
    "Each level of this skill increases your effective combat stats for Bladeburner actions by 2%"
  const EvasiveSystemDesc: string :=
    "Each level of this skill increases your effective dexterity and agility for Bladeburner actions by 3%"
  const TactDesc: string :=
    "Each level of this skill increases your effective charisma for Bladeburner actions by 4%"
  const DatamancerDesc: string :=
    "Each level of this skill increases your effectiveness in synthoid population analysis and investigation by 5%. This affects all actions that can potentially increase the accuracy of your synthoid population/community estimates."
  const CybersEdgeDesc: string :=
    "Each level of this skill increases your max stamina by 2%"
  const HandsOfMidasDesc: string :=
    "Each level of this skill increases the amount of money you receive from Contracts by 10%"
  const HyperdriveDesc: string :=
    "Each level of this skill increases the experience earned from Contracts, Operations, and BlackOps by 10%"

  /** `SkillsMetadata`, in the order of the source array. */
  const Table: seq<SkillParams> := [
    SkillParams(BladesIntuition, BladesIntuitionDesc, 3.0, 2.1, None, map[SuccessChanceAll := 3.0]),
    SkillParams(Cloak, CloakDesc, 2.0, 1.1, None, map[SuccessChanceStealth := 5.5]),
    SkillParams(ShortCircuit, ShortCircuitDesc, 2.0, 2.1, None, map[SuccessChanceKill := 5.5]),
    SkillParams(DigitalObserver, DigitalObserverDesc, 2.0, 2.1, None, map[SuccessChanceOperation := 4.0]),
    SkillParams(Tracer, TracerDesc, 2.0, 2.1, None, map[SuccessChanceContract := 4.0]),
    SkillParams(Overclock, OverclockDesc, 3.0, 1.4, Some(90.0), map[ActionTime := 1.0]),
    SkillParams(Reaper, ReaperDesc, 2.0, 2.1, None, map[EffStr := 2.0, EffDef := 2.0, EffDex := 2.0, EffAgi := 2.0]),
    SkillParams(EvasiveSystem, EvasiveSystemDesc, 2.0, 2.1, None, map[EffDex := 3.0, EffAgi := 3.0]),
    SkillParams(Tact, TactDesc, 2.0, 2.1, None, map[EffCha := 4.0]),
    SkillParams(Datamancer, DatamancerDesc, 3.0, 1.0, None, map[SuccessChanceEstimate := 5.0]),
    SkillParams(CybersEdge, CybersEdgeDesc, 1.0, 3.0, None, map[Stamina := 2.0]),
    SkillParams(HandsOfMidas, HandsOfMidasDesc, 2.0, 2.5, None, map[Money := 10.0]),
    SkillParams(Hyperdrive, HyperdriveDesc, 1.0, 2.5, None, map[ExpGain := 10.0])
  ]

  /** The effect fields each description speaks of, read off its wording:
      "all Contracts, Operations, and BlackOps" is the general chance,
      "combat stats" are strength, defense, dexterity and agility, and so on. */
  function DescribedEffects(i: nat): set<Effect>
    requires i < 13
  {
    [{SuccessChanceAll}, {SuccessChanceStealth}, {SuccessChanceKill},
     {SuccessChanceOperation}, {SuccessChanceContract}, {ActionTime},
     {EffStr, EffDef, EffDex, EffAgi}, {EffDex, EffAgi}, {EffCha},
     {SuccessChanceEstimate}, {Stamina}, {Money}, {ExpGain}][i]
  }

  /** The table has thirteen entries, each naming exactly the effects its
      description speaks of, each with a positive value. */
  lemma EntriesAsDescribed()
    ensures |Table| == 13
    ensures forall i :: 0 <= i < 13 ==> Table[i].effects.Keys == DescribedEffects(i)
    ensures forall i, e :: 0 <= i < 13 && e in Table[i].effects ==> Table[i].effects[e] > 0.0
  {
  }

  /** No entry lacks a name or a description, so building a skill from any
      entry never throws. */
  lemma EveryEntryBuilds()
    ensures forall i :: 0 <= i < |Table| ==> ConstructionError(Table[i]).None?
  {
    forall i | 0 <= i < |Table|
      ensures Table[i].name != [] && Table[i].desc != []
    {
      assert |Table[i].name| > 0;
    }
  }

  /** Every base cost and increment is positive, so the default of 1 never
      applies and the built skill keeps the table's numbers. */
  lemma CostsPositive()
    ensures forall i :: 0 <= i < |Table| ==> Table[i].baseCost > 0.0 && Table[i].costInc > 0.0
    ensures forall i :: 0 <= i < |Table| ==> OrOne(Table[i].baseCost) == Table[i].baseCost && OrOne(Table[i].costInc) == Table[i].costInc
  {
  }

  /** Only Overclock has a level cap, and the cap is 90. */
  lemma OnlyOverclockCapped()
    ensures forall i :: 0 <= i < |Table| ==> (Truthy(Table[i].maxLvl) <==> i == 5)
    ensures Table[5].name == Overclock && Table[5].maxLvl == Some(90.0)
  {
  }

  /** Reaper raises the four combat stats by 2, Evasive System dexterity
      and agility by 3. */
  lemma CombatSkills()
    ensures Table[6].name == Reaper
    ensures Table[6].effects == map[EffStr := 2.0, EffDef := 2.0, EffDex := 2.0, EffAgi := 2.0]
    ensures Table[7].name == EvasiveSystem
    ensures Table[7].effects == map[EffDex := 3.0, EffAgi := 3.0]
  {
  }
}

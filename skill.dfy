/** A Bladeburner skill: its name, description, point cost (a base plus a
    fixed increment per level already owned), an optional level cap, and the
    percentage effects one level of it grants. The level a player holds is
    kept elsewhere; a skill never changes once built. */
module SkillModel {
  import opened Common

  /** The optional effect fields of a skill, in the order the constructor
      copies them. */
  datatype Effect =
    | SuccessChanceAll | SuccessChanceStealth | SuccessChanceKill
    | SuccessChanceContract | SuccessChanceOperation | SuccessChanceEstimate
    | ActionTime | EffHack | EffStr | EffDef | EffDex | EffAgi | EffCha
    | Stamina | Money | ExpGain | WeaponAbility | GunAbility

  const AllEffects: seq<Effect> :=
    [SuccessChanceAll, SuccessChanceStealth, SuccessChanceKill,
     SuccessChanceContract, SuccessChanceOperation, SuccessChanceEstimate,
     ActionTime, EffHack, EffStr, EffDef, EffDex, EffAgi, EffCha,
     Stamina, Money, ExpGain, WeaponAbility, GunAbility]

  lemma AllEffectsListed(e: Effect)
    ensures e in AllEffects
  {
    match e
    case SuccessChanceAll => assert AllEffects[0] == e;
    case SuccessChanceStealth => assert AllEffects[1] == e;
    case SuccessChanceKill => assert AllEffects[2] == e;
    case SuccessChanceContract => assert AllEffects[3] == e;
    case SuccessChanceOperation => assert AllEffects[4] == e;
    case SuccessChanceEstimate => assert AllEffects[5] == e;
    case ActionTime => assert AllEffects[6] == e;
    case EffHack => assert AllEffects[7] == e;
    case EffStr => assert AllEffects[8] == e;
    case EffDef => assert AllEffects[9] == e;
    case EffDex => assert AllEffects[10] == e;
    case EffAgi => assert AllEffects[11] == e;
    case EffCha => assert AllEffects[12] == e;
    case Stamina => assert AllEffects[13] == e;
    case Money => assert AllEffects[14] == e;
    case ExpGain => assert AllEffects[15] == e;
    case WeaponAbility => assert AllEffects[16] == e;
    case GunAbility => assert AllEffects[17] == e;
  }

  /** The constructor's parameter object. An effect that is not supplied is
      absent from `effects`; a level cap that is not supplied is `None`. */
  datatype SkillParams = SkillParams(
    name: string,
    desc: string,
    baseCost: real,
    costInc: real,
    maxLvl: Option<real>,
    effects: map<Effect, real>)

  const NoNameMessage: string := "Failed to initialize Bladeburner Skill. No name was specified in ctor"
  const NoDescMessage: string := "Failed to initialize Bladeburner Skills. No desc was specified in ctor"

  /** A number used as a condition: zero (and a missing value) is false. */
  predicate Truthy(o: Option<real>) { o.Some? && o.value != 0.0 }

  /** `x ? x : 1` for a number `x`. */
  function OrOne(x: real): (r: real)
    ensures r != 0.0
    ensures x != 0.0 ==> r == x
  {
    if x != 0.0 then x else 1.0
  }

  /** `kept` holds exactly the effects supplied in `given` with a nonzero
      value, each with the supplied value: zero stands for "absent". */
  predicate KeepsNonzero(kept: map<Effect, real>, given: map<Effect, real>)
  {
    forall e :: (e in kept <==> e in given && given[e] != 0.0) && (e in kept ==> kept[e] == given[e])
  }

  /** Why the constructor throws for `p`, if it does: a missing name is
      reported before a missing description. */
  function ConstructionError(p: SkillParams): (r: Option<string>)
    ensures r.None? <==> p.name != [] && p.desc != []
    ensures p.name == [] ==> r == Some(NoNameMessage)
    ensures p.name != [] && p.desc == [] ==> r == Some(NoDescMessage)
  {
    if p.name == [] then Some(NoNameMessage)
    else if p.desc == [] then Some(NoDescMessage)
    else None
  }

  /** Sum of the per-level bonus `perLevel` over `levels` levels, one level
      at a time: the effects of a skill add up, they do not compound. */
  function StackedEffect(perLevel: real, levels: nat): (r: real)
  {
    if levels == 0 then 0.0 else StackedEffect(perLevel, levels - 1) + perLevel
  }

  /** `levels` levels of a skill granting `perLevel` percent grant
      `levels * perLevel` percent. */
  lemma {:induction false} StackedEffectIsLinear(perLevel: real, levels: nat)
    ensures StackedEffect(perLevel, levels) == levels as real * perLevel
  {
    if levels > 0 {
      StackedEffectIsLinear(perLevel, levels - 1);
      assert (levels - 1) as real * perLevel + perLevel == levels as real * perLevel;
    }
  }

  /** Two levels of a skill granting 5% give 10% in total, not 10.25%. */
  lemma TwoLevelsOfFivePercent()
    ensures StackedEffect(5.0, 2) == 10.0
    ensures StackedEffect(5.0, 2) != (1.05 * 1.05 - 1.0) * 100.0
  {
    StackedEffectIsLinear(5.0, 2);
  }

  class Skill {
    const name: string
    const desc: string
    const baseCost: real
    const costInc: real
    const maxLvl: Option<real>
    const effects: map<Effect, real>
    /** The parameters this skill was built from. */
    ghost const origin: SkillParams

    /** The fields of a skill constructed from `p`: name and description
        copied, a zero cost replaced by 1, and the level cap and each effect
        kept only when nonzero. */
    ghost predicate BuiltFrom(p: SkillParams)
    {
      && name == p.name
      && desc == p.desc
      && baseCost == OrOne(p.baseCost)
      && costInc == OrOne(p.costInc)
      && maxLvl == (if Truthy(p.maxLvl) then p.maxLvl else None)
      && KeepsNonzero(effects, p.effects)
    }

    /** The constructor once the name and description checks have passed. */
    constructor Init(p: SkillParams)
      requires p.name != [] && p.desc != []
      ensures BuiltFrom(p) && origin == p
    {
      origin := p;
      name := p.name;
      desc := p.desc;
      baseCost := if p.baseCost != 0.0 then p.baseCost else 1.0;
      costInc := if p.costInc != 0.0 then p.costInc else 1.0;
      maxLvl := if Truthy(p.maxLvl) then p.maxLvl else None;
      var kept: map<Effect, real> := map[];
      for i := 0 to |AllEffects|
        invariant forall e :: e in kept <==> e in AllEffects[..i] && e in p.effects && p.effects[e] != 0.0
        invariant forall e :: e in kept ==> kept[e] == p.effects[e]
      {
        var e := AllEffects[i];
        if e in p.effects && p.effects[e] != 0.0 {
          kept := kept[e := p.effects[e]];
        }
      }
      forall e | e in p.effects
        ensures e in AllEffects
      {
        AllEffectsListed(e);
      }
      assert AllEffects[..|AllEffects|] == AllEffects;
      effects := kept;
    }

    /** `new Skill(p)`: throws without a name or without a description,
        otherwise builds the skill. */
    static method Create(p: SkillParams) returns (r: Result<Skill, string>)
      ensures r.Err? <==> ConstructionError(p).Some?
      ensures r.Err? ==> r.error == ConstructionError(p).value
      ensures r.Ok? ==> fresh(r.value) && r.value.BuiltFrom(p) && r.value.origin == p
    {
      if p.name == [] {
        return Err(NoNameMessage);
      }
      if p.desc == [] {
        return Err(NoDescMessage);
      }
      var s := new Skill.Init(p);
      r := Ok(s);
    }

    /** The fields of this skill as a parameter object. */
    function Params(): SkillParams
    {
      SkillParams(name, desc, baseCost, costInc, maxLvl, effects)
    }

    /** Building a skill from the parameters a built skill holds gives the
        same skill back: construction is idempotent. */
    lemma RebuildIsIdentity(p: SkillParams)
      requires BuiltFrom(p)
      ensures ConstructionError(Params()) == ConstructionError(p)
      ensures BuiltFrom(Params())
    {
    }

    /** `calculateCost`: the skill points the next level costs when
        `currentLevel` levels are held, scaled by the BitNode's skill cost
        multiplier and rounded down. */
    function CalculateCost(currentLevel: real, skillCostMult: real): (r: int)
      ensures r as real <= (baseCost + currentLevel * costInc) * skillCostMult < r as real + 1.0
    {
      FloorOfProduct(baseCost + currentLevel * costInc, skillCostMult)
    }

    /** With a non-negative increment and multiplier, a higher level never
        costs less. */
    lemma CostNonDecreasing(l1: real, l2: real, skillCostMult: real)
      requires l1 <= l2 && costInc >= 0.0 && skillCostMult >= 0.0
      ensures CalculateCost(l1, skillCostMult) <= CalculateCost(l2, skillCostMult)
    {
      var x1, x2 := baseCost + l1 * costInc, baseCost + l2 * costInc;
      assert x2 - x1 == (l2 - l1) * costInc;
      assert x1 <= x2;
      assert x2 * skillCostMult - x1 * skillCostMult == (x2 - x1) * skillCostMult;
      FloorMonotonic(x1 * skillCostMult, x2 * skillCostMult);
    }

    /** With the neutral multiplier and a whole-number increment, each level
        held adds exactly the increment to the cost. */
    lemma CostStep(currentLevel: real, n: int)
      requires costInc == n as real
      ensures CalculateCost(currentLevel + 1.0, 1.0) == CalculateCost(currentLevel, 1.0) + n
    {
      var x := baseCost + currentLevel * costInc;
      assert baseCost + (currentLevel + 1.0) * costInc == x + n as real;
      assert (x + n as real) * 1.0 == x + n as real;
      assert x * 1.0 == x;
    }
  }
}

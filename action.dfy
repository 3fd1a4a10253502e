/** A Bladeburner action: general actions, contracts, operations and black
    operations, told apart by a tag. It validates its stat weights and
    decays when built, and gives the difficulty at its level, the chance of
    success, the time an attempt takes and the level-up schedule. */
module ActionModel {
  import opened Common
  import Weighting
  import CityModel
  import RandomInt

  /** The class an action was built as. A BlackOperation extends Operation,
      so every `instanceof Operation` test holds for it too. */
  datatype Kind = General | Contract | Operation | BlackOp

  /** `this instanceof Operation`. */
  predicate IsOperation(kind: Kind)
  {
    kind.Operation? || kind.BlackOp?
  }

  /** The constructor parameters; `None` is a value of the wrong type or no
      value at all. `reqdRank` is read by operations only. */
  datatype ActionParams = ActionParams(
    name: string,
    desc: string,
    baseDifficulty: real,
    difficultyFac: real,
    rewardFac: Option<real>,
    rankGain: real,
    rankLoss: Option<real>,
    hpLoss: Option<real>,
    isStealth: Option<bool>,
    isKill: Option<bool>,
    count: real,
    countGrowth: real,
    weights: map<Stat, Entry>,
    decays: map<Stat, Entry>,
    reqdRank: Option<real>)

  function OrElse<T>(o: Option<T>, default: T): (r: T)
    ensures o.Some? ==> r == o.value
    ensures o.None? ==> r == default
  {
    if o.Some? then o.value else default
  }

  /** Each of the seven stats weighted 1/7. */
  const DefaultWeights: map<Stat, Entry> := map[
    Hack := Num(1.0 / 7.0), Str := Num(1.0 / 7.0), Def := Num(1.0 / 7.0), Dex := Num(1.0 / 7.0),
    Agi := Num(1.0 / 7.0), Cha := Num(1.0 / 7.0), Int := Num(1.0 / 7.0)]

  /** Each of the seven stats decaying with exponent 0.9. */
  const DefaultDecays: map<Stat, Entry> := map[
    Hack := Num(0.9), Str := Num(0.9), Def := Num(0.9), Dex := Num(0.9),
    Agi := Num(0.9), Cha := Num(0.9), Int := Num(0.9)]

  /** The weights must add up to 1 (the documentation of the field says 100,
      but the check uses 1). */
  ghost predicate WeightsValid(weights: map<Stat, Entry>)
  {
    Weighting.SumsTo(weights, 1.0)
  }

  /** No numeric decay exceeds 1. */
  predicate DecaysValid(decays: map<Stat, Entry>)
  {
    forall s :: s in decays && decays[s].Num? ==> decays[s].x <= 1.0
  }

  /** The default weights and decays pass validation. */
  lemma {:induction false} DefaultsValid()
    ensures WeightsValid(DefaultWeights)
    ensures DecaysValid(DefaultDecays)
  {
    DefaultWeightsSumToOne();
  }

  lemma {:induction false} DefaultWeightsSumToOne()
    ensures Weighting.NumericSum(DefaultWeights) == 1.0
  {
    var numeric := Weighting.NumericPart(DefaultWeights);
    SevenStats(numeric.Keys);
    SumOverConstant(numeric, numeric.Keys, 1.0 / 7.0);
  }

  lemma {:induction false} SevenStats(ks: set<Stat>)
    requires ks == {Hack, Str, Def, Dex, Agi, Cha, Int}
    ensures |ks| == 7
  {
  }

  /** The message the constructor throws: the weights are checked first. */
  ghost function ConstructionError(p: ActionParams): string
  {
    if !WeightsValid(p.weights) then "Invalid stat weights when construction Bladeburner Action " + p.name
    else "Invalid decays when constructing Bladeburner Action " + p.name
  }

  /** The default constructor parameters: difficulty 100 growing by 1.01 a
      level, no rank gain, equal weights, decays of 0.9, and a count and
      count growth drawn from [1000, 25000] and [1, 5] with the two samples. */
  function DefaultParams(countSample: real, growthSample: real): ActionParams
  {
    ActionParams("", "", 100.0, 1.01, None, 0.0, None, None, None, None,
                 RandomInt.GetRandomInt(1000.0, 25000.0, countSample), RandomInt.GetRandomInt(1.0, 5.0, growthSample),
                 DefaultWeights, DefaultDecays, None)
  }

  /** With samples in [0, 1), the default parameters pass validation and
      draw their count and count growth from the stated ranges. */
  lemma DefaultParamsValid(countSample: real, growthSample: real)
    requires RandomInt.IsSample(countSample) && RandomInt.IsSample(growthSample)
    ensures var p := DefaultParams(countSample, growthSample);
      && WeightsValid(p.weights) && DecaysValid(p.decays)
      && 1000.0 <= p.count <= 25000.0 && 1.0 <= p.countGrowth <= 5.0
      && p.count.Floor as real == p.count && p.countGrowth.Floor as real == p.countGrowth
  {
    DefaultsValid();
    RandomInt.InRange(1000, 25000, countSample);
    RandomInt.InRange(1, 5, growthSample);
  }

  // ---------------------------------------------------------------------
  // Difficulty

  function Power(x: real, n: nat): real
  {
    if n == 0 then 1.0 else x * Power(x, n - 1)
  }

  /** `baseDifficulty * difficultyFac ^ (level - 1)`. */
  function LevelDifficulty(baseDifficulty: real, difficultyFac: real, level: int): (d: real)
    requires level >= 1
    ensures baseDifficulty > 0.0 && difficultyFac > 0.0 ==> d > 0.0
  {
    if baseDifficulty > 0.0 && difficultyFac > 0.0 then
      PowerPositive(difficultyFac, level - 1);
      PositiveProduct(baseDifficulty, Power(difficultyFac, level - 1));
      baseDifficulty * Power(difficultyFac, level - 1)
    else
      baseDifficulty * Power(difficultyFac, level - 1)
  }

  lemma DifficultyAtLevelOne(baseDifficulty: real, difficultyFac: real)
    ensures LevelDifficulty(baseDifficulty, difficultyFac, 1) == baseDifficulty
  {
  }

  lemma {:induction false} PowerPositive(x: real, n: nat)
    requires x > 0.0
    ensures Power(x, n) > 0.0
  {
    if n > 0 {
      PowerPositive(x, n - 1);
      PositiveProduct(x, Power(x, n - 1));
    }
  }

  lemma PositiveProduct(x: real, y: real)
    requires x > 0.0 && y > 0.0
    ensures x * y > 0.0
  {
  }

  lemma {:induction false} PowerIncreasing(x: real, m: nat, n: nat)
    requires x > 1.0 && m < n
    ensures Power(x, m) < Power(x, n)
    decreases n
  {
    PowerPositive(x, n - 1);
    assert Power(x, n) == x * Power(x, n - 1);
    assert x * Power(x, n - 1) - Power(x, n - 1) == (x - 1.0) * Power(x, n - 1);
    PositiveProduct(x - 1.0, Power(x, n - 1));
    if m < n - 1 {
      PowerIncreasing(x, m, n - 1);
    }
  }

  /** With a growth factor above 1 and a positive base, difficulty strictly
      increases with the level. */
  lemma DifficultyIncreasing(baseDifficulty: real, difficultyFac: real, l1: int, l2: int)
    requires baseDifficulty > 0.0 && difficultyFac > 1.0 && 1 <= l1 < l2
    ensures LevelDifficulty(baseDifficulty, difficultyFac, l1) < LevelDifficulty(baseDifficulty, difficultyFac, l2)
  {
    var p1, p2 := Power(difficultyFac, l1 - 1), Power(difficultyFac, l2 - 1);
    PowerIncreasing(difficultyFac, l1 - 1, l2 - 1);
    assert baseDifficulty * p2 - baseDifficulty * p1 == baseDifficulty * (p2 - p1);
    PositiveProduct(baseDifficulty, p2 - p1);
  }

  /** An action of base difficulty 100 and growth 1.01 has difficulty 100 at
      level 1, 101 at level 2 and 102.01 at level 3. */
  lemma DifficultyScenario()
    ensures LevelDifficulty(100.0, 1.01, 1) == 100.0
    ensures LevelDifficulty(100.0, 1.01, 2) == 101.0
    ensures LevelDifficulty(100.0, 1.01, 3) == 102.01
  {
    assert Power(1.01, 2) == 1.01 * Power(1.01, 1);
  }

  // ---------------------------------------------------------------------
  // What a success chance reads besides the action

  /** The skill multiplier table of the Bladeburner object. `eff` holds the
      `eff<Stat>` entries. */
  datatype SkillMultipliers = SkillMultipliers(
    eff: map<Stat, real>,
    successChanceAll: real,
    successChanceOperation: real,
    successChanceContract: real,
    successChanceStealth: real,
    successChanceKill: real,
    actionTime: real)

  /** The multiplier the competence loop of `getSuccessChance` reads: a
      stat missing from the table gets the neutral 1. */
  function EffMultiplier(m: SkillMultipliers, s: Stat): real
  {
    if s in m.eff then m.eff[s] else 1.0
  }

  /** The Bladeburner object: its multipliers, its team size and its stamina
      penalty. */
  datatype Bladeburner = Bladeburner(skillMultipliers: SkillMultipliers, teamSize: real, staminaPenalty: real)

  /** The player: stat levels, agility and dexterity, and the success-chance
      multiplier from augmentations. */
  datatype Player = Player(statLevel: Stat -> real, agility: real, dexterity: real, successChanceMult: real)

  /** Game-balance constants defined outside this model, and the fractional
      power `Math.pow`. */
  datatype Tuning = Tuning(
    pow: (real, real) -> real,
    populationExponent: real,
    chaosThreshold: real,
    difficultyToTimeFactor: real,
    effAgiExponentialFactor: real,
    effDexExponentialFactor: real,
    effAgiLinearFactor: real,
    effDexLinearFactor: real)
  {
    predicate WellFormed()
    {
      difficultyToTimeFactor != 0.0 && effAgiLinearFactor != 0.0 && effDexLinearFactor != 0.0
    }
  }

  /** What a success chance reads of the action. */
  datatype ActionView = ActionView(
    kind: Kind,
    name: string,
    difficulty: real,
    weights: map<Stat, Entry>,
    decays: map<Stat, Entry>,
    isStealth: bool,
    isKill: bool,
    teamCount: real)

  // ---------------------------------------------------------------------
  // Success chance

  /** A stat contributes a number when neither its weight nor its decay is
      `undefined` (a missing decay reads as `undefined`); otherwise its
      contribution is NaN. A `null` weight or decay reads as 0. */
  predicate Contributes(weights: map<Stat, Entry>, decays: map<Stat, Entry>, s: Stat)
  {
    s in weights && !weights[s].Undefined? && s in decays && !decays[s].Undefined?
  }

  /** `weight * (effMultiplier * statLevel) ^ decay`. */
  function StatTerm(weight: real, decay: real, s: Stat, m: SkillMultipliers, player: Player, tuning: Tuning): real
  {
    weight * tuning.pow(EffMultiplier(m, s) * player.statLevel(s), decay)
  }

  function Terms(weights: map<Stat, Entry>, decays: map<Stat, Entry>, m: SkillMultipliers, player: Player, tuning: Tuning)
    : (t: map<Stat, real>)
    ensures forall s :: s in t <==> Contributes(weights, decays, s)
  {
    map s | s in weights && Contributes(weights, decays, s) ::
      StatTerm(Arith(weights[s]), Arith(decays[s]), s, m, player, tuning)
  }

  /** The weighted sum over the stats of the weights object. */
  function Competence(weights: map<Stat, Entry>, decays: map<Stat, Entry>, m: SkillMultipliers,
                      player: Player, tuning: Tuning): real
  {
    var t := Terms(weights, decays, m, player, tuning);
    StatSum(t, t.Keys)
  }

  function ValueAt(t: map<Stat, real>, ks: set<Stat>, s: Stat): real
  {
    if s in ks && s in t then t[s] else 0.0
  }

  /** The seven stats in a fixed order. */
  const AllStats: seq<Stat> := [Hack, Str, Def, Dex, Agi, Cha, Int]

  /** The values of `t` under the keys `ks`, added in the order of `stats`. */
  function SumIn(t: map<Stat, real>, ks: set<Stat>, stats: seq<Stat>): real
  {
    if stats == [] then 0.0 else ValueAt(t, ks, stats[0]) + SumIn(t, ks, stats[1..])
  }

  /** The values of `t` under the keys `ks`, added in the fixed order of the
      seven stats. */
  function StatSum(t: map<Stat, real>, ks: set<Stat>): real
  {
    SumIn(t, ks, AllStats)
  }

  predicate Distinct(stats: seq<Stat>)
  {
    forall i, j :: 0 <= i < j < |stats| ==> stats[i] != stats[j]
  }

  lemma {:induction false} SumInRemove(t: map<Stat, real>, ks: set<Stat>, k: Stat, stats: seq<Stat>)
    requires k in ks && k in t && Distinct(stats)
    ensures SumIn(t, ks, stats) == (if k in stats then t[k] else 0.0) + SumIn(t, ks - {k}, stats)
  {
    if stats != [] {
      assert Distinct(stats[1..]);
      SumInRemove(t, ks, k, stats[1..]);
      if stats[0] == k {
        assert k !in stats[1..];
      }
    }
  }

  /** The fixed-order sum is the order-free sum: whatever order the for-in
      loop visits the stats in, it computes the same competence. */
  lemma {:induction false} StatSumIsOrderFree(t: map<Stat, real>, ks: set<Stat>)
    requires ks <= t.Keys
    ensures SumOver(t, ks) == StatSum(t, ks)
    decreases ks
  {
    if ks != {} {
      var k :| k in ks;
      SumOverPick(t, ks, k);
      StatSumIsOrderFree(t, ks - {k});
      assert k in AllStats by { assert k == Hack || k == Str || k == Def || k == Dex || k == Agi || k == Cha || k == Int; }
      SumInRemove(t, ks, k, AllStats);
    } else {
      EmptySum(t, AllStats);
    }
  }

  lemma {:induction false} EmptySum(t: map<Stat, real>, stats: seq<Stat>)
    ensures SumIn(t, {}, stats) == 0.0
  {
    if stats != [] {
      EmptySum(t, stats[1..]);
    }
  }

  /** Competence is NaN when some weighted stat has an `undefined` weight
      or decay. */
  predicate CompetenceIsNaN(a: ActionView)
  {
    AnyUndefined(a.weights, a.decays)
  }

  predicate AnyUndefined(weights: map<Stat, Entry>, decays: map<Stat, Entry>)
  {
    exists s :: s in weights && !Contributes(weights, decays, s)
  }

  /** The competence loop of `getSuccessChance`: it visits the weighted
      stats in any order; a stat with an `undefined` weight or decay makes the
      sum NaN, which `nan` records, and the other stats are summed. */
  method SumCompetence(weights: map<Stat, Entry>, decays: map<Stat, Entry>, m: SkillMultipliers,
                       player: Player, tuning: Tuning)
    returns (competence: real, nan: bool)
    ensures nan <==> AnyUndefined(weights, decays)
    ensures competence == Competence(weights, decays, m, player, tuning)
  {
    competence, nan := 0.0, false;
    ghost var terms := Terms(weights, decays, m, player, tuning);
    var remaining := weights.Keys;
    ghost var done: set<Stat> := {};
    while remaining != {}
      invariant remaining <= weights.Keys && done == weights.Keys - remaining
      invariant nan <==> exists s :: s in done && !Contributes(weights, decays, s)
      invariant competence == SumOver(terms, done * terms.Keys)
      decreases remaining
    {
      var stat :| stat in remaining;
      if Contributes(weights, decays, stat) {
        SumOverStep(terms, done * terms.Keys, stat);
        assert (done + {stat}) * terms.Keys == done * terms.Keys + {stat};
        competence := competence + StatTerm(Arith(weights[stat]), Arith(decays[stat]), stat, m, player, tuning);
      } else {
        assert (done + {stat}) * terms.Keys == done * terms.Keys;
        nan := true;
      }
      remaining := remaining - {stat};
      done := done + {stat};
    }
    assert done * terms.Keys == terms.Keys;
    StatSumIsOrderFree(terms, terms.Keys);
  }

  /** Two sums agree when they see the same value for every stat. */
  lemma {:induction false} SumInAgree(t1: map<Stat, real>, ks1: set<Stat>, t2: map<Stat, real>, ks2: set<Stat>,
                                      stats: seq<Stat>)
    requires forall s :: ValueAt(t1, ks1, s) == ValueAt(t2, ks2, s)
    ensures SumIn(t1, ks1, stats) == SumIn(t2, ks2, stats)
  {
    if stats != [] {
      SumInAgree(t1, ks1, t2, ks2, stats[1..]);
    }
  }

  /** A `null` weight reads as 0, so a stat weighted `null` (with a defined
      decay) adds nothing to competence and makes nothing NaN: it counts as
      if the stat were not weighted at all. */
  lemma NullWeightAddsNothing(weights: map<Stat, Entry>, decays: map<Stat, Entry>, s: Stat,
                              m: SkillMultipliers, player: Player, tuning: Tuning)
    requires s in decays && !decays[s].Undefined?
    ensures AnyUndefined(weights[s := Null], decays) == AnyUndefined(weights - {s}, decays)
    ensures Competence(weights[s := Null], decays, m, player, tuning)
         == Competence(weights - {s}, decays, m, player, tuning)
  {
    var w1, w0 := weights[s := Null], weights - {s};
    assert AnyUndefined(w1, decays) ==> AnyUndefined(w0, decays) by {
      if AnyUndefined(w1, decays) {
        var x :| x in w1 && !Contributes(w1, decays, x);
        assert x != s && x in w0 && !Contributes(w0, decays, x);
      }
    }
    assert AnyUndefined(w0, decays) ==> AnyUndefined(w1, decays) by {
      if AnyUndefined(w0, decays) {
        var x :| x in w0 && !Contributes(w0, decays, x);
        assert x in w1 && !Contributes(w1, decays, x);
      }
    }
    var t1, t0 := Terms(w1, decays, m, player, tuning), Terms(w0, decays, m, player, tuning);
    assert t1[s] == 0.0 * tuning.pow(EffMultiplier(m, s) * player.statLevel(s), Arith(decays[s]));
    forall x
      ensures ValueAt(t1, t1.Keys, x) == ValueAt(t0, t0.Keys, x)
    {
      if x != s {
        assert (x in t1 <==> x in t0) && (x in t1 ==> t1[x] == t0[x]);
      }
    }
    SumInAgree(t1, t1.Keys, t0, t0.Keys, AllStats);
  }

  /** `Math.pow(x, null)` is `Math.pow(x, 0)`: a `null` decay acts as a decay
      of 0. */
  lemma NullDecayIsExponentZero(weights: map<Stat, Entry>, decays: map<Stat, Entry>, s: Stat,
                                m: SkillMultipliers, player: Player, tuning: Tuning)
    ensures AnyUndefined(weights, decays[s := Null]) == AnyUndefined(weights, decays[s := Num(0.0)])
    ensures Competence(weights, decays[s := Null], m, player, tuning)
         == Competence(weights, decays[s := Num(0.0)], m, player, tuning)
  {
    assert Terms(weights, decays[s := Null], m, player, tuning)
        == Terms(weights, decays[s := Num(0.0)], m, player, tuning);
  }

  /** The team count after the clamp: an operation with a positive team count
      is cut down to the team size; anything else is left alone. */
  function TeamCountAfter(kind: Kind, teamCount: real, teamSize: real): (r: real)
    ensures IsOperation(kind) && teamCount > 0.0 ==> r <= teamSize
    ensures r <= teamCount
  {
    if IsOperation(kind) && teamCount > 0.0 then Min(teamCount, teamSize) else teamCount
  }

  /** Difficulty after the chaos penalty, which only actions other than
      black operations pay, and only above the chaos threshold. */
  function EffectiveDifficulty(kind: Kind, difficulty: real, tuning: Tuning, city: CityModel.CityView): real
  {
    if kind.BlackOp? then difficulty else ChaosPenalty(difficulty, tuning, city)
  }

  /** Above the chaos threshold, difficulty grows with the 0.1th power of
      one plus the excess. */
  function ChaosPenalty(difficulty: real, tuning: Tuning, city: CityModel.CityView): real
  {
    if city.chaos > tuning.chaosThreshold
    then difficulty * tuning.pow(1.0 + (city.chaos - tuning.chaosThreshold), 0.1)
    else difficulty
  }

  /** The population factor, from the estimate or the true population. */
  function PopulationFactor(tuning: Tuning, city: CityModel.CityView, est: bool): real
  {
    var popSignal := if est then city.popEst else city.pop;
    tuning.pow(popSignal / CityModel.PopulationThreshold, tuning.populationExponent)
  }

  /** The competence after the stamina penalty, the team factor and (for
      actions other than black operations) the population factor. */
  function AdjustedCompetence(a: ActionView, competence: real, inst: Bladeburner, tuning: Tuning,
                              city: CityModel.CityView, est: bool): real
  {
    var c := TeamAdjusted(a, competence * inst.staminaPenalty, inst, tuning);
    if a.kind.BlackOp? then c else c * PopulationFactor(tuning, city, est)
  }

  /** An operation with a positive team count scales the competence by the
      0.05th power of the clamped team count. */
  function TeamAdjusted(a: ActionView, competence: real, inst: Bladeburner, tuning: Tuning): real
  {
    if IsOperation(a.kind) && a.teamCount > 0.0
    then competence * tuning.pow(TeamCountAfter(a.kind, a.teamCount, inst.teamSize), 0.05)
    else competence
  }

  /** The skill multipliers an action of this kind and these flags picks up,
      applied one after another, then the augmentation multiplier. */
  function Routed(c: real, kind: Kind, isStealth: bool, isKill: bool, m: SkillMultipliers, playerMult: real): real
  {
    var c1 := c * m.successChanceAll;
    var c2 := if IsOperation(kind) then c1 * m.successChanceOperation else c1;
    AfterOperationBonus(c2, kind, isStealth, isKill, m, playerMult)
  }

  lemma RoutedSplits(c: real, kind: Kind, isStealth: bool, isKill: bool, m: SkillMultipliers, playerMult: real)
    ensures Routed(c, kind, isStealth, isKill, m, playerMult)
         == AfterOperationBonus(if IsOperation(kind) then c * m.successChanceAll * m.successChanceOperation
                                else c * m.successChanceAll, kind, isStealth, isKill, m, playerMult)
  {
  }

  /** The multipliers after the operation bonus. */
  function AfterOperationBonus(c: real, kind: Kind, isStealth: bool, isKill: bool, m: SkillMultipliers,
                               playerMult: real): real
  {
    var c3 := if kind.Contract? then c * m.successChanceContract else c;
    var c4 := if isStealth then c3 * m.successChanceStealth else c3;
    var c5 := if isKill then c4 * m.successChanceKill else c4;
    c5 * playerMult
  }

  lemma AfterOperationBonusScales(c: real, v: real, kind: Kind, isStealth: bool, isKill: bool,
                                  m: SkillMultipliers, playerMult: real)
    ensures AfterOperationBonus(v * c, kind, isStealth, isKill, m, playerMult)
         == v * AfterOperationBonus(c, kind, isStealth, isKill, m, playerMult)
  {
  }

  /** The name of the operation that needs communities to succeed. */
  const RaidName: string := "Raid"

  const NaNMessage: string := "Competence calculated as NaN in Action.getSuccessChance()"

  /** The Raid operation fails outright in a city without communities. */
  predicate RaidBlocked(a: ActionView, city: CityModel.CityView)
  {
    a.kind.Operation? && a.name == RaidName && city.comms <= 0.0
  }

  /** The success chance `getSuccessChance` returns, for the action as it is
      before the call (the call itself clamps the team count first). */
  function SuccessChance(a: ActionView, inst: Bladeburner, player: Player, tuning: Tuning,
                         city: CityModel.CityView, est: bool): (r: Result<real, string>)
    requires EffectiveDifficulty(a.kind, a.difficulty, tuning, city) != 0.0
    ensures r.Ok? ==> r.value <= 1.0
    ensures r.Err? <==> CompetenceIsNaN(a) && !RaidBlocked(a, city)
  {
    if RaidBlocked(a, city) then Ok(0.0)
    else if CompetenceIsNaN(a) then Err(NaNMessage)
    else
      var competence := Competence(a.weights, a.decays, inst.skillMultipliers, player, tuning);
      var c := Routed(AdjustedCompetence(a, competence, inst, tuning, city, est), a.kind, a.isStealth, a.isKill,
                      inst.skillMultipliers, player.successChanceMult);
      Ok(Min(1.0, c / EffectiveDifficulty(a.kind, a.difficulty, tuning, city)))
  }

  /** Two evaluations that agree on every intermediate quantity agree on the
      chance. */
  lemma SameInputsSameChance(a1: ActionView, a2: ActionView, inst1: Bladeburner, inst2: Bladeburner,
                             player: Player, tuning: Tuning, c1: CityModel.CityView, c2: CityModel.CityView,
                             est1: bool, est2: bool)
    requires a1.kind == a2.kind && a1.isStealth == a2.isStealth && a1.isKill == a2.isKill
    requires inst1.skillMultipliers == inst2.skillMultipliers
    requires EffectiveDifficulty(a1.kind, a1.difficulty, tuning, c1) != 0.0
    requires EffectiveDifficulty(a1.kind, a1.difficulty, tuning, c1) == EffectiveDifficulty(a2.kind, a2.difficulty, tuning, c2)
    requires Competence(a1.weights, a1.decays, inst1.skillMultipliers, player, tuning) == Competence(a2.weights, a2.decays, inst2.skillMultipliers, player, tuning)
    requires AdjustedCompetence(a1, Competence(a1.weights, a1.decays, inst1.skillMultipliers, player, tuning), inst1, tuning, c1, est1)
          == AdjustedCompetence(a2, Competence(a2.weights, a2.decays, inst2.skillMultipliers, player, tuning), inst2, tuning, c2, est2)
    requires CompetenceIsNaN(a1) == CompetenceIsNaN(a2) && RaidBlocked(a1, c1) == RaidBlocked(a2, c2)
    ensures SuccessChance(a1, inst1, player, tuning, c1, est1) == SuccessChance(a2, inst2, player, tuning, c2, est2)
  {
  }

  /** The Raid rule: an operation named "Raid" gets exactly 0 in a city with
      no communities, whatever the stats, and even if its competence would be
      NaN. */
  lemma RaidWithoutCommunities(a: ActionView, inst: Bladeburner, player: Player, tuning: Tuning,
                               city: CityModel.CityView, est: bool)
    requires a.kind.Operation? && a.name == RaidName && city.comms <= 0.0
    requires EffectiveDifficulty(a.kind, a.difficulty, tuning, city) != 0.0
    ensures SuccessChance(a, inst, player, tuning, city, est) == Ok(0.0)
  {
  }

  /** The Raid rule is for operations only: for any other kind the name and
      the community count do not matter. */
  lemma RaidRuleOnlyForOperations(a: ActionView, name: string, inst: Bladeburner, player: Player,
                                  tuning: Tuning, city: CityModel.CityView, comms: real, est: bool)
    requires !a.kind.Operation?
    requires EffectiveDifficulty(a.kind, a.difficulty, tuning, city) != 0.0
    ensures EffectiveDifficulty(a.kind, a.difficulty, tuning, city.(comms := comms)) != 0.0
    ensures SuccessChance(a.(name := name), inst, player, tuning, city.(comms := comms), est)
         == SuccessChance(a, inst, player, tuning, city, est)
  {
    var a', city' := a.(name := name), city.(comms := comms);
    assert city'.chaos == city.chaos;
    assert EffectiveDifficulty(a.kind, a.difficulty, tuning, city') == EffectiveDifficulty(a.kind, a.difficulty, tuning, city);
    assert Competence(a'.weights, a'.decays, inst.skillMultipliers, player, tuning) == Competence(a.weights, a.decays, inst.skillMultipliers, player, tuning);
    assert PopulationFactor(tuning, city', est) == PopulationFactor(tuning, city, est);
    SameInputsSameChance(a', a, inst, inst, player, tuning, city', city, est, est);
    assert CompetenceIsNaN(a') == CompetenceIsNaN(a);
  }

  /** Black operations never read the city: neither its population, its
      estimate, its chaos nor its communities, nor the estimate flag. */
  lemma BlackOpIgnoresCity(a: ActionView, inst: Bladeburner, player: Player, tuning: Tuning,
                           c1: CityModel.CityView, c2: CityModel.CityView, est1: bool, est2: bool)
    requires a.kind.BlackOp?
    requires EffectiveDifficulty(a.kind, a.difficulty, tuning, c1) != 0.0
    ensures EffectiveDifficulty(a.kind, a.difficulty, tuning, c2) != 0.0
    ensures SuccessChance(a, inst, player, tuning, c1, est1) == SuccessChance(a, inst, player, tuning, c2, est2)
  {
  }

  /** In estimate mode the chance reads the population estimate and not the
      true population; otherwise it reads the true population and not the
      estimate. */
  lemma EstimateModeReadsEstimate(a: ActionView, inst: Bladeburner, player: Player, tuning: Tuning,
                                  city: CityModel.CityView, other: real)
    requires EffectiveDifficulty(a.kind, a.difficulty, tuning, city) != 0.0
    ensures EffectiveDifficulty(a.kind, a.difficulty, tuning, city.(pop := other)) != 0.0
    ensures EffectiveDifficulty(a.kind, a.difficulty, tuning, city.(popEst := other)) != 0.0
    ensures SuccessChance(a, inst, player, tuning, city.(pop := other), true)
         == SuccessChance(a, inst, player, tuning, city, true)
    ensures SuccessChance(a, inst, player, tuning, city.(popEst := other), false)
         == SuccessChance(a, inst, player, tuning, city, false)
  {
    assert PopulationFactor(tuning, city.(pop := other), true) == PopulationFactor(tuning, city, true);
    assert EffectiveDifficulty(a.kind, a.difficulty, tuning, city.(pop := other)) == EffectiveDifficulty(a.kind, a.difficulty, tuning, city);
    SameInputsSameChance(a, a, inst, inst, player, tuning, city.(pop := other), city, true, true);
    assert PopulationFactor(tuning, city.(popEst := other), false) == PopulationFactor(tuning, city, false);
    assert EffectiveDifficulty(a.kind, a.difficulty, tuning, city.(popEst := other)) == EffectiveDifficulty(a.kind, a.difficulty, tuning, city);
    SameInputsSameChance(a, a, inst, inst, player, tuning, city.(popEst := other), city, false, false);
  }

  /** Chaos at or below the threshold has no effect on the chance. */
  lemma ChaosBelowThresholdIgnored(a: ActionView, inst: Bladeburner, player: Player, tuning: Tuning,
                                   city: CityModel.CityView, chaos: real, est: bool)
    requires city.chaos <= tuning.chaosThreshold && chaos <= tuning.chaosThreshold
    requires EffectiveDifficulty(a.kind, a.difficulty, tuning, city) != 0.0
    ensures EffectiveDifficulty(a.kind, a.difficulty, tuning, city) == a.difficulty
    ensures EffectiveDifficulty(a.kind, a.difficulty, tuning, city.(chaos := chaos)) == a.difficulty
    ensures SuccessChance(a, inst, player, tuning, city.(chaos := chaos), est)
         == SuccessChance(a, inst, player, tuning, city, est)
  {
    assert PopulationFactor(tuning, city.(chaos := chaos), est) == PopulationFactor(tuning, city, est);
    assert EffectiveDifficulty(a.kind, a.difficulty, tuning, city.(chaos := chaos)) == EffectiveDifficulty(a.kind, a.difficulty, tuning, city);
    SameInputsSameChance(a, a, inst, inst, player, tuning, city.(chaos := chaos), city, est, est);
  }

  /** With a team count of 0, the team factor is skipped: the team size then
      has no influence on the chance. */
  lemma NoTeamNoTeamFactor(a: ActionView, inst: Bladeburner, teamSize: real, player: Player, tuning: Tuning,
                           city: CityModel.CityView, est: bool)
    requires a.teamCount == 0.0
    requires EffectiveDifficulty(a.kind, a.difficulty, tuning, city) != 0.0
    ensures TeamCountAfter(a.kind, a.teamCount, teamSize) == 0.0
    ensures SuccessChance(a, inst.(teamSize := teamSize), player, tuning, city, est)
         == SuccessChance(a, inst, player, tuning, city, est)
  {
    SameInputsSameChance(a, a, inst.(teamSize := teamSize), inst, player, tuning, city, city, est, est);
  }

  /** Clamping the team count twice is the same as clamping it once. */
  lemma TeamClampIdempotent(kind: Kind, teamCount: real, teamSize: real)
    ensures TeamCountAfter(kind, TeamCountAfter(kind, teamCount, teamSize), teamSize)
         == TeamCountAfter(kind, teamCount, teamSize)
  {
  }

  /** `successChanceAll` always applies: setting it to `v` has the effect of
      scaling the competence by `v`, whatever the kind and the flags. */
  lemma AllMultiplierAlwaysApplies(c: real, kind: Kind, isStealth: bool, isKill: bool, m: SkillMultipliers,
                                   playerMult: real, v: real)
    ensures Routed(c, kind, isStealth, isKill, m.(successChanceAll := v), playerMult)
         == Routed(v * c, kind, isStealth, isKill, m.(successChanceAll := 1.0), playerMult)
  {
    assert c * v == (v * c) * 1.0;
  }

  /** `successChanceOperation` applies exactly to operations and black
      operations. */
  lemma OperationMultiplierRouting(c: real, kind: Kind, isStealth: bool, isKill: bool, m: SkillMultipliers,
                                   playerMult: real, v: real)
    ensures Routed(c, kind, isStealth, isKill, m.(successChanceOperation := v), playerMult)
         == if IsOperation(kind) then v * Routed(c, kind, isStealth, isKill, m.(successChanceOperation := 1.0), playerMult)
            else Routed(c, kind, isStealth, isKill, m, playerMult)
  {
    if IsOperation(kind) {
      var x := c * m.successChanceAll;
      assert Routed(c, kind, isStealth, isKill, m.(successChanceOperation := v), playerMult)
          == AfterOperationBonus(v * x, kind, isStealth, isKill, m, playerMult);
      assert Routed(c, kind, isStealth, isKill, m.(successChanceOperation := 1.0), playerMult)
          == AfterOperationBonus(x, kind, isStealth, isKill, m, playerMult);
      AfterOperationBonusScales(x, v, kind, isStealth, isKill, m, playerMult);
    }
  }

  /** `successChanceContract` applies exactly to contracts. */
  lemma ContractMultiplierRouting(c: real, kind: Kind, isStealth: bool, isKill: bool, m: SkillMultipliers,
                                  playerMult: real, v: real)
    ensures Routed(c, kind, isStealth, isKill, m.(successChanceContract := v), playerMult)
         == if kind.Contract? then v * Routed(c, kind, isStealth, isKill, m.(successChanceContract := 1.0), playerMult)
            else Routed(c, kind, isStealth, isKill, m, playerMult)
  {
  }

  /** `successChanceStealth` applies exactly to stealth actions. */
  lemma StealthMultiplierRouting(c: real, kind: Kind, isStealth: bool, isKill: bool, m: SkillMultipliers,
                                 playerMult: real, v: real)
    ensures Routed(c, kind, isStealth, isKill, m.(successChanceStealth := v), playerMult)
         == if isStealth then v * Routed(c, kind, isStealth, isKill, m.(successChanceStealth := 1.0), playerMult)
            else Routed(c, kind, isStealth, isKill, m, playerMult)
  {
  }

  /** `successChanceKill` applies exactly to killing actions. */
  lemma KillMultiplierRouting(c: real, kind: Kind, isStealth: bool, isKill: bool, m: SkillMultipliers,
                              playerMult: real, v: real)
    ensures Routed(c, kind, isStealth, isKill, m.(successChanceKill := v), playerMult)
         == if isKill then v * Routed(c, kind, isStealth, isKill, m.(successChanceKill := 1.0), playerMult)
            else Routed(c, kind, isStealth, isKill, m, playerMult)
  {
  }

  /** The city steps of `getSuccessChance` for actions other than black
      operations: the population factor scales the competence, the chaos
      penalty the difficulty. */
  method ApplyCity(c: real, difficulty: real, tuning: Tuning, city: CityModel.CityView, est: bool)
    returns (competence: real, adjusted: real)
    ensures competence == c * PopulationFactor(tuning, city, est)
    ensures adjusted == ChaosPenalty(difficulty, tuning, city)
  {
    if est {
      competence := c * tuning.pow(city.popEst / CityModel.PopulationThreshold, tuning.populationExponent);
    } else {
      competence := c * tuning.pow(city.pop / CityModel.PopulationThreshold, tuning.populationExponent);
    }
    adjusted := difficulty;
    if city.chaos > tuning.chaosThreshold {
      var diff := 1.0 + (city.chaos - tuning.chaosThreshold);
      var mult := tuning.pow(diff, 0.1);
      adjusted := adjusted * mult;
    }
  }

  /** The multiplier steps of `getSuccessChance`, one after another. */
  method ApplyBonuses(c: real, kind: Kind, isStealth: bool, isKill: bool, m: SkillMultipliers, playerMult: real)
    returns (competence: real)
    ensures competence == Routed(c, kind, isStealth, isKill, m, playerMult)
  {
    competence := c * m.successChanceAll;
    if IsOperation(kind) {
      competence := competence * m.successChanceOperation;
    }
    ghost var boosted := competence;
    if kind.Contract? {
      competence := competence * m.successChanceContract;
    }
    if isStealth {
      competence := competence * m.successChanceStealth;
    }
    if isKill {
      competence := competence * m.successChanceKill;
    }
    competence := competence * playerMult;
    assert competence == AfterOperationBonus(boosted, kind, isStealth, isKill, m, playerMult);
    RoutedSplits(c, kind, isStealth, isKill, m, playerMult);
  }

  /** The arithmetic of `getSuccessChance`, step by step: the competence
      loop, the stamina penalty, the team factor, the population factor and
      chaos penalty, the Raid rule, the skill multipliers and the NaN check. */
  method EvaluateChance(a: ActionView, inst: Bladeburner, player: Player, tuning: Tuning,
                        city: CityModel.CityView, est: bool)
    returns (r: Result<real, string>)
    requires EffectiveDifficulty(a.kind, a.difficulty, tuning, city) != 0.0
    ensures r == SuccessChance(a, inst, player, tuning, city, est)
  {
    var difficulty := a.difficulty;
    var competence, nan := SumCompetence(a.weights, a.decays, inst.skillMultipliers, player, tuning);
    ghost var sum := competence;
    competence := competence * inst.staminaPenalty;
    ghost var c1 := competence;

    if IsOperation(a.kind) {
      if a.teamCount > 0.0 {
        var teamCount := Min(a.teamCount, inst.teamSize);
        var teamMultiplier := tuning.pow(teamCount, 0.05);
        competence := competence * teamMultiplier;
      }
    }
    assert competence == TeamAdjusted(a, c1, inst, tuning);

    if !a.kind.BlackOp? {
      competence, difficulty := ApplyCity(competence, difficulty, tuning, city, est);
      if a.kind.Operation? && a.name == RaidName {
        if city.comms <= 0.0 {
          return Ok(0.0);
        }
      }
    }
    assert competence == AdjustedCompetence(a, sum, inst, tuning, city, est);
    assert difficulty == EffectiveDifficulty(a.kind, a.difficulty, tuning, city);
    assert !RaidBlocked(a, city);
    ghost var adjusted := competence;

    competence := ApplyBonuses(competence, a.kind, a.isStealth, a.isKill, inst.skillMultipliers, player.successChanceMult);

    if nan {
      return Err(NaNMessage);
    }
    r := Ok(Min(1.0, competence / difficulty));
  }

  // ---------------------------------------------------------------------
  // Action time

  /** `getActionTime` reads `effAgi` and `effDex` with no fallback. */
  predicate HasTimeMultipliers(inst: Bladeburner)
  {
    Agi in inst.skillMultipliers.eff && Dex in inst.skillMultipliers.eff
  }

  /** `0.5 * (effAgi^E1 + effDex^E2 + effAgi/L1 + effDex/L2)`. */
  function StatFactor(inst: Bladeburner, player: Player, tuning: Tuning): real
    requires tuning.WellFormed() && HasTimeMultipliers(inst)
  {
    var effAgility := player.agility * inst.skillMultipliers.eff[Agi];
    var effDexterity := player.dexterity * inst.skillMultipliers.eff[Dex];
    0.5 * (tuning.pow(effAgility, tuning.effAgiExponentialFactor)
         + tuning.pow(effDexterity, tuning.effDexExponentialFactor)
         + effAgility / tuning.effAgiLinearFactor
         + effDexterity / tuning.effDexLinearFactor)
  }

  const UnrecognizedTypeMessage: string :=
    "Unrecognized Action Type in Action.getActionTime(this). Must be either Contract, Operation, or BlackOperation"

  /** The time before rounding, floored at 1. */
  function ClampedTime(difficulty: real, inst: Bladeburner, player: Player, tuning: Tuning): (t: real)
    requires tuning.WellFormed() && HasTimeMultipliers(inst) && StatFactor(inst, player, tuning) != 0.0
    ensures t >= 1.0
  {
    var baseTime := difficulty / tuning.difficultyToTimeFactor;
    Max(1.0, baseTime * inst.skillMultipliers.actionTime / StatFactor(inst, player, tuning))
  }

  /** `getActionTime`: contracts and operations (black operations included,
      as they are operations) take the clamped time rounded up; a plain
      action has no time and throws. */
  function ActionTime(kind: Kind, difficulty: real, inst: Bladeburner, player: Player, tuning: Tuning)
    : (r: Result<int, string>)
    requires tuning.WellFormed() && HasTimeMultipliers(inst) && StatFactor(inst, player, tuning) != 0.0
    ensures r.Ok? <==> !kind.General?
    ensures r.Ok? ==> r.value >= 1
    ensures r.Ok? ==> r.value as real - 1.0 < ClampedTime(difficulty, inst, player, tuning) <= r.value as real
  {
    var t := ClampedTime(difficulty, inst, player, tuning);
    if kind.Contract? then Ok(Ceil(t))
    else if IsOperation(kind) then Ok(Ceil(t))
    else if kind.BlackOp? then Ok(Ceil(t * 1.5))
    else Err(UnrecognizedTypeMessage)
  }

  /** The 1.5 factor for black operations is never reached: a black
      operation takes exactly as long as a contract or an operation of the
      same difficulty. */
  lemma BlackOpTakesOperationTime(difficulty: real, inst: Bladeburner, player: Player, tuning: Tuning)
    requires tuning.WellFormed() && HasTimeMultipliers(inst) && StatFactor(inst, player, tuning) != 0.0
    ensures ActionTime(BlackOp, difficulty, inst, player, tuning) == ActionTime(Operation, difficulty, inst, player, tuning)
    ensures ActionTime(BlackOp, difficulty, inst, player, tuning) == ActionTime(Contract, difficulty, inst, player, tuning)
  {
  }

  // ---------------------------------------------------------------------
  // Levels

  /** `0.5 * maxLevel * (2 * base + (maxLevel - 1))`, kept apart so that the
      solver treats the product as one term. */
  function Triangular(maxLevel: int, base: real): real
  {
    0.5 * (maxLevel as real) * (2.0 * base + (maxLevel - 1) as real)
  }

  /** Successes needed before the maximum level goes up. */
  function SuccessesNeeded(maxLevel: int, base: real): (r: int)
    ensures r as real - 1.0 < Triangular(maxLevel, base) <= r as real
  {
    Ceil(Triangular(maxLevel, base))
  }

  lemma EvenProduct(m: int)
    ensures (m * (m - 1)) % 2 == 0
  {
    var q := m / 2;
    if m == 2 * q {
      calc {
        m * (m - 1);
        (2 * q) * (m - 1);
        2 * (q * (m - 1));
      }
    } else {
      assert m - 1 == 2 * q;
      calc {
        m * (m - 1);
        m * (2 * q);
        2 * (m * q);
      }
    }
  }

  /** For a whole number of base successes the schedule is triangular:
      `maxLevel * base + maxLevel * (maxLevel - 1) / 2`. */
  lemma SuccessesNeededTriangular(maxLevel: int, base: int)
    ensures SuccessesNeeded(maxLevel, base as real) == maxLevel * base + maxLevel * (maxLevel - 1) / 2
  {
    EvenProduct(maxLevel);
    var k := maxLevel * (maxLevel - 1) / 2;
    assert maxLevel * (maxLevel - 1) == 2 * k;
    var m, b := maxLevel as real, base as real;
    assert Triangular(maxLevel, b) == m * b + 0.5 * (m * (m - 1.0));
    assert (maxLevel * (maxLevel - 1)) as real == m * (m - 1.0);
    assert Triangular(maxLevel, b) == (maxLevel * base + k) as real;
  }

  /** With a positive base each level needs strictly more successes than the
      one before. */
  lemma SuccessesNeededIncreasing(maxLevel: int, base: real)
    requires maxLevel >= 1 && base > 0.0
    ensures SuccessesNeeded(maxLevel + 1, base) > SuccessesNeeded(maxLevel, base)
  {
    var m := maxLevel as real;
    assert Triangular(maxLevel + 1, base) == 0.5 * (m + 1.0) * (2.0 * base + m);
    assert Triangular(maxLevel, base) == 0.5 * m * (2.0 * base + m - 1.0);
    assert Triangular(maxLevel + 1, base) - Triangular(maxLevel, base) == base + m;
  }

  // ---------------------------------------------------------------------
  // The action object

  class Action {
    const kind: Kind
    const name: string
    const desc: string
    const baseDifficulty: real
    const difficultyFac: real
    const rewardFac: real
    const rankGain: real
    const rankLoss: real
    const hpLoss: real
    const isStealth: bool
    const isKill: bool
    const weights: map<Stat, Entry>
    const decays: map<Stat, Entry>
    /** The parameters this action was built from. */
    ghost const origin: ActionParams
    var level: int
    var maxLevel: int
    var autoLevel: bool
    var successes: int
    var failures: int
    var count: real
    var countGrowth: real
    /** Operation fields; they stay 0 on other kinds, which have none. */
    var reqdRank: real
    var teamCount: real

    /** Levels count from 1. */
    ghost predicate Valid()
      reads this`level, this`maxLevel
    {
      level >= 1 && maxLevel >= 1
    }

    /** The weights and decays passed validation; they never change after. */
    ghost predicate Checked()
    {
      WeightsValid(weights) && DecaysValid(decays)
    }

    /** The fields the constructor assigns from `p`, with `jittered` the
        randomly offset base difficulty. */
    ghost predicate BuiltFrom(p: ActionParams, kind: Kind, jittered: real)
      reads this
    {
      && this.kind == kind && name == p.name && desc == p.desc
      && baseDifficulty == jittered && difficultyFac == p.difficultyFac
      && rankGain == p.rankGain && count == p.count && countGrowth == p.countGrowth
      && rewardFac == OrElse(p.rewardFac, 1.02) && rankLoss == OrElse(p.rankLoss, 0.0)
      && hpLoss == OrElse(p.hpLoss, 0.0) && isStealth == OrElse(p.isStealth, false)
      && isKill == OrElse(p.isKill, false)
      && weights == p.weights && decays == p.decays
      && level == 1 && maxLevel == 1 && autoLevel && successes == 0 && failures == 0
    }

    function View(): ActionView
      reads this
      requires level >= 1
    {
      ActionView(kind, name, GetDifficulty(), weights, decays, isStealth, isKill, teamCount)
    }

    constructor Init(p: ActionParams, kind: Kind, jittered: real)
      requires WeightsValid(p.weights) && DecaysValid(p.decays)
      ensures Valid() && Checked() && BuiltFrom(p, kind, jittered) && origin == p
      ensures reqdRank == 0.0 && teamCount == 0.0
    {
      origin := p;
      this.kind := kind;
      name := p.name;
      desc := p.desc;
      baseDifficulty := jittered;
      difficultyFac := p.difficultyFac;
      rankGain := p.rankGain;
      rewardFac := OrElse(p.rewardFac, 1.02);
      rankLoss := OrElse(p.rankLoss, 0.0);
      hpLoss := OrElse(p.hpLoss, 0.0);
      isStealth := OrElse(p.isStealth, false);
      isKill := OrElse(p.isKill, false);
      weights := p.weights;
      decays := p.decays;
      level, maxLevel, autoLevel := 1, 1, true;
      successes, failures := 0, 0;
      count, countGrowth := p.count, p.countGrowth;
      reqdRank, teamCount := 0.0, 0.0;
    }

    /** The constructor: the base difficulty is offset at random by up to 10
        percent through `addOffset`; construction throws when the weights do
        not sum to 1 or some decay exceeds 1. */
    static method Create(p: ActionParams, kind: Kind, addOffset: (real, real) -> real)
      returns (r: Result<Action, string>)
      ensures r.Ok? <==> WeightsValid(p.weights) && DecaysValid(p.decays)
      ensures r.Ok? ==> fresh(r.value) && r.value.Valid() && r.value.Checked() && r.value.origin == p
      ensures r.Ok? ==> r.value.BuiltFrom(p, kind, addOffset(p.baseDifficulty, 10.0))
      ensures r.Ok? ==> r.value.reqdRank == 0.0 && r.value.teamCount == 0.0
      ensures r.Err? ==> r.error == ConstructionError(p)
    {
      var weightsOk := Weighting.CheckWeightingObject(p.weights, 1.0);
      if !weightsOk {
        return Err("Invalid stat weights when construction Bladeburner Action " + p.name);
      }
      var decaysOk := CheckDecays(p.decays);
      if !decaysOk {
        return Err("Invalid decays when constructing Bladeburner Action " + p.name);
      }
      var a := new Action.Init(p, kind, addOffset(p.baseDifficulty, 10.0));
      r := Ok(a);
    }

    /** The decay loop of the constructor: it visits the decays in any order
        and stops at the first numeric one above 1. */
    static method CheckDecays(decays: map<Stat, Entry>) returns (ok: bool)
      ensures ok <==> DecaysValid(decays)
    {
      var remaining := decays.Keys;
      while remaining != {}
        invariant remaining <= decays.Keys
        invariant forall s :: s in decays.Keys - remaining && decays[s].Num? ==> decays[s].x <= 1.0
        decreases remaining
      {
        var decay :| decay in remaining;
        if decays[decay].Num? && decays[decay].x > 1.0 {
          return false;
        }
        remaining := remaining - {decay};
      }
      return true;
    }

    /** `getDifficulty`: the difficulty at the current level. */
    function GetDifficulty(): (d: real)
      reads this
      requires level >= 1
      ensures d == LevelDifficulty(baseDifficulty, difficultyFac, level)
      ensures level == 1 ==> d == baseDifficulty
      ensures baseDifficulty > 0.0 && difficultyFac > 0.0 ==> d > 0.0
    {
      LevelDifficulty(baseDifficulty, difficultyFac, level)
    }

    /** `getSuccessChance`. Its one side effect: an operation with a positive
        team count has it cut down to the team size. The clamp comes before
        the Raid rule can return and before the NaN check can throw, so it
        happens on every call. */
    method GetSuccessChance(inst: Bladeburner, player: Player, tuning: Tuning, city: CityModel.City, est: bool)
      returns (r: Result<real, string>)
      requires Valid()
      requires EffectiveDifficulty(kind, GetDifficulty(), tuning, city.View()) != 0.0
      modifies this`teamCount
      ensures Valid()
      ensures teamCount == TeamCountAfter(kind, old(teamCount), inst.teamSize)
      ensures r == SuccessChance(old(View()), inst, player, tuning, city.View(), est)
    {
      var before := View();
      if IsOperation(kind) {
        if teamCount > 0.0 {
          teamCount := Min(teamCount, inst.teamSize);
        }
      }
      r := EvaluateChance(before, inst, player, tuning, city.View(), est);
    }

    /** `attempt`: succeeds when the sample drawn from [0, 1) is below the
        success chance; a NaN competence throws. */
    method Attempt(inst: Bladeburner, player: Player, tuning: Tuning, city: CityModel.City, sample: real)
      returns (r: Result<bool, string>)
      requires Valid()
      requires EffectiveDifficulty(kind, GetDifficulty(), tuning, city.View()) != 0.0
      modifies this`teamCount
      ensures Valid()
      ensures teamCount == TeamCountAfter(kind, old(teamCount), inst.teamSize)
      ensures var chance := SuccessChance(old(View()), inst, player, tuning, city.View(), false);
        (r.Ok? <==> chance.Ok?) && (r.Ok? ==> (r.value <==> sample < chance.value))
    {
      var chance := GetSuccessChance(inst, player, tuning, city, false);
      if chance.Err? {
        return Err(chance.error);
      }
      r := Ok(sample < chance.value);
    }

    /** `getActionTime`, at the current difficulty. */
    function GetActionTime(inst: Bladeburner, player: Player, tuning: Tuning): (r: Result<int, string>)
      reads this
      requires level >= 1 && tuning.WellFormed() && HasTimeMultipliers(inst) && StatFactor(inst, player, tuning) != 0.0
      ensures r == ActionTime(kind, GetDifficulty(), inst, player, tuning)
      ensures r.Ok? <==> !kind.General?
      ensures r.Ok? ==> r.value >= 1
    {
      ActionTime(kind, GetDifficulty(), inst, player, tuning)
    }

    /** `getSuccessesNeededForNextLevel`, at the current maximum level. */
    function GetSuccessesNeededForNextLevel(baseSuccessesPerLevel: real): (r: int)
      reads this
      ensures r == SuccessesNeeded(maxLevel, baseSuccessesPerLevel)
      ensures r as real >= Triangular(maxLevel, baseSuccessesPerLevel)
    {
      SuccessesNeeded(maxLevel, baseSuccessesPerLevel)
    }

    /** Raises the maximum level by exactly one when the successes reach the
        next threshold, and changes nothing otherwise. */
    method SetMaxLevel(baseSuccessesPerLevel: real)
      requires Valid()
      modifies this`maxLevel
      ensures Valid()
      ensures successes >= SuccessesNeeded(old(maxLevel), baseSuccessesPerLevel) ==> maxLevel == old(maxLevel) + 1
      ensures successes < SuccessesNeeded(old(maxLevel), baseSuccessesPerLevel) ==> maxLevel == old(maxLevel)
    {
      if successes >= GetSuccessesNeededForNextLevel(baseSuccessesPerLevel) {
        maxLevel := maxLevel + 1;
      }
    }
  }
}

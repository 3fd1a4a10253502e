# Bladeburner rules, verified

This project models the deterministic rules behind the Bladeburner actions of
bitburner, and a few small pure helpers from elsewhere in the repository:

- **Actions**: general actions, contracts, operations and black operations.
  They are one class, told apart by a `Kind` tag. A black operation is an
  operation, so every "is it an operation" test holds for it too.
- **Construction**: the constructor's validation of the stat weights and decays.
- **Difficulty**: the difficulty curve over the levels.
- **Success chance**: the step-by-step computation of the chance, with its one
  side effect (the team count is clamped).
- **Attempts and time**: `attempt`, and the clamped action time.
- **Levels**: the level-up schedule.
- **Cities**: the estimate/truth state machine of a city.
- **Skills**: the skill value object, its cost formula and the static table of
  thirteen skills.
- **Registries**: the three name-keyed registries filled by a loop of
  constructor calls.
- **Helpers**:
  - the weighting-object check;
  - `getRandomInt`, with the random sample as a parameter;
  - the milestone search and its visibility rule;
  - the number formatting and argument checks of the `walk` and `nukeall`
    scripts.

`Math.random`, the BitNode and player state, game-balance constants and
fractional powers come in as parameters or as a `Tuning` record. The power
function is a field of that record. Numbers are `real`, so there is no NaN.
The values a stat map can hold at run time (a number, `null` or `undefined`)
are the `Entry` datatype, so the NaN that an `undefined` weight or decay
produces is modelled; the other NaN and type guards of the code are left out.

Where the code and its comments disagree, the model follows the code:

- **Weight target.** The comment on the `weights` field asks for a total of
  100. The constructor actually checks against 1, at
  `src/Bladeburner/Action.ts:168`, and the model uses 1.
- **Black operation time.** `getActionTime` has a 1.5× branch for black
  operations. A black operation is also an operation, so it always takes the
  operation branch first, and the 1.5× branch is never reached.
  `ActionModel.BlackOpTakesOperationTime` proves this.
- **Team clamp.** `getSuccessChance` clamps the team count before the Raid rule
  can return early, so the clamp happens even when the chance is 0.

`formatNumber`, `isValidSort` and `isValidSortOrder` in `scripts/nukeall.ts`
(lines 97-115) are the same text as in `scripts/walk.ts`. The number
formatting has one definition, `NumberFormat.FormatNumber`, and its lemmas
cover both scripts.

## Model

| member | source | states |
|---|---|---|
| ActionModel.OrElse | src/Bladeburner/Action.ts:158-162 | an optional field takes the supplied value when one of the right type is given, and its default otherwise |
| ActionModel.DefaultsValid | src/Bladeburner/Action.ts:30-40 | the default weights (seven times 1/7) and decays (0.9) pass both constructor checks |
| ActionModel.DefaultWeightsSumToOne | src/Bladeburner/Action.ts:38 | the seven default weights sum to exactly 1 |
| ActionModel.DefaultParamsValid | src/Bladeburner/Action.ts:30-40 | the default parameters pass validation; their count is a whole number in [1000, 25000] and their count growth a whole number in [1, 5] |
| ActionModel.LevelDifficulty | src/Bladeburner/Action.ts:178-182 | the difficulty at a level is `baseDifficulty * difficultyFac ^ (level - 1)`; with a positive base and a positive factor it is positive |
| ActionModel.Action.GetDifficulty | src/Bladeburner/Action.ts:178-182 | the action's difficulty is the level difficulty at its current level, the base difficulty itself at level 1 |
| ActionModel.DifficultyAtLevelOne | src/Bladeburner/Action.ts:178-182 | at level 1 the difficulty is the base difficulty |
| ActionModel.DifficultyIncreasing | src/Bladeburner/Action.ts:178-182 | with a positive base and a growth factor above 1, the difficulty strictly increases with the level |
| ActionModel.DifficultyScenario | src/Bladeburner/Action.ts:179 | base 100 and factor 1.01 give 100, 101 and 102.01 at levels 1 to 3 |
| ActionModel.StatSumIsOrderFree | src/Bladeburner/Action.ts:193-204 | the competence sum is the same whatever order the for-in loop visits the stats in |
| ActionModel.SumCompetence | src/Bladeburner/Action.ts:192-204 | the loop sums the weighted, decayed stat terms, reading `null` as 0; it flags NaN exactly when some weighted stat has an `undefined` weight or decay, a missing decay included |
| ActionModel.NullWeightAddsNothing | src/Bladeburner/Action.ts:202 | a stat weighted `null`, with a defined decay, adds nothing and makes nothing NaN: the competence is as if the stat were not weighted |
| ActionModel.NullDecayIsExponentZero | src/Bladeburner/Action.ts:202 | a `null` decay acts exactly as a decay of 0 |
| ActionModel.TeamCountAfter | src/Bladeburner/Action.ts:208-214 | an operation with a positive team count ends at or below the team size; the count never grows |
| ActionModel.TeamClampIdempotent | src/Bladeburner/Action.ts:209-210 | clamping the team count twice is the same as clamping it once |
| ActionModel.SuccessChance | src/Bladeburner/Action.ts:189-258 | the chance never exceeds 1; the call throws exactly when competence is NaN and the Raid rule has not already returned 0 |
| ActionModel.RaidWithoutCommunities | src/Bladeburner/Action.ts:232-235 | an operation named "Raid" in a city with no communities gets exactly 0, even when its competence would be NaN |
| ActionModel.RaidRuleOnlyForOperations | src/Bladeburner/Action.ts:233 | for every kind other than Operation, neither the name nor the community count changes the chance |
| ActionModel.BlackOpIgnoresCity | src/Bladeburner/Action.ts:217-236 | a black operation's chance does not depend on the city (population, estimate, chaos, communities) or on the estimate flag |
| ActionModel.EstimateModeReadsEstimate | src/Bladeburner/Action.ts:219-223 | in estimate mode the chance does not depend on the true population; otherwise it does not depend on the estimate |
| ActionModel.ChaosBelowThresholdIgnored | src/Bladeburner/Action.ts:226-230 | chaos at or below the threshold leaves the difficulty and the chance unchanged |
| ActionModel.NoTeamNoTeamFactor | src/Bladeburner/Action.ts:209 | with a team count of 0 the team factor is skipped, so the team size has no influence |
| ActionModel.AllMultiplierAlwaysApplies | src/Bladeburner/Action.ts:239 | for every kind and flag, `successChanceAll` = v acts as scaling the competence by v |
| ActionModel.OperationMultiplierRouting | src/Bladeburner/Action.ts:240-242 | `successChanceOperation` scales the chance exactly for operations and black operations, and does nothing otherwise |
| ActionModel.ContractMultiplierRouting | src/Bladeburner/Action.ts:243-245 | `successChanceContract` scales the chance exactly for contracts |
| ActionModel.StealthMultiplierRouting | src/Bladeburner/Action.ts:246-248 | the stealth multiplier applies exactly when `isStealth` is set |
| ActionModel.KillMultiplierRouting | src/Bladeburner/Action.ts:249-251 | the kill multiplier applies exactly when `isKill` is set |
| ActionModel.ApplyCity | src/Bladeburner/Action.ts:217-230 | the population factor (from the estimate or from the truth) scales the competence; the chaos penalty applies only above the threshold |
| ActionModel.ApplyBonuses | src/Bladeburner/Action.ts:238-254 | the multiplier statements compute the routed competence |
| ActionModel.EvaluateChance | src/Bladeburner/Action.ts:189-258 | the imperative computation of the chance gives the specified chance, Raid and NaN cases included |
| ActionModel.StatFactor | src/Bladeburner/Action.ts:273-278 | the stat factor is half the sum of the powered and the linear terms of effective agility and dexterity; it reads the `effAgi` and `effDex` multipliers directly and needs both to be present (there is no fallback to 1 here) |
| ActionModel.ClampedTime | src/Bladeburner/Action.ts:268-280 | the time before rounding is at least 1 |
| ActionModel.ActionTime | src/Bladeburner/Action.ts:268-291 | a plain action throws; every other kind gets the clamped time rounded up, an integer of at least 1 |
| ActionModel.Action.GetActionTime | src/Bladeburner/Action.ts:268-291 | the action's time is the action time at its current difficulty: a plain action throws, every other kind gets an integer of at least 1 |
| ActionModel.BlackOpTakesOperationTime | src/Bladeburner/Action.ts:282-287 | a black operation takes exactly the time of an operation or a contract of the same difficulty: the 1.5× branch is dead |
| ActionModel.SuccessesNeeded | src/Bladeburner/Action.ts:293-295 | the successes needed are the ceiling of `maxLevel * (2 * base + maxLevel - 1) / 2` |
| ActionModel.Action.GetSuccessesNeededForNextLevel | src/Bladeburner/Action.ts:293-295 | the successes needed at the action's current maximum level, never less than the exact triangular value |
| ActionModel.SuccessesNeededTriangular | src/Bladeburner/Action.ts:293-295 | for a whole-number base this equals `maxLevel * base + maxLevel * (maxLevel - 1) / 2` |
| ActionModel.SuccessesNeededIncreasing | src/Bladeburner/Action.ts:293-295 | with a positive base, each level needs strictly more successes than the one before |
| ActionModel.Action.Init | src/Bladeburner/Action.ts:149-165 | the fields are copied from the parameters, optional ones are defaulted, and the level, maximum level and counters start at their initial values |
| ActionModel.Action.Create | src/Bladeburner/Action.ts:149-176 | construction succeeds exactly when the weights sum to 1 within tolerance and no numeric decay exceeds 1; on failure it reports the weight error first; the base difficulty is the jittered one |
| ActionModel.Action.CheckDecays | src/Bladeburner/Action.ts:171-175 | the decay loop accepts exactly when no numeric decay exceeds 1, whatever order it visits the keys in |
| ActionModel.Action.GetSuccessChance | src/Bladeburner/Action.ts:189-258 | returns the specified chance, computed from the state before the call; its only change of state is the team-count clamp |
| ActionModel.Action.Attempt | src/Bladeburner/Action.ts:264-266 | succeeds exactly when the sample is below the chance; throws when the chance computation throws; clamps the team count like the chance |
| ActionModel.Action.SetMaxLevel | src/Bladeburner/Action.ts:297-301 | the maximum level goes up by exactly one when the successes reach the threshold; otherwise it is unchanged |
| Weighting.NumericPart | src/utils/checkWeightingObject.ts:11-14 | holds exactly the numeric entries, with their values |
| Weighting.CheckWeightingObject | src/utils/checkWeightingObject.ts:8-20 | true exactly when the sum of the numeric values is within 10·ε of the target, whatever order the keys are visited in |
| Weighting.NonNumericSkipped | src/utils/checkWeightingObject.ts:11-14 | a `null` or `undefined` entry affects the sum exactly as much as no entry at all |
| Weighting.NumericEntryAdds | src/utils/checkWeightingObject.ts:16 | a numeric entry adds its value to the sum, whatever the other entries are |
| Weighting.EmptyObject | src/utils/checkWeightingObject.ts:9-19 | an empty object passes exactly when the target is within 10·ε of zero |
| Common.SumOverPick | src/utils/checkWeightingObject.ts:10-16 | the sum over the keys is the same whichever key is taken first |
| CityModel.ImproveByCount | src/Bladeburner/City.ts:97-103 | an estimate below the truth stays at or below it, one above stays at or above it, and an exact one is unchanged |
| CityModel.ImproveByCountDistance | src/Bladeburner/City.ts:97-103 | for a non-negative step the distance to the truth shrinks by the step, down to zero; it never grows |
| CityModel.ImproveByCountConverges | src/Bladeburner/City.ts:92-104 | enough steps of a positive size reach the truth exactly |
| CityModel.ImproveByPercentage | src/Bladeburner/City.ts:118-125 | a percentage step never crosses the truth and leaves an exact estimate alone |
| CityModel.ImproveByPercentageBetween | src/Bladeburner/City.ts:118-125 | for a non-negative percentage and estimate, the result lies between the old estimate and the truth, and below the truth it strictly increases |
| CityModel.RoundedShare | src/Bladeburner/City.ts:185 | the rounded share lies within one half of `pop * p / 100` |
| CityModel.PopulationChange | src/Bladeburner/City.ts:183-190 | zero for a zero percentage; otherwise the rounded share unless `nonZero` forces a zero share to ±1 |
| CityModel.NonZeroChange | src/Bladeburner/City.ts:187-190 | with `nonZero`, a non-zero percentage always changes the population, and a forced change has the percentage's sign |
| CityModel.ChangeNearShare | src/Bladeburner/City.ts:185 | without `nonZero` the change is within one half of the exact share |
| CityModel.ChaosAfterCount | src/Bladeburner/City.ts:209-212 | n = 0 is a no-op; otherwise chaos becomes `chaos + n`, floored at 0 |
| CityModel.ChaosAfterPercentage | src/Bladeburner/City.ts:224-228 | p = 0 is a no-op; otherwise the result is non-negative |
| CityModel.ChaosPercentageScales | src/Bladeburner/City.ts:226-228 | for non-negative chaos the result is `max(0, chaos * (1 + p/100))`; it grows for positive p and shrinks for p in [-100, 0) |
| CityModel.City.constructor | src/Bladeburner/City.ts:71-86 | the fields take the supplied values, the community estimate is the count plus the drawn offset floored at 0, and chaos starts at 0 |
| CityModel.City.ImprovePopulationEstimateByCount | src/Bladeburner/City.ts:92-104 | only the estimate changes, by one additive improvement step towards the population |
| CityModel.City.ImprovePopulationEstimateByPercentage | src/Bladeburner/City.ts:112-126 | only the estimate changes, by one multiplicative step of `p * skillMult` percent |
| CityModel.City.ImproveCommunityEstimate | src/Bladeburner/City.ts:132-144 | only the community estimate changes, by one additive step (default 1) towards the community count |
| CityModel.City.ChangePopulationByCount | src/Bladeburner/City.ts:154-169 | the population grows by n with no floor; a non-zero `estChange` shifts the estimate and a non-zero `estOffset` jitters it; the estimate ends non-negative |
| CityModel.City.ChangePopulationByPercentage | src/Bladeburner/City.ts:179-199 | returns the population change and adds it to the population; the estimate follows, floored at 0, only with `changeEstEqually`; p = 0 changes nothing |
| CityModel.City.ChangeChaosByCount | src/Bladeburner/City.ts:205-213 | only chaos changes, as `ChaosAfterCount`, and it stays non-negative |
| CityModel.City.ChangeChaosByPercentage | src/Bladeburner/City.ts:220-229 | only chaos changes, as `ChaosAfterPercentage`, and it stays non-negative |
| CityModel.ImproveFromHalfBillion | src/Bladeburner/City.ts:97-99 | improving 500 million towards one billion by 100 million gives 600 million |
| CityModel.WipeOutSinglePerson | src/Bladeburner/City.ts:185-192 | a population of one reduced by 100 percent with `nonZero` changes by -1 and reaches 0 |
| OperationModel.RequiredRank | src/Bladeburner/Operation.ts:52-64 | the required rank is the supplied number when there is one, and 100 otherwise |
| OperationModel.NewOperation | src/Bladeburner/Operation.ts:59-65 | action construction and its errors come first; then the rank is set and the team count starts at 0 |
| ContractModel.NewContract | src/Bladeburner/Contract.ts:50-52 | exactly the action constructor, with the same validation and errors, tagged as a contract |
| ContractModel.ContractRouting | src/Bladeburner/Action.ts:240-245 | a contract picks up the contract multiplier and never the operation multiplier |
| BlackOperationModel.BlackOperationDefaultsValid | src/Bladeburner/BlackOperation.ts:16-29 | the default black operation passes validation and asks for rank 0, where an operation's default is 100 |
| BlackOperationModel.NewBlackOperation | src/Bladeburner/BlackOperation.ts:39-45 | operation construction first, with its errors and required rank; then the count is 1 and the count growth 0, whatever the parameters give |
| ActionCatalog.FirstInvalid | src/Bladeburner/GeneralActions.ts:16-20 | every entry before the result passes construction, and the entry at the result, when there is one, does not |
| ActionCatalog.InsertedStep | src/Bladeburner/GeneralActions.ts:12-14 | storing one more constructed action under its name extends what the earlier loop turns established |
| GeneralActions.GeneralActionRegistry.constructor | src/Bladeburner/GeneralActions.ts:10 | the registry starts empty |
| GeneralActions.GeneralActionRegistry.ConstructGeneralAction | src/Bladeburner/GeneralActions.ts:12-14 | stores a validated action under its name and changes no other key, or throws and leaves the map unchanged |
| GeneralActions.GeneralActionRegistry.AddEntry | src/Bladeburner/GeneralActions.ts:17-19 | one loop turn: throws exactly when the entry is invalid, leaving the map unchanged; otherwise extends the invariant by one entry |
| GeneralActions.GeneralActionRegistry.InitBladeburnerGeneralActions | src/Bladeburner/GeneralActions.ts:16-20 | throws exactly when some entry is invalid, with the error of the first such entry; the names before it are added, existing keys keep their values, and each added name holds a validated action built from its last entry with that name |
| BlackOperations.BlackOperationRegistry.constructor | src/Bladeburner/BlackOperations.ts:13 | the registry starts empty |
| BlackOperations.BlackOperationRegistry.ConstructBlackOperation | src/Bladeburner/BlackOperations.ts:15-17 | stores a one-shot black operation under its name, or throws and leaves the map unchanged |
| BlackOperations.BlackOperationRegistry.AddEntry | src/Bladeburner/BlackOperations.ts:20-22 | one loop turn: throws exactly when the entry is invalid; otherwise extends the invariant by one entry |
| BlackOperations.BlackOperationRegistry.InitBladeburnerBlackOperations | src/Bladeburner/BlackOperations.ts:19-23 | as for general actions, and every stored value has count 1, count growth 0, the required rank of its entry and a team count of 0 |
| SkillModel.OrOne | src/Bladeburner/Skill.ts:190-191 | a zero cost becomes 1, and a non-zero cost is kept |
| SkillModel.ConstructionError | src/Bladeburner/Skill.ts:180-189 | construction throws exactly when the name or the description is empty; the name is checked first |
| SkillModel.StackedEffectIsLinear | src/Bladeburner/Skill.ts:7-11 | the documented stacking rule, stated on its own because the stacking itself happens outside this core: L levels of an effect v add up to L·v, not compounded |
| SkillModel.TwoLevelsOfFivePercent | src/Bladeburner/Skill.ts:10-11 | two levels of 5% give 10%, not 10.25% |
| SkillModel.Skill.Init | src/Bladeburner/Skill.ts:190-212 | costs are defaulted to 1 when zero; the level cap and each effect are kept exactly when they are non-zero |
| SkillModel.Skill.Create | src/Bladeburner/Skill.ts:179-213 | throws exactly when the name or the description is missing, with that message; otherwise builds a skill from the parameters |
| SkillModel.Skill.RebuildIsIdentity | src/Bladeburner/Skill.ts:190-212 | building a skill again from a built skill's own fields gives the same fields: the defaulting rules are idempotent |
| SkillModel.Skill.CalculateCost | src/Bladeburner/Skill.ts:215-217 | the cost is the floor of `(baseCost + level * costInc) * mult` |
| SkillModel.Skill.CostNonDecreasing | src/Bladeburner/Skill.ts:216 | with a non-negative increment and multiplier, a higher level never costs less |
| SkillModel.Skill.CostStep | src/Bladeburner/Skill.ts:216 | with the neutral multiplier and a whole-number increment, each level adds exactly the increment |
| SkillsMetadata.EntriesAsDescribed | src/Bladeburner/data/SkillsMetadata.ts:7-85 | there are 13 entries; each sets exactly the effect fields its description names, each with a positive value |
| SkillsMetadata.EveryEntryBuilds | src/Bladeburner/data/SkillsMetadata.ts:8-84 | every entry has a name and a description, so building it never throws |
| SkillsMetadata.CostsPositive | src/Bladeburner/data/SkillsMetadata.ts:12-82 | every base cost and increment is positive, so the default of 1 never applies |
| SkillsMetadata.OnlyOverclockCapped | src/Bladeburner/data/SkillsMetadata.ts:39-43 | only Overclock has a level cap, and the cap is 90 |
| SkillsMetadata.CombatSkills | src/Bladeburner/data/SkillsMetadata.ts:44-54 | Reaper sets strength, defense, dexterity and agility to 2; Evasive System sets dexterity and agility to 3 |
| Skills.FirstFailure | src/Bladeburner/Skills.ts:14-18 | every entry before the result builds, and the entry at the result, when there is one, throws |
| Skills.InsertedStep | src/Bladeburner/Skills.ts:11 | storing one more built skill under its name extends what the earlier loop turns established |
| Skills.SkillRegistry.constructor | src/Bladeburner/Skills.ts:8 | the registry starts empty |
| Skills.SkillRegistry.ConstructSkill | src/Bladeburner/Skills.ts:10-12 | stores the built skill under its name and changes no other key, or throws and leaves the map unchanged |
| Skills.SkillRegistry.AddEntry | src/Bladeburner/Skills.ts:15-17 | one loop turn: throws exactly when the entry cannot be built; otherwise extends the invariant by one entry |
| Skills.SkillRegistry.InitFrom | src/Bladeburner/Skills.ts:14-18 | for any table: the first throwing entry stops the loop with its error; the names before it are added, existing keys keep their values, and the last entry with each name wins |
| Skills.SkillRegistry.InitBladeburnerSkills | src/Bladeburner/Skills.ts:14-18 | on the skill table: it never throws, the keys gained are exactly the table's names, and each name holds the skill built from its last entry |
| Milestones.HighestMilestone | src/Milestones/ui/Root.tsx:10-17 | -1 exactly when no milestone is fulfilled; otherwise a fulfilled index after which none is fulfilled |
| Milestones.Rendered | src/Milestones/ui/Root.tsx:21-31 | the milestone at index i is shown exactly when i <= n + 1, as its check box and title |
| Milestones.ShownCount | src/Milestones/ui/Root.tsx:20-31 | the list shows `min(n + 2, length)` milestones |
| Milestones.FulfilledAreShown | src/Milestones/ui/Root.tsx:20-22 | every fulfilled milestone is shown, with a ticked box |
| RandomInt.GetRandomInt | utils/helpers/getRandomInt.ts:8-13 | the result is the smaller bound plus a whole number |
| RandomInt.InRange | utils/helpers/getRandomInt.ts:8-12 | for integer bounds and a sample in [0, 1), the result is an integer between the smaller and the larger bound, inclusive |
| RandomInt.Symmetric | utils/helpers/getRandomInt.ts:9-10 | swapping the bounds gives the same result |
| RandomInt.EqualBounds | utils/helpers/getRandomInt.ts:9-12 | equal bounds give that bound |
| RandomInt.MonotonicInSample | utils/helpers/getRandomInt.ts:12 | a larger sample never gives a smaller result |
| Membership.Includes | scripts/walk.ts:137 | `includes` is true exactly when some element equals the value |
| Walk.IsValidSort | scripts/walk.ts:136-141 | true exactly for the seven columns hackLevel, hackValue, hasRoot, incomeRate, name, security and serverMoney |
| Walk.IsValidSortOrder | scripts/walk.ts:143-148 | true exactly for "asc" and "desc" |
| Walk.ArgumentsAccepted | scripts/walk.ts:19 | the arguments pass exactly when both the column and the order are valid |
| Walk.DefaultsAccepted | scripts/walk.ts:17-24 | the default column and order pass the argument check |
| Walk.OthersRefused | scripts/walk.ts:136-148 | the check is case-sensitive ("ASC" is refused) and rejects columns outside the list |
| NukeAll.IsValidSort | scripts/nukeall.ts:103-108 | true exactly when the column is in the imported list |
| NukeAll.IsValidSortOrder | scripts/nukeall.ts:110-115 | true exactly when the order is in the imported list |
| NukeAll.ArgumentsAccepted | scripts/nukeall.ts:13-18 | the arguments pass exactly when the column is in the imported columns and the order in the imported orders |
| NukeAll.SameAsWalk | scripts/nukeall.ts:13-18 | with the lists of `scripts/walk.ts`, both scripts accept exactly the same arguments |
| NukeAll.DefaultsAccepted | scripts/nukeall.ts:11-18 | the defaults pass exactly when the imported lists contain them |
| NumberFormat.FormatNumber | scripts/walk.ts:130-134 | the text is split at ".", commas are inserted into the first part, and the parts are joined with "." again (the same definition as `scripts/nukeall.ts:97-101`) |
| NumberFormat.InsertCommas | scripts/walk.ts:132 | a comma is put before each character at whose position the pattern matches, and nowhere else |
| NumberFormat.Split | scripts/walk.ts:131 | `split(".")` gives at least one part, and no part contains "." |
| NumberFormat.Join | scripts/walk.ts:133 | `join(".")` puts a "." between consecutive parts |
| NumberFormat.JoinSplit | scripts/walk.ts:131-133 | joining the split parts with the separator gives back the string |
| NumberFormat.FormatNumberKeepsFraction | scripts/walk.ts:131-133 | only the text before the first "." is rewritten; everything from the first "." on is returned unchanged |
| NumberFormat.StripFormatNumber | scripts/walk.ts:130-134 | with all commas deleted, the output equals the input with all commas deleted |
| NumberFormat.RoundTrip | scripts/walk.ts:130-134 | for an input without commas, deleting the commas from the output gives back the input |
| NumberFormat.NoLeadingComma | scripts/walk.ts:132 | the output begins with the input's first character, so it never begins with a comma |
| NumberFormat.CommaAtDigits | scripts/walk.ts:132 | in a digit string, the pattern matches at a position exactly when the position is not the first and the digits after it are a positive multiple of 3 |
| NumberFormat.InsertCommasGroupsDigits | scripts/walk.ts:132 | on a digit string, the replacement groups the digits into thousands from the right |
| NumberFormat.InsertCommasSigned | scripts/walk.ts:132 | a leading minus sign is kept, and the digits after it are grouped |
| NumberFormat.FormatNumeral | scripts/walk.ts:130-134 | an optionally signed digit string, with an optional part from "." on, gets its digits grouped into thousands and the rest unchanged |
| NumberFormat.ShortIntegerPartUnchanged | scripts/walk.ts:132 | an integer part of at most three digits is unchanged |
| NumberFormat.GroupExample | scripts/walk.ts:132 | 1234567 becomes 1,234,567 |

## Left out

- Floating point: every number is a `real`, so rounding error, infinities and NaN are not modelled. The NaN and `typeof` guards around the City methods, the NaN throw of `getDifficulty` and the null check of the Bladeburner instance in `getSuccessChance` are left out. The NaN produced by an `undefined` weight or decay is modelled, as the `nan` flag.
- Weighting.CheckWeightingObject: the real sum of the weighting check does not depend on the order of the keys. A double-precision sum can, and that dependence is not modelled.
- Fractional powers (`Math.pow`) and the game-balance constants are opaque parameters in `Tuning`. Only structural facts are proved about them: which branch runs, which multiplier applies, and the clamps.
- ActionModel.SuccessChance: requires a non-zero effective difficulty. Dividing by zero would give Infinity or NaN in JavaScript, and neither exists among reals.
- ActionModel.ActionTime: requires a non-zero stat factor and non-zero constants, because dividing by zero yields Infinity or NaN. It also requires the `effAgi` and `effDex` multipliers to be present, because without one of them JavaScript computes a NaN time.
- Stat map values other than numbers, `null` and `undefined` (a string, a boolean) are not modelled: `IStatMap<number>` admits none of them. JavaScript would convert them to numbers in the arithmetic of `getSuccessChance`.
- ActionModel.DecaysValid: every non-numeric decay passes. JavaScript compares a non-null decay of another type after converting it to a number. That means a decay given as the string "2" is rejected, and this case is not modelled.
- The random offset of the base difficulty (`addOffset`) is a function parameter. So is the `estOffset` jitter of `changePopulationByCount`. `Math.random` and `MathRandomRef` become sample parameters.
- CityModel.City.constructor: takes the randomly drawn initial values as arguments, and the `getRandomInt(-5, 5)` draw for the community estimate as an integer offset. It does not reproduce the random field initialisers or the type tests on its parameter object. At src/Bladeburner/City.ts:78 the code adds the function `MathRandomRef` itself to 0.5, with no call. That gives a string, so the estimate becomes NaN. The model does not reproduce this defect.
- GeneralActions.GeneralActionRegistry.InitBladeburnerGeneralActions: the metadata file `data/GeneralActionsMetadata` is not part of this model. The metadata is a parameter. The contract does not state that the stored actions are newly allocated objects.
- BlackOperations.BlackOperationRegistry.InitBladeburnerBlackOperations: `data/BlackOperationsMetadata` is not part of this model. The metadata is a parameter. The contract does not state that the stored operations are newly allocated objects.
- Skills.SkillRegistry.InitFrom: does not state that the stored skills are newly allocated objects.
- The values of `SkillNames` are not part of this model. The table uses each constant's identifier as a stand-in, and whether the real names are distinct cannot be stated.
- `scripts/shared-server-list.ts` is not part of this model. The `COLUMNS` and `SORT_ORDERS` that `scripts/nukeall.ts` imports are parameters.
- NumberFormat.FormatNumber: takes the text of the number. The conversion of a JavaScript number to text (`toString`, exponent notation included) is not modelled.
- The netscript parts of the scripts are not modelled: `main`, `dive` and `hack`, and the `scripts/weaken.ts` loop. Neither is the sort comparator of `scripts/walk.ts`. They run on data from `ns` calls and printing.
- Serialization (`toJSON`, `fromJSON`, `Reviver`) relies on generic helpers that are not part of this model.
- User interface: the JSX of `src/Milestones/ui/Root.tsx` is modelled only as which items are shown and with what text. Also out are `src/Faction/ui/Info.tsx`, `utils/uiHelpers/createPopupCloseButton.ts` and the static help strings of `src/Bladeburner/ConsoleHelpText.ts`.
- `src/Bladeburner/ActionIdentifier.ts` is a two-field record copied from its parameters. Its only behaviour is serialization.
- Milestones.HighestMilestone: whether a milestone is fulfilled depends on the player. The answers come in as a sequence of flags.
- Console warnings (`console.warn` in the weighting check, `console.log` for a missing skill multiplier) are output and are left out. The fallback to 1 for a missing multiplier in the competence loop of `getSuccessChance` is modelled. `getActionTime` has no such fallback, and the model requires `effAgi` and `effDex` to be present there.

/** A contract is an action built by the base constructor and tagged as a
    contract, which routes the contract multiplier to it. */
module ContractModel {
  import opened Common
  import ActionModel

  /** The contract constructor, which only calls the action constructor. */
  method NewContract(p: ActionModel.ActionParams, addOffset: (real, real) -> real)
    returns (r: Result<ActionModel.Action, string>)
    ensures r.Ok? <==> ActionModel.WeightsValid(p.weights) && ActionModel.DecaysValid(p.decays)
    ensures r.Ok? ==> fresh(r.value) && r.value.Valid() && r.value.Checked() && r.value.origin == p
    ensures r.Ok? ==> r.value.BuiltFrom(p, ActionModel.Contract, addOffset(p.baseDifficulty, 10.0))
    ensures r.Err? ==> r.error == ActionModel.ConstructionError(p)
  {
    r := ActionModel.Action.Create(p, ActionModel.Contract, addOffset);
  }

  /** A contract has a time, and its chance picks up the contract multiplier
      and not the operation multiplier. */
  lemma ContractRouting(c: real, isStealth: bool, isKill: bool, m: ActionModel.SkillMultipliers,
                        playerMult: real, v: real)
    ensures ActionModel.Routed(c, ActionModel.Contract, isStealth, isKill, m.(successChanceOperation := v), playerMult)
         == ActionModel.Routed(c, ActionModel.Contract, isStealth, isKill, m, playerMult)
    ensures ActionModel.Routed(c, ActionModel.Contract, isStealth, isKill, m.(successChanceContract := v), playerMult)
         == v * ActionModel.Routed(c, ActionModel.Contract, isStealth, isKill, m.(successChanceContract := 1.0), playerMult)
  {
    ActionModel.OperationMultiplierRouting(c, ActionModel.Contract, isStealth, isKill, m, playerMult, v);
    ActionModel.ContractMultiplierRouting(c, ActionModel.Contract, isStealth, isKill, m, playerMult, v);
  }
}

/** A black operation is an operation that can be done once. */
module BlackOperationModel {
  import opened Common
  import ActionModel
  import OperationModel
  import RandomInt

  /** The default parameters of a black operation: those of an action, plus
      no health and rank loss and a required rank of 0. */
  function BlackOperationDefaultParams(countSample: real, growthSample: real): ActionModel.ActionParams
  {
    ActionModel.DefaultParams(countSample, growthSample).(hpLoss := Some(0.0), rankLoss := Some(0.0), reqdRank := Some(0.0))
  }

  /** The default black operation passes validation, asks for rank 0 rather
      than the operation default of 100, and loses no rank or health. */
  lemma BlackOperationDefaultsValid(countSample: real, growthSample: real)
    requires RandomInt.IsSample(countSample) && RandomInt.IsSample(growthSample)
    ensures var p := BlackOperationDefaultParams(countSample, growthSample);
      && ActionModel.WeightsValid(p.weights) && ActionModel.DecaysValid(p.decays)
      && OperationModel.RequiredRank(p) == 0.0
      && OperationModel.RequiredRank(ActionModel.DefaultParams(countSample, growthSample)) == 100.0
      && ActionModel.OrElse(p.hpLoss, 0.0) == 0.0 && ActionModel.OrElse(p.rankLoss, 0.0) == 0.0
  {
    ActionModel.DefaultParamsValid(countSample, growthSample);
  }

  /** One-shot: whatever count and count growth the parameters give, a black
      operation starts with a count of 1 that never grows. */
  ghost predicate OneShot(a: ActionModel.Action)
    reads a
  {
    a.count == 1.0 && a.countGrowth == 0.0
  }

  /** The black operation constructor: the operation constructor, then a
      count of 1 and no growth. */
  method NewBlackOperation(p: ActionModel.ActionParams, addOffset: (real, real) -> real)
    returns (r: Result<ActionModel.Action, string>)
    ensures r.Ok? <==> ActionModel.WeightsValid(p.weights) && ActionModel.DecaysValid(p.decays)
    ensures r.Ok? ==> fresh(r.value) && r.value.Valid() && r.value.Checked() && r.value.origin == p && OneShot(r.value)
    ensures r.Ok? ==> r.value.BuiltFrom(p.(count := 1.0, countGrowth := 0.0), ActionModel.BlackOp,
                                        addOffset(p.baseDifficulty, 10.0))
    ensures r.Ok? ==> r.value.reqdRank == OperationModel.RequiredRank(p) && r.value.teamCount == 0.0
    ensures r.Err? ==> r.error == ActionModel.ConstructionError(p)
  {
    r := OperationModel.NewOperation(p, addOffset, ActionModel.BlackOp);
    if r.Ok? {
      r.value.count := 1.0;
      r.value.countGrowth := 0.0;
    }
  }
}

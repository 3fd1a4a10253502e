/** An operation is an action with a required rank and a team count. */
module OperationModel {
  import opened Common
  import ActionModel

  /** The rank an operation asks for: the parameter when it is a number, and
      100 otherwise. */
  function RequiredRank(p: ActionModel.ActionParams): (r: real)
    ensures p.reqdRank.Some? ==> r == p.reqdRank.value
    ensures p.reqdRank.None? ==> r == 100.0
  {
    ActionModel.OrElse(p.reqdRank, 100.0)
  }

  /** The operation constructor: the action constructor, then the field
      defaults of an operation (rank 100, no team), then the rank from the
      parameters when it is a number. `kind` is the class being built, an
      operation or a black operation. */
  method NewOperation(p: ActionModel.ActionParams, addOffset: (real, real) -> real,
                      kind: ActionModel.Kind := ActionModel.Operation)
    returns (r: Result<ActionModel.Action, string>)
    requires ActionModel.IsOperation(kind)
    ensures r.Ok? <==> ActionModel.WeightsValid(p.weights) && ActionModel.DecaysValid(p.decays)
    ensures r.Ok? ==> fresh(r.value) && r.value.Valid() && r.value.Checked() && r.value.origin == p
    ensures r.Ok? ==> r.value.BuiltFrom(p, kind, addOffset(p.baseDifficulty, 10.0))
    ensures r.Ok? ==> r.value.reqdRank == RequiredRank(p) && r.value.teamCount == 0.0
    ensures r.Err? ==> r.error == ActionModel.ConstructionError(p)
  {
    r := ActionModel.Action.Create(p, kind, addOffset);
    if r.Ok? {
      var a := r.value;
      a.reqdRank := 100.0;
      a.teamCount := 0.0;
      if p.reqdRank.Some? {
        a.reqdRank := p.reqdRank.value;
      }
    }
  }
}

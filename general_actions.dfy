/** The catalogue of general actions (training, field analysis and the
    like): plain actions built from a metadata sequence, which is a
    parameter here because its contents are not part of this model. */
module GeneralActions {
  import opened Common
  import opened ActionModel
  import opened ActionCatalog

  class GeneralActionRegistry {
    var actions: map<string, Action>

    constructor ()
      ensures actions == map[]
    {
      actions := map[];
    }

    /** `constructGeneralAction`: builds a plain action and stores it under
        its name, or throws and leaves the map as it was. */
    method ConstructGeneralAction(p: ActionParams, addOffset: (real, real) -> real) returns (err: Option<string>)
      modifies this
      ensures err.Some? <==> !Accepted(p)
      ensures err.Some? ==> err.value == ConstructionError(p) && actions == old(actions)
      ensures err.None? ==> p.name in actions && actions == old(actions)[p.name := actions[p.name]]
      ensures err.None? ==> fresh(actions[p.name]) && actions[p.name].origin == p && Made(actions[p.name], General, addOffset)
    {
      var r := Action.Create(p, General, addOffset);
      match r
      case Err(e) => err := Some(e);
      case Ok(a) =>
        actions := actions[p.name := a];
        err := None;
    }

    /** One turn of the loop of `initBladeburnerGeneralActions`: entry `i` is
        constructed and stored, which extends what the earlier turns did, or
        it is rejected and nothing changes. */
    method AddEntry(ghost start: map<string, Action>, metadata: seq<ActionParams>, i: nat,
                    addOffset: (real, real) -> real) returns (err: Option<string>)
      requires i < |metadata| && Inserted(start, actions, metadata, i, General, addOffset)
      modifies this
      ensures err.Some? <==> !Accepted(metadata[i])
      ensures err.Some? ==> err.value == ConstructionError(metadata[i]) && actions == old(actions)
      ensures err.None? ==> Inserted(start, actions, metadata, i + 1, General, addOffset)
    {
      ghost var before := actions;
      err := ConstructGeneralAction(metadata[i], addOffset);
      if err.None? {
        InsertedStep(start, before, metadata, i, General, addOffset, actions[metadata[i].name]);
      }
    }

    /** `initBladeburnerGeneralActions`. With `k` the first entry the
        constructor rejects (or all of them): the names of the entries
        before `k` are added, every other key keeps its value, and each added
        name holds a validated action built from its last entry before `k`. */
    method InitBladeburnerGeneralActions(metadata: seq<ActionParams>, addOffset: (real, real) -> real)
      returns (err: Option<string>)
      modifies this
      ensures var k := FirstInvalid(metadata);
        && (err.Some? <==> k < |metadata|)
        && (err.Some? ==> err.value == ConstructionError(metadata[k]))
        && Inserted(old(actions), actions, metadata, k, General, addOffset)
    {
      ghost var k := FirstInvalid(metadata);
      err := None;
      var i := 0;
      assert metadata[..0] == [];
      while i < |metadata|
        invariant 0 <= i <= k
        invariant err.None?
        invariant Inserted(old(actions), actions, metadata, i, General, addOffset)
      {
        err := AddEntry(old(actions), metadata, i, addOffset);
        if err.Some? {
          break;
        }
        assert k != i by {
          assert k < |metadata| ==> !Accepted(metadata[k]);
        }
        i := i + 1;
      }
      assert i == k;
    }
  }
}

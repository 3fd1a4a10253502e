/** The catalogue of black operations, built from a metadata sequence that
    is a parameter here because its contents are not part of this model.
    Every black operation in it is one-shot. */
module BlackOperations {
  import opened Common
  import opened ActionModel
  import opened ActionCatalog
  import BlackOperationModel

  class BlackOperationRegistry {
    var blackOperations: map<string, Action>

    constructor ()
      ensures blackOperations == map[]
    {
      blackOperations := map[];
    }

    /** `constructBlackOperation`: builds a black operation and stores it
        under its name, or throws and leaves the map as it was. */
    method ConstructBlackOperation(p: ActionParams, addOffset: (real, real) -> real) returns (err: Option<string>)
      modifies this
      ensures err.Some? <==> !Accepted(p)
      ensures err.Some? ==> err.value == ConstructionError(p) && blackOperations == old(blackOperations)
      ensures err.None? ==> p.name in blackOperations && blackOperations == old(blackOperations)[p.name := blackOperations[p.name]]
      ensures err.None? ==> fresh(blackOperations[p.name]) && blackOperations[p.name].origin == p
      ensures err.None? ==> Made(blackOperations[p.name], BlackOp, addOffset)
    {
      var r := BlackOperationModel.NewBlackOperation(p, addOffset);
      match r
      case Err(e) => err := Some(e);
      case Ok(a) =>
        blackOperations := blackOperations[p.name := a];
        err := None;
    }

    /** One turn of the loop of `initBladeburnerBlackOperations`: entry `i`
        is constructed and stored, which extends what the earlier turns did,
        or it is rejected and nothing changes. */
    method AddEntry(ghost start: map<string, Action>, metadata: seq<ActionParams>, i: nat,
                    addOffset: (real, real) -> real) returns (err: Option<string>)
      requires i < |metadata| && Inserted(start, blackOperations, metadata, i, BlackOp, addOffset)
      modifies this
      ensures err.Some? <==> !Accepted(metadata[i])
      ensures err.Some? ==> err.value == ConstructionError(metadata[i]) && blackOperations == old(blackOperations)
      ensures err.None? ==> Inserted(start, blackOperations, metadata, i + 1, BlackOp, addOffset)
    {
      ghost var before := blackOperations;
      err := ConstructBlackOperation(metadata[i], addOffset);
      if err.None? {
        InsertedStep(start, before, metadata, i, BlackOp, addOffset, blackOperations[metadata[i].name]);
      }
    }

    /** `initBladeburnerBlackOperations`. With `k` the first entry the
        constructor rejects (or all of them): the names of the entries
        before `k` are added, every other key keeps its value, and each added
        name holds a one-shot black operation built from its last entry
        before `k`. */
    method InitBladeburnerBlackOperations(metadata: seq<ActionParams>, addOffset: (real, real) -> real)
      returns (err: Option<string>)
      modifies this
      ensures var k := FirstInvalid(metadata);
        && (err.Some? <==> k < |metadata|)
        && (err.Some? ==> err.value == ConstructionError(metadata[k]))
        && Inserted(old(blackOperations), blackOperations, metadata, k, BlackOp, addOffset)
    {
      ghost var k := FirstInvalid(metadata);
      err := None;
      var i := 0;
      assert metadata[..0] == [];
      while i < |metadata|
        invariant 0 <= i <= k
        invariant err.None?
        invariant Inserted(old(blackOperations), blackOperations, metadata, i, BlackOp, addOffset)
      {
        err := AddEntry(old(blackOperations), metadata, i, addOffset);
        if err.Some? {
          break;
        }
        assert k != i by {
          assert k < |metadata| ==> !Accepted(metadata[k]);
        }
        i := i + 1;
      }
      assert i == k;
    }
  }
}

/** What the catalogues of general actions and of black operations share:
    each is a name-keyed map filled by one constructor call per metadata
    entry, in order, never cleared, with a later entry replacing an earlier
    one of the same name, and with a throw ending the loop and keeping the
    entries inserted before it. */
module ActionCatalog {
  import opened Common
  import opened ActionModel
  import BlackOperationModel
  import OperationModel

  /** The names of a sequence of action parameters. */
  function Names(ps: seq<ActionParams>): set<string>
  {
    if ps == [] then {} else Names(ps[..|ps| - 1]) + {ps[|ps| - 1].name}
  }

  lemma NamesStep(ps: seq<ActionParams>, i: nat)
    requires i < |ps|
    ensures Names(ps[..i + 1]) == Names(ps[..i]) + {ps[i].name}
  {
    assert ps[..i + 1][..i] == ps[..i];
  }

  /** Every entry's name is among the names. */
  lemma {:induction false} NamesMembers(ps: seq<ActionParams>)
    ensures forall j :: 0 <= j < |ps| ==> ps[j].name in Names(ps)
  {
    if ps != [] {
      var init := ps[..|ps| - 1];
      NamesMembers(init);
      assert forall j :: 0 <= j < |init| ==> ps[j] == init[j];
    }
  }

  /** The action constructor accepts `p`: its weights sum to 1 and no decay
      exceeds 1. */
  ghost predicate Accepted(p: ActionParams)
  {
    WeightsValid(p.weights) && DecaysValid(p.decays)
  }

  /** The index of the first entry the constructor rejects, or the length of
      the sequence when it rejects none. */
  ghost function FirstInvalid(ps: seq<ActionParams>): (k: nat)
    ensures k <= |ps|
    ensures forall i :: 0 <= i < k ==> Accepted(ps[i])
    ensures k < |ps| ==> !Accepted(ps[k])
  {
    if ps == [] || !Accepted(ps[0]) then 0 else 1 + FirstInvalid(ps[1..])
  }

  /** Entry `i` is the last among the first `k` entries with its name. */
  predicate LastWithName(ps: seq<ActionParams>, i: int, k: int)
    requires 0 <= i < k <= |ps|
  {
    forall j :: i < j < k ==> ps[j].name != ps[i].name
  }

  /** `a` is what the constructor for `kind` makes of its origin: validated
      weights and decays, the parameters' fields, and for a black operation
      a count of 1 that never grows, the required rank of its parameters and
      no team yet. */
  ghost predicate Made(a: Action, kind: Kind, addOffset: (real, real) -> real)
    reads a
  {
    && a.Checked() && a.Valid()
    && if kind.BlackOp? then
         && BlackOperationModel.OneShot(a)
         && a.reqdRank == OperationModel.RequiredRank(a.origin) && a.teamCount == 0.0
         && a.BuiltFrom(a.origin.(count := 1.0, countGrowth := 0.0), BlackOp, addOffset(a.origin.baseDifficulty, 10.0))
       else
         a.BuiltFrom(a.origin, kind, addOffset(a.origin.baseDifficulty, 10.0))
  }

  /** What the first `i` steps of the registration loop leave in `now`,
      starting from `start`: the names of the first `i` entries are added,
      every other key keeps its value, each added name holds an action whose
      origin is its last entry among the first `i`, and every added action
      was made from its origin. */
  ghost predicate Inserted(start: map<string, Action>, now: map<string, Action>, ps: seq<ActionParams>, i: nat,
                           kind: Kind, addOffset: (real, real) -> real)
    requires i <= |ps|
    reads now.Values
  {
    && now.Keys == start.Keys + Names(ps[..i])
    && OthersKept(start, now, Names(ps[..i]))
    && LastWins(now, ps, i)
    && AllMade(now, Names(ps[..i]), kind, addOffset)
  }

  /** The keys of `start` outside `added` keep their values in `now`. */
  ghost predicate OthersKept(start: map<string, Action>, now: map<string, Action>, added: set<string>)
  {
    forall n :: n in start && n !in added ==> n in now && now[n] == start[n]
  }

  /** Each of the first `i` entries that is the last of its name among them
      is the origin of the action under its name. */
  ghost predicate LastWins(now: map<string, Action>, ps: seq<ActionParams>, i: nat)
    requires i <= |ps|
  {
    forall j :: 0 <= j < i && LastWithName(ps, j, i) ==> ps[j].name in now && now[ps[j].name].origin == ps[j]
  }

  /** Every action under a name in `added` was made from its origin. */
  ghost predicate AllMade(now: map<string, Action>, added: set<string>, kind: Kind, addOffset: (real, real) -> real)
    reads now.Values
  {
    forall n :: n in added ==> n in now && Made(now[n], kind, addOffset)
  }

  /** One more successful step of the loop keeps `Inserted`. */
  lemma InsertedStep(start: map<string, Action>, now: map<string, Action>, ps: seq<ActionParams>, i: nat,
                     kind: Kind, addOffset: (real, real) -> real, a: Action)
    requires i < |ps| && Inserted(start, now, ps, i, kind, addOffset)
    requires a.origin == ps[i] && Made(a, kind, addOffset)
    ensures Inserted(start, now[ps[i].name := a], ps, i + 1, kind, addOffset)
  {
    NamesStep(ps, i);
    OthersKeptStep(start, now, Names(ps[..i]), ps[i].name, a);
    LastWinsStep(now, ps, i, a);
    AllMadeStep(now, Names(ps[..i]), kind, addOffset, ps[i].name, a);
  }

  lemma OthersKeptStep(start: map<string, Action>, now: map<string, Action>, added: set<string>, n: string, a: Action)
    requires OthersKept(start, now, added)
    ensures OthersKept(start, now[n := a], added + {n})
  {
  }

  lemma AllMadeStep(now: map<string, Action>, added: set<string>, kind: Kind, addOffset: (real, real) -> real,
                    n: string, a: Action)
    requires AllMade(now, added, kind, addOffset) && Made(a, kind, addOffset)
    ensures AllMade(now[n := a], added + {n}, kind, addOffset)
  {
  }

  lemma LastWinsStep(now: map<string, Action>, ps: seq<ActionParams>, i: nat, a: Action)
    requires i < |ps| && LastWins(now, ps, i) && a.origin == ps[i]
    ensures LastWins(now[ps[i].name := a], ps, i + 1)
  {
    var next := now[ps[i].name := a];
    forall j | 0 <= j < i + 1 && LastWithName(ps, j, i + 1)
      ensures ps[j].name in next && next[ps[j].name].origin == ps[j]
    {
      if j < i {
        assert LastWithName(ps, j, i);
        assert ps[i].name != ps[j].name;
      }
    }
  }
}

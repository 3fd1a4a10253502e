/** A Bladeburner city: the true population, communities and chaos, and the
    player's estimates of the first two, which intelligence actions move
    towards the truth without ever passing it. */
module CityModel {
  import opened Common

  const CityNames: seq<string> := ["Aevum", "Chongqing", "Sector-12", "New Tokyo", "Ishima", "Volhaven"]

  /** Population at which the population factor of a success chance is 1. */
  const PopulationThreshold: real := 1000000000.0

  // ---------------------------------------------------------------------
  // Estimate updates, shared by the population and the community estimate

  /** An additive improvement step: the estimate moves by `n` towards the
      truth and stops there. */
  function ImproveByCount(est: real, truth: real, n: real): (r: real)
    ensures est < truth ==> r <= truth
    ensures est > truth ==> r >= truth
    ensures est == truth ==> r == est
  {
    if est < truth then Min(est + n, truth)
    else if est > truth then Max(est - n, truth)
    else est
  }

  /** For a non-negative step the estimate ends up exactly `n` closer to the
      truth, or on it: it never overshoots and never moves away. */
  lemma ImproveByCountDistance(est: real, truth: real, n: real)
    requires n >= 0.0
    ensures Abs(ImproveByCount(est, truth, n) - truth) == Max(0.0, Abs(est - truth) - n)
    ensures Abs(ImproveByCount(est, truth, n) - truth) <= Abs(est - truth)
  {
  }

  /** `k` successive additive improvements. */
  function ImproveByCountTimes(est: real, truth: real, n: real, k: nat): real
    decreases k
  {
    if k == 0 then est else ImproveByCountTimes(ImproveByCount(est, truth, n), truth, n, k - 1)
  }

  /** Repeated additive improvements reach the truth: `k` steps of size `n > 0`
      are enough once `k * n` covers the initial distance. */
  lemma {:induction false} ImproveByCountConverges(est: real, truth: real, n: real, k: nat)
    requires n > 0.0 && k as real * n >= Abs(est - truth)
    ensures ImproveByCountTimes(est, truth, n, k) == truth
    decreases k
  {
    if k == 0 {
      assert est == truth;
    } else {
      var next := ImproveByCount(est, truth, n);
      ImproveByCountDistance(est, truth, n);
      assert (k - 1) as real * n == k as real * n - n;
      ImproveByCountConverges(next, truth, n, k - 1);
    }
  }

  /** A multiplicative improvement step by `pm` percent; below the truth the
      estimate is first raised by one, so that a zero estimate can grow. */
  function ImproveByPercentage(est: real, truth: real, pm: real): (r: real)
    ensures est < truth ==> r <= truth
    ensures est > truth ==> r >= truth
    ensures est == truth ==> r == est
  {
    if est < truth then Min((est + 1.0) * (1.0 + pm / 100.0), truth)
    else if est > truth then Max(est * (1.0 - pm / 100.0), truth)
    else est
  }

  /** For a non-negative percentage and a non-negative estimate, a
      multiplicative step ends between the old estimate and the truth; below
      the truth it always makes progress. */
  lemma ImproveByPercentageBetween(est: real, truth: real, pm: real)
    requires pm >= 0.0 && est >= 0.0
    ensures var r := ImproveByPercentage(est, truth, pm);
      (est < truth ==> est < r <= truth) && (est > truth ==> truth <= r <= est)
  {
    var up := 1.0 + pm / 100.0;
    var down := 1.0 - pm / 100.0;
    assert (est + 1.0) * up == est + 1.0 + (est + 1.0) * (pm / 100.0);
    assert (est + 1.0) * (pm / 100.0) >= 0.0;
    assert est * down == est - est * (pm / 100.0);
    assert est * (pm / 100.0) >= 0.0;
  }

  // ---------------------------------------------------------------------
  // Changes to the true values

  /** `Math.round(pop * (p / 100))`, kept apart so that the solver treats the
      product as one term. */
  function RoundedShare(pop: real, p: real): (r: int)
    ensures pop * (p / 100.0) - 0.5 < r as real <= pop * (p / 100.0) + 0.5
  {
    Round(pop * (p / 100.0))
  }

  /** The amount `changePopulationByPercentage` adds to the population: zero
      for a zero percentage, otherwise the rounded share, pushed to plus or
      minus one when `nonZero` is set and the share rounds to zero. */
  function PopulationChange(pop: real, p: real, nonZero: bool): (change: int)
    ensures p == 0.0 ==> change == 0
    ensures p != 0.0 && !(nonZero && RoundedShare(pop, p) == 0) ==> change == RoundedShare(pop, p)
  {
    if p == 0.0 then 0
    else
      var c := RoundedShare(pop, p);
      if nonZero && c == 0 then (if p > 0.0 then 1 else -1) else c
  }

  /** With `nonZero`, a non-zero percentage always changes the population,
      and a forced change has the sign of the percentage. */
  lemma NonZeroChange(pop: real, p: real)
    requires p != 0.0
    ensures PopulationChange(pop, p, true) != 0
    ensures RoundedShare(pop, p) == 0 ==> (PopulationChange(pop, p, true) > 0 <==> p > 0.0)
  {
  }

  /** Without `nonZero`, a percentage change is within one half of the exact
      share. */
  lemma ChangeNearShare(pop: real, p: real)
    ensures Abs(PopulationChange(pop, p, false) as real - pop * (p / 100.0)) <= 0.5
  {
    var share := pop * (p / 100.0);
    if p == 0.0 {
      assert p / 100.0 == 0.0;
      assert share == 0.0;
    }
  }

  /** An additive chaos change: zero is a no-op, anything else is floored at
      zero. */
  function ChaosAfterCount(chaos: real, n: real): (r: real)
    ensures n == 0.0 ==> r == chaos
    ensures n != 0.0 ==> r >= 0.0 && (chaos + n >= 0.0 ==> r == chaos + n)
  {
    if n == 0.0 then chaos else Max(0.0, chaos + n)
  }

  /** A multiplicative chaos change by `p` percent: zero is a no-op, anything
      else is floored at zero. */
  function ChaosAfterPercentage(chaos: real, p: real): (r: real)
    ensures p == 0.0 ==> r == chaos
    ensures p != 0.0 ==> r >= 0.0
  {
    if p == 0.0 then chaos else Max(0.0, chaos + chaos * (p / 100.0))
  }

  /** For non-negative chaos, a percentage change scales it by `1 + p/100`,
      floored at zero. */
  lemma ChaosPercentageScales(chaos: real, p: real)
    requires chaos >= 0.0 && p != 0.0
    ensures ChaosAfterPercentage(chaos, p) == Max(0.0, chaos * (1.0 + p / 100.0))
    ensures p > 0.0 ==> ChaosAfterPercentage(chaos, p) >= chaos
    ensures -100.0 <= p < 0.0 ==> ChaosAfterPercentage(chaos, p) <= chaos
  {
    assert chaos * (1.0 + p / 100.0) == chaos + chaos * (p / 100.0);
    if p > 0.0 {
      assert chaos * (p / 100.0) >= 0.0;
    } else if -100.0 <= p {
      assert chaos * (p / 100.0) <= 0.0;
    }
  }

  /** What a success chance reads of a city. */
  datatype CityView = CityView(pop: real, popEst: real, comms: real, chaos: real)

  class City {
    var name: string
    var pop: real
    var popEst: real
    var comms: real
    var commsEst: real
    var chaos: real

    /** Chaos never goes below zero. */
    ghost predicate Valid()
      reads this
    {
      chaos >= 0.0
    }

    function View(): CityView
      reads this
    {
      CityView(pop, popEst, comms, chaos)
    }

    /** A city whose randomly drawn initial values are supplied by the caller:
        `commsOffset` is the `getRandomInt(-5, 5)` draw added to the number
        of communities to make its estimate, which is floored at 0; chaos
        starts at zero. */
    constructor (name: string, pop: real, popEst: real, comms: real, commsOffset: int)
      ensures Valid()
      ensures this.name == name && this.pop == pop && this.popEst == popEst
      ensures this.comms == comms && chaos == 0.0
      ensures commsEst == Max(0.0, comms + commsOffset as real) && commsEst >= 0.0
    {
      this.name := name;
      this.pop := pop;
      this.popEst := popEst;
      this.comms := comms;
      var est := comms + commsOffset as real;
      if est < 0.0 { est := 0.0; }
      commsEst := est;
      chaos := 0.0;
    }

    method ImprovePopulationEstimateByCount(n: real)
      requires Valid()
      modifies this`popEst
      ensures Valid()
      ensures popEst == ImproveByCount(old(popEst), pop, n)
    {
      if popEst < pop {
        popEst := popEst + n;
        if popEst > pop { popEst := pop; }
      } else if popEst > pop {
        popEst := popEst - n;
        if popEst < pop { popEst := pop; }
      }
    }

    method ImprovePopulationEstimateByPercentage(p: real, skillMult: real := 1.0)
      requires Valid()
      modifies this`popEst
      ensures Valid()
      ensures popEst == ImproveByPercentage(old(popEst), pop, p * skillMult)
    {
      var pMulted := p * skillMult;
      if popEst < pop {
        popEst := popEst + 1.0;
        popEst := popEst * (1.0 + pMulted / 100.0);
        if popEst > pop { popEst := pop; }
      } else if popEst > pop {
        popEst := popEst * (1.0 - pMulted / 100.0);
        if popEst < pop { popEst := pop; }
      }
    }

    method ImproveCommunityEstimate(n: real := 1.0)
      requires Valid()
      modifies this`commsEst
      ensures Valid()
      ensures commsEst == ImproveByCount(old(commsEst), comms, n)
    {
      if commsEst < comms {
        commsEst := commsEst + n;
        if commsEst > comms { commsEst := comms; }
      } else if commsEst > comms {
        commsEst := commsEst - n;
        if commsEst < comms { commsEst := comms; }
      }
    }

    /** Adds `n` to the population with no floor; a non-zero `estChange` is
        added to the estimate and a non-zero `estOffset` jitters it through
        `addOffset`; the estimate is then floored at zero. */
    method ChangePopulationByCount(n: real, addOffset: (real, real) -> real,
                                   estChange: real := 0.0, estOffset: real := 0.0)
      requires Valid()
      modifies this`pop, this`popEst
      ensures Valid()
      ensures pop == old(pop) + n
      ensures var shifted := if estChange != 0.0 then old(popEst) + estChange else old(popEst);
        popEst == Max(if estOffset != 0.0 then addOffset(shifted, estOffset) else shifted, 0.0)
      ensures popEst >= 0.0
    {
      pop := pop + n;
      if estChange != 0.0 {
        popEst := popEst + estChange;
      }
      if estOffset != 0.0 {
        popEst := addOffset(popEst, estOffset);
      }
      popEst := Max(popEst, 0.0);
    }

    /** Changes the population by `p` percent and returns the change; the
        estimate follows by the same amount, floored at zero, only when
        `changeEstEqually` is set. */
    method ChangePopulationByPercentage(p: real, changeEstEqually: bool := false, nonZero: bool := false)
      returns (change: real)
      requires Valid()
      modifies this`pop, this`popEst
      ensures Valid()
      ensures change == PopulationChange(old(pop), p, nonZero) as real
      ensures pop == old(pop) + change
      ensures popEst == if changeEstEqually && p != 0.0 then Max(old(popEst) + change, 0.0) else old(popEst)
    {
      if p == 0.0 { return 0.0; }
      var c := RoundedShare(pop, p);
      if nonZero && c == 0 {
        c := if p > 0.0 then 1 else -1;
      }
      change := c as real;
      pop := pop + change;
      if changeEstEqually {
        popEst := popEst + change;
        if popEst < 0.0 { popEst := 0.0; }
      }
    }

    method ChangeChaosByCount(n: real)
      requires Valid()
      modifies this`chaos
      ensures Valid()
      ensures chaos == ChaosAfterCount(old(chaos), n)
    {
      if n == 0.0 { return; }
      chaos := chaos + n;
      if chaos < 0.0 { chaos := 0.0; }
    }

    method ChangeChaosByPercentage(p: real)
      requires Valid()
      modifies this`chaos
      ensures Valid()
      ensures chaos == ChaosAfterPercentage(old(chaos), p)
    {
      if p == 0.0 { return; }
      var change := chaos * (p / 100.0);
      chaos := chaos + change;
      if chaos < 0.0 { chaos := 0.0; }
    }
  }

  /** Improving from 500 million towards a true population of one billion by
      100 million lands on 600 million, short of the truth. */
  lemma ImproveFromHalfBillion()
    ensures ImproveByCount(500000000.0, 1000000000.0, 100000000.0) == 600000000.0
  {
  }

  /** A population of one decreased by 100 percent with `nonZero` changes by
      minus one and reaches zero. */
  lemma WipeOutSinglePerson()
    ensures PopulationChange(1.0, -100.0, true) == -1
    ensures 1.0 + PopulationChange(1.0, -100.0, true) as real == 0.0
  {
    assert 1.0 * (-100.0 / 100.0) == -1.0;
    assert RoundedShare(1.0, -100.0) == -1;
  }
}

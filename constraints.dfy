/** The constraint table and the post-hoc LIFO route check of
    src/services/custom_constraint_manager.py. */
module Constraints {
  import opened Wrappers

  /** `ConstraintConfig`: whether a constraint is on, its weight and the
      penalty for violating it. */
  datatype ConstraintConfig = ConstraintConfig(enabled: bool, weight: int, penalty: int)

  /** The dataclass defaults. */
  const DefaultConfig := ConstraintConfig(true, 1, 1000)

  /** The four constraint names the manager knows. */
  const ConstraintTypes: set<string> := {"lifo", "time_windows", "capacity", "distance"}

  /** One stop of a route as `validate_solution` reads it: a shipment id and
      whether the stop picks the shipment up (otherwise it delivers it). */
  datatype Stop = Stop(id: string, isPickup: bool)

  const LifoViolation := "LIFO constraint violation"

  /** Replays `route` against the stack `active` of shipments on board:
      a pickup pushes its id, a delivery must match the top and pops it. */
  function ReplayLifo(route: seq<Stop>, active: seq<string>): bool
    decreases |route|
  {
    if route == [] then true
    else if route[0].isPickup then ReplayLifo(route[1..], active + [route[0].id])
    else if active == [] || active[|active| - 1] != route[0].id then false
    else ReplayLifo(route[1..], active[..|active| - 1])
  }

  /** A route obeys last-in-first-out unloading; each route starts with an
      empty vehicle. */
  predicate RouteLifoValid(route: seq<Stop>) {
    ReplayLifo(route, [])
  }

  predicate SolutionLifoValid(solution: seq<seq<Stop>>) {
    forall i :: 0 <= i < |solution| ==> RouteLifoValid(solution[i])
  }

  class CustomConstraintManager {
    var configs: map<string, ConstraintConfig>

    /** The table always holds exactly the four known constraint names:
        nothing adds or removes a key. */
    ghost predicate Valid()
      reads this
    {
      configs.Keys == ConstraintTypes
    }

    /** The initial table. */
    constructor ()
      ensures Valid()
      ensures configs["lifo"] == ConstraintConfig(true, 2, 1000)
      ensures configs["time_windows"] == ConstraintConfig(true, 1, 500)
      ensures configs["capacity"] == ConstraintConfig(true, 3, 2000)
      ensures configs["distance"] == ConstraintConfig(true, 1, 800)
    {
      configs := map[
        "lifo" := ConstraintConfig(true, 2, 1000),
        "time_windows" := ConstraintConfig(true, 1, 500),
        "capacity" := ConstraintConfig(true, 3, 2000),
        "distance" := ConstraintConfig(true, 1, 800)];
    }

    /** `validate_solution`: when the "lifo" constraint is enabled, every
        route must replay against its own stack without a mismatch; the first
        mismatch ends the check. */
    method ValidateSolution(solution: seq<seq<Stop>>) returns (isValid: bool, error: Option<string>)
      requires Valid()
      ensures !configs["lifo"].enabled ==> isValid
      ensures configs["lifo"].enabled ==> (isValid <==> SolutionLifoValid(solution))
      ensures error == if isValid then None else Some(LifoViolation)
    {
      if configs["lifo"].enabled {
        var r := 0;
        while r < |solution|
          invariant 0 <= r <= |solution|
          invariant forall k :: 0 <= k < r ==> RouteLifoValid(solution[k])
        {
          var route := solution[r];
          var active: seq<string> := [];
          var j := 0;
          while j < |route|
            invariant 0 <= j <= |route|
            invariant RouteLifoValid(route) == ReplayLifo(route[j..], active)
          {
            var stop := route[j];
            assert route[j..][1..] == route[j + 1..];
            if stop.isPickup {
              active := active + [stop.id];
            } else {
              if active == [] || active[|active| - 1] != stop.id {
                return false, Some(LifoViolation);
              }
              active := active[..|active| - 1];
            }
            j := j + 1;
          }
          r := r + 1;
        }
      }
      return true, None;
    }

    /** `update_config`: an unknown name raises ValueError and changes nothing;
        otherwise `enabled` is always overwritten and weight and penalty only
        when given. */
    method UpdateConfig(constraintType: string, enabled: bool, weight: Option<int>, penalty: Option<int>)
      returns (result: Result<(), string>)
      requires Valid()
      modifies this
      ensures Valid()
      ensures constraintType !in old(configs) ==>
                result == Err("Unknown constraint type: " + constraintType) && configs == old(configs)
      ensures constraintType in old(configs) ==>
                result.Ok? && configs == old(configs)[constraintType := Updated(old(configs)[constraintType], enabled, weight, penalty)]
    {
      if constraintType !in configs {
        return Err("Unknown constraint type: " + constraintType);
      }
      var config := configs[constraintType];
      config := config.(enabled := enabled);
      if weight.Some? {
        config := config.(weight := weight.value);
      }
      if penalty.Some? {
        config := config.(penalty := penalty.value);
      }
      configs := configs[constraintType := config];
      return Ok(());
    }
  }

  /** The fields `update_config` writes: `enabled` always, weight and penalty
      when a value is given. */
  function Updated(c: ConstraintConfig, enabled: bool, weight: Option<int>, penalty: Option<int>): (r: ConstraintConfig)
    ensures r.enabled == enabled
    ensures r.weight == (if weight.Some? then weight.value else c.weight)
    ensures r.penalty == (if penalty.Some? then penalty.value else c.penalty)
  {
    ConstraintConfig(enabled,
                     if weight.Some? then weight.value else c.weight,
                     if penalty.Some? then penalty.value else c.penalty)
  }

  /** Applying the same update twice is the same as applying it once. */
  lemma UpdateIdempotent(c: ConstraintConfig, enabled: bool, weight: Option<int>, penalty: Option<int>)
    ensures Updated(Updated(c, enabled, weight, penalty), enabled, weight, penalty) == Updated(c, enabled, weight, penalty)
  {
  }

  /** An update that gives neither weight nor penalty is a pure toggle. */
  lemma UpdateToggleOnly(c: ConstraintConfig, enabled: bool)
    ensures Updated(c, enabled, None, None) == c.(enabled := enabled)
  {
  }

  // ---------------------------------------------------------------- LIFO facts

  /** The stack at the point where a delivery is checked: a delivery whose id
      is neither on board at the start nor picked up earlier in the route
      fails the replay. Hence a LIFO-valid route delivers nothing it has not
      picked up first (pickup precedes delivery). */
  lemma {:induction false} DeliveryNeedsEarlierPickup(route: seq<Stop>, active: seq<string>, j: nat)
    requires j < |route| && !route[j].isPickup
    requires ReplayLifo(route, active)
    ensures route[j].id in active || exists i :: 0 <= i < j && route[i] == Stop(route[j].id, true)
  {
    if j == 0 {
    } else if route[0].isPickup {
      DeliveryNeedsEarlierPickup(route[1..], active + [route[0].id], j - 1);
      if route[j].id !in active && route[j].id != route[0].id {
        var i :| 0 <= i < j - 1 && route[1..][i] == Stop(route[j].id, true);
        assert route[i + 1] == Stop(route[j].id, true);
      }
    } else {
      DeliveryNeedsEarlierPickup(route[1..], active[..|active| - 1], j - 1);
      if route[j].id !in active {
        var i :| 0 <= i < j - 1 && route[1..][i] == Stop(route[j].id, true);
        assert route[i + 1] == Stop(route[j].id, true);
      }
    }
  }

  lemma PickupPrecedesDelivery(route: seq<Stop>, j: nat)
    requires RouteLifoValid(route)
    requires j < |route| && !route[j].isPickup
    ensures exists i :: 0 <= i < j && route[i] == Stop(route[j].id, true)
  {
    DeliveryNeedsEarlierPickup(route, [], j);
  }

  /** The stack left after replaying `route` from `active`, or `None` when a
      delivery does not match the top of the stack on the way. */
  function StackAfter(route: seq<Stop>, active: seq<string>): Option<seq<string>>
    decreases |route|
  {
    if route == [] then Some(active)
    else if route[0].isPickup then StackAfter(route[1..], active + [route[0].id])
    else if active == [] || active[|active| - 1] != route[0].id then None
    else StackAfter(route[1..], active[..|active| - 1])
  }

  /** Replaying a route in two pieces: the first piece must not fail, and the
      second is replayed against the stack the first one leaves. */
  lemma {:induction false} ReplaySplits(prefix: seq<Stop>, rest: seq<Stop>, active: seq<string>)
    ensures ReplayLifo(prefix + rest, active) <==>
            StackAfter(prefix, active).Some? && ReplayLifo(rest, StackAfter(prefix, active).value)
  {
    if prefix == [] {
      assert prefix + rest == rest;
    } else {
      var route := prefix + rest;
      assert route[0] == prefix[0] && route[1..] == prefix[1..] + rest;
      if prefix[0].isPickup {
        ReplaySplits(prefix[1..], rest, active + [prefix[0].id]);
      } else if active != [] && active[|active| - 1] == prefix[0].id {
        ReplaySplits(prefix[1..], rest, active[..|active| - 1]);
      }
    }
  }

  /** A delivery met while nothing is on board is a violation, whatever
      follows; this covers a stack emptied by earlier deliveries as well as a
      route that opens with a delivery. */
  lemma DeliveryOnEmptyStackRejected(prefix: seq<Stop>, active: seq<string>, id: string, rest: seq<Stop>)
    requires StackAfter(prefix, active) == Some([])
    ensures !ReplayLifo(prefix + [Stop(id, false)] + rest, active)
  {
    assert prefix + [Stop(id, false)] + rest == prefix + ([Stop(id, false)] + rest);
    ReplaySplits(prefix, [Stop(id, false)] + rest, active);
  }

  /** Picking up `a`, delivering it, then delivering `b` fails at the second
      delivery: the stack was emptied by the first. */
  lemma EmptiedStackExample(a: string, b: string)
    ensures !RouteLifoValid([Stop(a, true), Stop(a, false), Stop(b, false)])
  {
    var prefix := [Stop(a, true), Stop(a, false)];
    var empty: seq<string> := [];
    assert prefix[1..] == [Stop(a, false)] && [Stop(a, false)][1..] == [];
    assert empty + [a] == [a] && [a][..0] == [];
    assert StackAfter(prefix, empty) == StackAfter([Stop(a, false)], [a]);
    assert [a][|[a]| - 1] == a;
    assert StackAfter([Stop(a, false)], [a]) == StackAfter([], empty);
    DeliveryOnEmptyStackRejected(prefix, empty, b, []);
    assert prefix + [Stop(b, false)] + [] == [Stop(a, true), Stop(a, false), Stop(b, false)];
  }

  /** Two shipments loaded A then B must come off B then A. */
  lemma LifoOrderExample(a: string, b: string)
    requires a != b
    ensures !RouteLifoValid([Stop(a, true), Stop(b, true), Stop(a, false), Stop(b, false)])
    ensures RouteLifoValid([Stop(a, true), Stop(b, true), Stop(b, false), Stop(a, false)])
  {
    var bad := [Stop(a, true), Stop(b, true), Stop(a, false), Stop(b, false)];
    var empty: seq<string> := [];
    assert empty + [a] == [a] && [a] + [b] == [a, b];
    assert bad[1..] == [Stop(b, true), Stop(a, false), Stop(b, false)];
    assert bad[1..][1..] == [Stop(a, false), Stop(b, false)];
    assert ReplayLifo(bad, empty) == ReplayLifo(bad[1..], [a]);
    assert ReplayLifo(bad[1..], [a]) == ReplayLifo([Stop(a, false), Stop(b, false)], [a, b]);
    var good := [Stop(a, true), Stop(b, true), Stop(b, false), Stop(a, false)];
    assert good[1..] == [Stop(b, true), Stop(b, false), Stop(a, false)];
    assert good[1..][1..] == [Stop(b, false), Stop(a, false)];
    assert ReplayLifo(good, empty) == ReplayLifo(good[1..], [a]);
    assert ReplayLifo(good[1..], [a]) == ReplayLifo([Stop(b, false), Stop(a, false)], [a, b]);
    assert [a, b][..1] == [a] && [a][..0] == [];
    assert [Stop(b, false), Stop(a, false)][1..] == [Stop(a, false)] && [Stop(a, false)][1..] == [];
    assert ReplayLifo([Stop(b, false), Stop(a, false)], [a, b]) == ReplayLifo([Stop(a, false)], [a]);
    assert ReplayLifo([Stop(a, false)], [a]);
  }

  /** Shipments left on board at the end of a route are accepted: the replay
      does not ask for an empty stack at the end. */
  lemma {:induction false} LeftoverPickupsAccepted(route: seq<Stop>, active: seq<string>, id: string)
    requires ReplayLifo(route, active)
    ensures ReplayLifo(route + [Stop(id, true)], active)
  {
    var ext := route + [Stop(id, true)];
    if route == [] {
      assert ext[1..] == [];
    } else {
      assert ext[0] == route[0] && ext[1..] == route[1..] + [Stop(id, true)];
      if route[0].isPickup {
        LeftoverPickupsAccepted(route[1..], active + [route[0].id], id);
      } else {
        LeftoverPickupsAccepted(route[1..], active[..|active| - 1], id);
      }
    }
  }

  /** Each route is checked against its own stack: a solution is valid
      exactly when each part of it is, so a pickup in one route never
      matches a delivery in another. */
  lemma SolutionValidSplits(s1: seq<seq<Stop>>, s2: seq<seq<Stop>>)
    ensures SolutionLifoValid(s1 + s2) <==> SolutionLifoValid(s1) && SolutionLifoValid(s2)
  {
    if SolutionLifoValid(s1) && SolutionLifoValid(s2) {
      forall i | 0 <= i < |s1 + s2| ensures RouteLifoValid((s1 + s2)[i]) {
        if i >= |s1| {
          assert (s1 + s2)[i] == s2[i - |s1|];
        }
      }
    }
    if SolutionLifoValid(s1 + s2) {
      forall i | 0 <= i < |s1| ensures RouteLifoValid(s1[i]) {
        assert (s1 + s2)[i] == s1[i];
      }
      forall i | 0 <= i < |s2| ensures RouteLifoValid(s2[i]) {
        assert (s1 + s2)[|s1| + i] == s2[i];
      }
    }
  }

  lemma PickupInAnotherRouteDoesNotCount(id: string)
    ensures !SolutionLifoValid([[Stop(id, true)], [Stop(id, false)]])
  {
    var s := [[Stop(id, true)], [Stop(id, false)]];
    assert s[1] == [Stop(id, false)];
    assert !RouteLifoValid(s[1]);
  }
}

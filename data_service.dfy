/** Shipment input validation (src/services/data_service.py): the field
    validators of `ShipmentData`, `DataService.validate_data` and the error
    collection of `DataValidationService`. */
module DataService {
  import opened Wrappers
  import Models
  import Strings

  // ---------------------------------------------------------------- ShipmentData

  const PalletCountError := "Pallet count must be between 1 and 26"
  const StateError := "State must be a 2-letter abbreviation"

  /** `ShipmentData.validate_pallet_count`: the value passes through when it
      is in 1..26, otherwise ValueError. */
  function ValidatePalletCount(v: int): (r: Result<int, string>)
    ensures r.Ok? <==> 1 <= v <= 26
    ensures r.Ok? ==> r.value == v
    ensures r.Err? ==> r.error == PalletCountError
  {
    if !(0 < v <= 26) then Err(PalletCountError) else Ok(v)
  }

  /** `ShipmentData.validate_state`: exactly two characters, otherwise
      ValueError. */
  function ValidateState(v: string): (r: Result<string, string>)
    ensures r.Ok? <==> |v| == 2
    ensures r.Ok? ==> r.value == v
    ensures r.Err? ==> r.error == StateError
  {
    if |v| != 2 then Err(StateError) else Ok(v)
  }

  // ---------------------------------------------------------------- validate_data

  /** The limits `validate_data` reads from the settings. */
  datatype Settings = Settings(maxShipments: int, maxPallets: int, maxVehicles: int)

  const DefaultSettings := Settings(1000, 20, 10)

  /** One problem `validate_data` reports; `Message` renders its text. */
  datatype Issue =
    | TooManyShipments(shipmentCount: nat, limit: int)
    | DuplicateId(id: string)
    | InvalidPalletCount(id: string, palletCount: int)
    | InvalidOriginState(id: string, state: string)
    | InvalidDestinationState(id: string, state: string)
    | InvalidTiming(id: string)
    | NotEnoughVehicles(totalPallets: int, minVehicles: int, limit: int)
    | ValidationCrash(reason: string)

  function Message(issue: Issue): string {
    match issue
    case TooManyShipments(n, limit) =>
      "Number of shipments (" + Strings.IntToString(n) + ") exceeds maximum allowed ("
      + Strings.IntToString(limit) + ")"
    case DuplicateId(id) => "Duplicate shipment ID: " + id
    case InvalidPalletCount(id, count) =>
      "Invalid pallet count for shipment " + id + ": " + Strings.IntToString(count)
    case InvalidOriginState(id, state) => "Invalid origin state for shipment " + id + ": " + state
    case InvalidDestinationState(id, state) => "Invalid destination state for shipment " + id + ": " + state
    case InvalidTiming(id) =>
      "Invalid timing for shipment " + id + ": pickup time must be before delivery time"
    case NotEnoughVehicles(total, minVehicles, limit) =>
      "Total pallet count (" + Strings.IntToString(total) + ") requires more vehicles than available ("
      + Strings.IntToString(minVehicles) + " > " + Strings.IntToString(limit) + ")"
    case ValidationCrash(reason) => "Data validation error: " + reason
  }

  function Messages(issues: seq<Issue>): seq<string> {
    if issues == [] then [] else [Message(issues[0])] + Messages(issues[1..])
  }

  lemma {:induction false} MessagesAppend(a: seq<Issue>, b: seq<Issue>)
    ensures Messages(a + b) == Messages(a) + Messages(b)
  {
    if a == [] {
      assert a + b == b;
    } else {
      assert (a + b)[1..] == a[1..] + b;
      MessagesAppend(a[1..], b);
    }
  }

  lemma MessagesSingle(issue: Issue)
    ensures Messages([issue]) == [Message(issue)]
  {
    assert [issue][1..] == [];
  }

  lemma ConcatAssoc<T>(a: seq<T>, b: seq<T>, c: seq<T>)
    ensures a + (b + c) == a + b + c
  {
  }

  /** `[issue]` when `condition` holds, else nothing. */
  function When(condition: bool, issue: Issue): seq<Issue> {
    if condition then [issue] else []
  }

  /** The message of `issue` when `condition` holds, else nothing. */
  function MessageWhen(condition: bool, issue: Issue): seq<string> {
    if condition then [Message(issue)] else []
  }

  /** Reporting one more conditional issue appends its message. */
  lemma MessagesWhenAppend(issues: seq<Issue>, condition: bool, issue: Issue)
    ensures Messages(issues + When(condition, issue)) == Messages(issues) + MessageWhen(condition, issue)
  {
    MessagesAppend(issues, When(condition, issue));
  }

  /** Python's `a // b`, which rounds towards minus infinity. */
  function FloorDiv(a: int, b: int): int
    requires b != 0
  {
    if b > 0 then a / b else (-a) / (-b)
  }

  /** `FloorDiv(a, b)` is the floor of a / b: for a positive divisor
      the largest q with q * b <= a, for a negative one the largest q with
      q * b >= a. */
  lemma FloorDivIsFloor(a: int, b: int)
    requires b != 0
    ensures var q := FloorDiv(a, b);
            && (b > 0 ==> q * b <= a < q * b + b)
            && (b < 0 ==> q * b >= a > q * b + b)
  {
    var q := FloorDiv(a, b);
    if b < 0 {
      assert q * (-b) <= -a < q * (-b) + (-b);
      assert q * (-b) == -(q * b);
    }
  }

  /** `(total_pallets + MAX_PALLETS - 1) // MAX_PALLETS`. */
  function MinVehicles(totalPallets: int, maxPallets: int): int
    requires maxPallets != 0
  {
    FloorDiv(totalPallets + maxPallets - 1, maxPallets)
  }

  /** The vehicle bound is the ceiling of total / capacity: the fewest trucks
      of `maxPallets` pallets that carry `totalPallets`. */
  lemma MinVehiclesIsCeiling(totalPallets: int, maxPallets: int)
    requires maxPallets > 0
    ensures var m := MinVehicles(totalPallets, maxPallets);
            (m - 1) * maxPallets < totalPallets <= m * maxPallets
  {
    var m := MinVehicles(totalPallets, maxPallets);
    FloorDivIsFloor(totalPallets + maxPallets - 1, maxPallets);
    assert (m - 1) * maxPallets == m * maxPallets - maxPallets;
  }

  /** `not state or len(state) != 2`. */
  predicate BadState(state: string) {
    state == "" || |state| != 2
  }

  /** What one loop iteration of `validate_data` reports for shipment `s`,
      given the ids seen before it. */
  function ShipmentIssues(s: Models.Shipment, seen: set<string>, maxPallets: int): seq<Issue> {
    When(s.id in seen, DuplicateId(s.id)) + FieldIssues(s, maxPallets)
  }

  /** The checks after the duplicate check, which look only at the
      shipment's own fields. */
  function FieldIssues(s: Models.Shipment, maxPallets: int): seq<Issue> {
    When(!(0 < s.palletCount <= maxPallets), InvalidPalletCount(s.id, s.palletCount))
    + When(BadState(s.origin.state), InvalidOriginState(s.id, s.origin.state))
    + When(BadState(s.destination.state), InvalidDestinationState(s.id, s.destination.state))
    + When(LateTiming(s), InvalidTiming(s.id))
  }

  /** Both times are given and pickup is not before delivery. */
  predicate LateTiming(s: Models.Shipment) {
    s.pickupTime.Some? && s.deliveryTime.Some? && s.pickupTime.value.stamp >= s.deliveryTime.value.stamp
  }

  /** The set of ids among `ss`. */
  function Ids(ss: seq<Models.Shipment>): (ids: set<string>)
  {
    if ss == [] then {}
    else
      var init := ss[..|ss| - 1];
      Ids(init) + {ss[|ss| - 1].id}
  }

  /** `Ids(ss)` holds exactly the ids that occur in `ss`. */
  lemma {:induction false} IdsMembers(ss: seq<Models.Shipment>)
    ensures forall x :: x in Ids(ss) <==> exists i :: 0 <= i < |ss| && ss[i].id == x
  {
    if ss != [] {
      var init := ss[..|ss| - 1];
      IdsMembers(init);
      assert forall i :: 0 <= i < |init| ==> init[i] == ss[i];
    }
  }

  /** Sum of all pallet counts, valid or not. */
  function TotalPallets(ss: seq<Models.Shipment>): int {
    if ss == [] then 0 else TotalPallets(ss[..|ss| - 1]) + ss[|ss| - 1].palletCount
  }

  /** What the loop over the shipments reports, in order. */
  function BatchIssues(ss: seq<Models.Shipment>, maxPallets: int): seq<Issue> {
    if ss == [] then []
    else
      var init := ss[..|ss| - 1];
      BatchIssues(init, maxPallets) + ShipmentIssues(ss[|ss| - 1], Ids(init), maxPallets)
  }

  /** One more loop iteration extends each prefix summary by one shipment. */
  lemma PrefixStep(ss: seq<Models.Shipment>, i: nat, maxPallets: int)
    requires i < |ss|
    ensures Ids(ss[..i + 1]) == Ids(ss[..i]) + {ss[i].id}
    ensures TotalPallets(ss[..i + 1]) == TotalPallets(ss[..i]) + ss[i].palletCount
    ensures BatchIssues(ss[..i + 1], maxPallets)
         == BatchIssues(ss[..i], maxPallets) + ShipmentIssues(ss[i], Ids(ss[..i]), maxPallets)
  {
    assert ss[..i + 1][..i] == ss[..i];
  }

  /** Everything `validate_data` reports. A zero MAX_PALLETS makes the vehicle
      bound divide by zero; the handler then replaces every message with one
      "Data validation error". */
  function Issues(ss: seq<Models.Shipment>, settings: Settings): seq<Issue> {
    if settings.maxPallets == 0 then [ValidationCrash("integer division or modulo by zero")]
    else
      var total := TotalPallets(ss);
      var minVehicles := MinVehicles(total, settings.maxPallets);
      When(|ss| > settings.maxShipments, TooManyShipments(|ss|, settings.maxShipments))
      + BatchIssues(ss, settings.maxPallets)
      + When(minVehicles > settings.maxVehicles, NotEnoughVehicles(total, minVehicles, settings.maxVehicles))
  }

  /** The checks `validate_data` runs on one shipment `s`, given the ids
      `seen` before it, appended to `errors` in the order the source runs
      them. */
  method CheckShipment(s: Models.Shipment, seen: set<string>, maxPallets: int, errors: seq<string>)
    returns (result: seq<string>)
    ensures result == errors + Messages(ShipmentIssues(s, seen, maxPallets))
  {
    ghost var issues: seq<Issue> := [];
    result := errors;
    AppendWhen(errors, result, issues, s.id in seen, DuplicateId(s.id));
    if s.id in seen {
      result := result + [Message(DuplicateId(s.id))];
    }
    assert issues + When(s.id in seen, DuplicateId(s.id)) == When(s.id in seen, DuplicateId(s.id));
    issues := When(s.id in seen, DuplicateId(s.id));
    AppendWhen(errors, result, issues, !(0 < s.palletCount <= maxPallets), InvalidPalletCount(s.id, s.palletCount));
    if !(0 < s.palletCount <= maxPallets) {
      result := result + [Message(InvalidPalletCount(s.id, s.palletCount))];
    }
    issues := issues + When(!(0 < s.palletCount <= maxPallets), InvalidPalletCount(s.id, s.palletCount));
    AppendWhen(errors, result, issues, BadState(s.origin.state), InvalidOriginState(s.id, s.origin.state));
    if BadState(s.origin.state) {
      result := result + [Message(InvalidOriginState(s.id, s.origin.state))];
    }
    issues := issues + When(BadState(s.origin.state), InvalidOriginState(s.id, s.origin.state));
    AppendWhen(errors, result, issues, BadState(s.destination.state), InvalidDestinationState(s.id, s.destination.state));
    if BadState(s.destination.state) {
      result := result + [Message(InvalidDestinationState(s.id, s.destination.state))];
    }
    issues := issues + When(BadState(s.destination.state), InvalidDestinationState(s.id, s.destination.state));
    AppendWhen(errors, result, issues, LateTiming(s), InvalidTiming(s.id));
    if s.pickupTime.Some? && s.deliveryTime.Some? {
      if s.pickupTime.value.stamp >= s.deliveryTime.value.stamp {
        result := result + [Message(InvalidTiming(s.id))];
      }
    }
    issues := issues + When(LateTiming(s), InvalidTiming(s.id));
    ShipmentIssuesInOrder(s, seen, maxPallets);
  }

  /** The issues of one shipment, as the five checks append them one by one. */
  lemma ShipmentIssuesInOrder(s: Models.Shipment, seen: set<string>, maxPallets: int)
    ensures ShipmentIssues(s, seen, maxPallets)
         == When(s.id in seen, DuplicateId(s.id))
          + When(!(0 < s.palletCount <= maxPallets), InvalidPalletCount(s.id, s.palletCount))
          + When(BadState(s.origin.state), InvalidOriginState(s.id, s.origin.state))
          + When(BadState(s.destination.state), InvalidDestinationState(s.id, s.destination.state))
          + When(LateTiming(s), InvalidTiming(s.id))
  {
    var w0 := When(s.id in seen, DuplicateId(s.id));
    var w1 := When(!(0 < s.palletCount <= maxPallets), InvalidPalletCount(s.id, s.palletCount));
    var w2 := When(BadState(s.origin.state), InvalidOriginState(s.id, s.origin.state));
    var w3 := When(BadState(s.destination.state), InvalidDestinationState(s.id, s.destination.state));
    var w4 := When(LateTiming(s), InvalidTiming(s.id));
    ConcatAssoc(w0, w1 + w2 + w3, w4);
    ConcatAssoc(w0, w1 + w2, w3);
    ConcatAssoc(w0, w1, w2);
  }

  /** One guarded append keeps `result` equal to `errors` followed by the
      rendering of the issues found so far. */
  lemma AppendWhen(errors: seq<string>, result: seq<string>, issues: seq<Issue>, condition: bool, issue: Issue)
    requires result == errors + Messages(issues)
    ensures (if condition then result + [Message(issue)] else result) == errors + Messages(issues + When(condition, issue))
  {
    MessagesWhenAppend(issues, condition, issue);
    ConcatAssoc(errors, Messages(issues), MessageWhen(condition, issue));
  }

  /** Without a division by zero, the report is the loop's report followed
      by the vehicle check. */
  lemma {:induction false} IssuesEndWithVehicleCheck(ss: seq<Models.Shipment>, settings: Settings, scanned: seq<string>,
                                                   total: int, minVehicles: int, errors: seq<string>)
    requires settings.maxPallets != 0
    requires scanned == Messages(When(|ss| > settings.maxShipments, TooManyShipments(|ss|, settings.maxShipments))
                                 + BatchIssues(ss, settings.maxPallets))
    requires total == TotalPallets(ss)
    requires minVehicles == MinVehicles(total, settings.maxPallets)
    requires errors == scanned + MessageWhen(minVehicles > settings.maxVehicles,
                                             NotEnoughVehicles(total, minVehicles, settings.maxVehicles))
    ensures errors == Messages(Issues(ss, settings))
  {
    MessagesWhenAppend(When(|ss| > settings.maxShipments, TooManyShipments(|ss|, settings.maxShipments))
                       + BatchIssues(ss, settings.maxPallets),
                       minVehicles > settings.maxVehicles,
                       NotEnoughVehicles(total, minVehicles, settings.maxVehicles));
  }

  /** What one iteration of the loop adds to the issues and messages. */
  lemma LoopStep(ss: seq<Models.Shipment>, i: nat, maxPallets: int, head: seq<Issue>, issues: seq<Issue>)
    requires i < |ss|
    requires issues == head + BatchIssues(ss[..i], maxPallets)
    ensures var step := ShipmentIssues(ss[i], Ids(ss[..i]), maxPallets);
            && issues + step == head + BatchIssues(ss[..i + 1], maxPallets)
            && Messages(issues + step) == Messages(issues) + Messages(step)
            && Ids(ss[..i + 1]) == Ids(ss[..i]) + {ss[i].id}
            && TotalPallets(ss[..i + 1]) == TotalPallets(ss[..i]) + ss[i].palletCount
  {
    var step := ShipmentIssues(ss[i], Ids(ss[..i]), maxPallets);
    MessagesAppend(issues, step);
    PrefixStep(ss, i, maxPallets);
    ConcatAssoc(head, BatchIssues(ss[..i], maxPallets), step);
  }

  /** A zero MAX_PALLETS reports only the crash. */
  lemma IssuesOnZeroCapacity(ss: seq<Models.Shipment>, settings: Settings)
    requires settings.maxPallets == 0
    ensures Messages(Issues(ss, settings)) == [Message(ValidationCrash("integer division or modulo by zero"))]
  {
    MessagesSingle(ValidationCrash("integer division or modulo by zero"));
  }

  /** The loop of `validate_data` over the shipments: the messages it
      appends, the ids it collects and the pallets it adds up. */
  method ScanShipments(shipments: seq<Models.Shipment>, maxPallets: int, ghost head: seq<Issue>, errors: seq<string>)
    returns (result: seq<string>, shipmentIds: set<string>, totalPallets: int)
    requires errors == Messages(head)
    ensures result == Messages(head + BatchIssues(shipments, maxPallets))
    ensures shipmentIds == Ids(shipments)
    ensures totalPallets == TotalPallets(shipments)
  {
    result := errors;
    ghost var issues := head;
    totalPallets := 0;
    shipmentIds := {};
    for i := 0 to |shipments|
      invariant shipmentIds == Ids(shipments[..i])
      invariant totalPallets == TotalPallets(shipments[..i])
      invariant issues == head + BatchIssues(shipments[..i], maxPallets)
      invariant result == Messages(issues)
    {
      var s := shipments[i];
      ghost var step := ShipmentIssues(s, shipmentIds, maxPallets);
      result := CheckShipment(s, shipmentIds, maxPallets, result);
      LoopStep(shipments, i, maxPallets, head, issues);
      issues := issues + step;
      shipmentIds := shipmentIds + {s.id};
      totalPallets := totalPallets + s.palletCount;
    }
    assert shipments[..|shipments|] == shipments;
  }

  /** The vehicle bound at the end of `validate_data`: the fewest trucks of
      `maxPallets` pallets that carry `totalPallets`, reported when it
      exceeds `maxVehicles`. */
  method CheckVehicles(totalPallets: int, maxPallets: int, maxVehicles: int, errors: seq<string>)
    returns (result: seq<string>)
    requires maxPallets != 0
    ensures var minVehicles := MinVehicles(totalPallets, maxPallets);
      result == errors + MessageWhen(minVehicles > maxVehicles, NotEnoughVehicles(totalPallets, minVehicles, maxVehicles))
  {
    result := errors;
    var minVehicles := FloorDiv(totalPallets + maxPallets - 1, maxPallets);
    if minVehicles > maxVehicles {
      result := result + [Message(NotEnoughVehicles(totalPallets, minVehicles, maxVehicles))];
    }
  }

  /** `DataService.validate_data`. */
  method ValidateData(shipments: seq<Models.Shipment>, settings: Settings) returns (valid: bool, errors: seq<string>)
    ensures errors == Messages(Issues(shipments, settings))
    ensures valid <==> errors == []
  {
    errors := [];
    ghost var countIssues := When(|shipments| > settings.maxShipments,
                                  TooManyShipments(|shipments|, settings.maxShipments));
    if |shipments| > settings.maxShipments {
      errors := errors + [Message(TooManyShipments(|shipments|, settings.maxShipments))];
    }
    var shipmentIds, totalPallets;
    errors, shipmentIds, totalPallets := ScanShipments(shipments, settings.maxPallets, countIssues, errors);
    if settings.maxPallets == 0 {
      var crash := ValidationCrash("integer division or modulo by zero");
      IssuesOnZeroCapacity(shipments, settings);
      return false, [Message(crash)];
    }
    ghost var scanned := errors;
    errors := CheckVehicles(totalPallets, settings.maxPallets, settings.maxVehicles, errors);
    IssuesEndWithVehicleCheck(shipments, settings, scanned, totalPallets,
                              MinVehicles(totalPallets, settings.maxPallets), errors);
    valid := |errors| == 0;
  }

  // ---------------------------------------------------------------- facts about validate_data

  /** Issues raised by the per-shipment loop. */
  predicate PerShipment(issue: Issue) {
    issue.DuplicateId? || issue.InvalidPalletCount? || issue.InvalidOriginState?
    || issue.InvalidDestinationState? || issue.InvalidTiming?
  }

  predicate AllPerShipment(issues: seq<Issue>) {
    forall k :: 0 <= k < |issues| ==> PerShipment(issues[k])
  }

  lemma AllPerShipmentAppend(a: seq<Issue>, b: seq<Issue>)
    requires AllPerShipment(a) && AllPerShipment(b)
    ensures AllPerShipment(a + b)
  {
  }

  /** Issues raised by the field checks. */
  predicate FieldIssue(issue: Issue) {
    issue.InvalidPalletCount? || issue.InvalidOriginState? || issue.InvalidDestinationState? || issue.InvalidTiming?
  }

  predicate AllFieldIssues(issues: seq<Issue>) {
    forall k :: 0 <= k < |issues| ==> FieldIssue(issues[k])
  }

  lemma AllFieldIssuesAppend(a: seq<Issue>, b: seq<Issue>)
    requires AllFieldIssues(a) && AllFieldIssues(b)
    ensures AllFieldIssues(a + b)
  {
  }

  lemma FieldIssuesKinds(s: Models.Shipment, maxPallets: int)
    ensures AllFieldIssues(FieldIssues(s, maxPallets))
  {
    var w2 := When(!(0 < s.palletCount <= maxPallets), InvalidPalletCount(s.id, s.palletCount));
    var w3 := When(BadState(s.origin.state), InvalidOriginState(s.id, s.origin.state));
    var w4 := When(BadState(s.destination.state), InvalidDestinationState(s.id, s.destination.state));
    var w5 := When(LateTiming(s), InvalidTiming(s.id));
    AllFieldIssuesAppend(w2, w3);
    AllFieldIssuesAppend(w2 + w3, w4);
    AllFieldIssuesAppend(w2 + w3 + w4, w5);
  }

  lemma ShipmentIssuesArePerShipment(s: Models.Shipment, seen: set<string>, maxPallets: int)
    ensures AllPerShipment(ShipmentIssues(s, seen, maxPallets))
  {
    FieldIssuesKinds(s, maxPallets);
    AllPerShipmentAppend(When(s.id in seen, DuplicateId(s.id)), FieldIssues(s, maxPallets));
  }

  /** The loop reports only per-shipment issues. */
  lemma {:induction false} BatchIssuesArePerShipment(ss: seq<Models.Shipment>, maxPallets: int)
    ensures AllPerShipment(BatchIssues(ss, maxPallets))
  {
    if ss != [] {
      var init := ss[..|ss| - 1];
      BatchIssuesArePerShipment(init, maxPallets);
      ShipmentIssuesArePerShipment(ss[|ss| - 1], Ids(init), maxPallets);
      AllPerShipmentAppend(BatchIssues(init, maxPallets), ShipmentIssues(ss[|ss| - 1], Ids(init), maxPallets));
    }
  }

  predicate HasTooManyShipments(issues: seq<Issue>) {
    exists k :: 0 <= k < |issues| && issues[k].TooManyShipments?
  }

  /** The count error appears exactly when there are more shipments than
      MAX_SHIPMENTS. */
  lemma TooManyShipmentsIff(ss: seq<Models.Shipment>, settings: Settings)
    requires settings.maxPallets != 0
    ensures HasTooManyShipments(Issues(ss, settings)) <==> |ss| > settings.maxShipments
  {
    BatchIssuesArePerShipment(ss, settings.maxPallets);
    var total := TotalPallets(ss);
    var minVehicles := MinVehicles(total, settings.maxPallets);
    var head := When(|ss| > settings.maxShipments, TooManyShipments(|ss|, settings.maxShipments));
    var batch := BatchIssues(ss, settings.maxPallets);
    var tail := When(minVehicles > settings.maxVehicles, NotEnoughVehicles(total, minVehicles, settings.maxVehicles));
    var issues := Issues(ss, settings);
    assert issues == head + batch + tail;
    if |ss| > settings.maxShipments {
      assert issues[0] == head[0];
    } else {
      assert head == [];
      forall k | 0 <= k < |issues| ensures !issues[k].TooManyShipments? {
        if k < |batch| {
          assert issues[k] == batch[k] && PerShipment(batch[k]);
        } else {
          assert issues[k] == tail[k - |batch|];
        }
      }
    }
  }

  function DuplicateCount(issues: seq<Issue>): nat {
    if issues == [] then 0
    else DuplicateCount(issues[..|issues| - 1]) + (if issues[|issues| - 1].DuplicateId? then 1 else 0)
  }

  lemma {:induction false} DuplicateCountAppend(a: seq<Issue>, b: seq<Issue>)
    ensures DuplicateCount(a + b) == DuplicateCount(a) + DuplicateCount(b)
  {
    if b == [] {
      assert a + b == a;
    } else {
      assert (a + b)[..|a + b| - 1] == a + b[..|b| - 1];
      DuplicateCountAppend(a, b[..|b| - 1]);
    }
  }

  lemma DuplicateCountWhen(condition: bool, issue: Issue)
    ensures DuplicateCount(When(condition, issue)) == if condition && issue.DuplicateId? then 1 else 0
  {
    if condition {
      assert [issue][..0] == [];
    }
  }

  /** One iteration reports a duplicate exactly when the id was seen. */
  lemma ShipmentDuplicateCount(s: Models.Shipment, seen: set<string>, maxPallets: int)
    ensures DuplicateCount(ShipmentIssues(s, seen, maxPallets)) == if s.id in seen then 1 else 0
  {
    FieldIssuesKinds(s, maxPallets);
    NoDuplicateIssues(FieldIssues(s, maxPallets));
    DuplicateCountWhen(s.id in seen, DuplicateId(s.id));
    DuplicateCountAppend(When(s.id in seen, DuplicateId(s.id)), FieldIssues(s, maxPallets));
  }

  lemma {:induction false} NoDuplicateIssues(issues: seq<Issue>)
    requires forall k :: 0 <= k < |issues| ==> !issues[k].DuplicateId?
    ensures DuplicateCount(issues) == 0
  {
    if issues != [] {
      NoDuplicateIssues(issues[..|issues| - 1]);
    }
  }

  /** Every occurrence of an id after its first gives one duplicate error:
      there are as many as shipments minus distinct ids. */
  lemma {:induction false} DuplicateErrorsCount(ss: seq<Models.Shipment>, maxPallets: int)
    ensures |Ids(ss)| <= |ss|
    ensures DuplicateCount(BatchIssues(ss, maxPallets)) == |ss| - |Ids(ss)|
  {
    if ss != [] {
      var init := ss[..|ss| - 1];
      var last := ss[|ss| - 1];
      DuplicateErrorsCount(init, maxPallets);
      DuplicateCountAppend(BatchIssues(init, maxPallets), ShipmentIssues(last, Ids(init), maxPallets));
      ShipmentDuplicateCount(last, Ids(init), maxPallets);
      assert Ids(ss) == Ids(init) + {last.id};
      if last.id !in Ids(init) {
        assert |Ids(init) + {last.id}| == |Ids(init)| + 1;
      } else {
        assert Ids(init) + {last.id} == Ids(init);
      }
    }
  }

  /** A shipment that passes every per-shipment check. */
  predicate ShipmentAcceptable(s: Models.Shipment, maxPallets: int) {
    && 0 < s.palletCount <= maxPallets
    && |s.origin.state| == 2
    && |s.destination.state| == 2
    && (s.pickupTime.Some? && s.deliveryTime.Some? ==> s.pickupTime.value.stamp < s.deliveryTime.value.stamp)
  }

  predicate DistinctIds(ss: seq<Models.Shipment>) {
    forall i, j :: 0 <= i < j < |ss| ==> ss[i].id != ss[j].id
  }

  lemma FieldIssuesEmptyIff(s: Models.Shipment, maxPallets: int)
    ensures FieldIssues(s, maxPallets) == [] <==> ShipmentAcceptable(s, maxPallets)
  {
  }

  lemma ShipmentIssuesEmptyIff(s: Models.Shipment, seen: set<string>, maxPallets: int)
    ensures ShipmentIssues(s, seen, maxPallets) == [] <==> s.id !in seen && ShipmentAcceptable(s, maxPallets)
  {
    FieldIssuesEmptyIff(s, maxPallets);
  }

  /** A batch has distinct ids exactly when its front does and the last id is
      new. */
  lemma DistinctIdsSnoc(ss: seq<Models.Shipment>)
    requires ss != []
    ensures DistinctIds(ss) <==> DistinctIds(ss[..|ss| - 1]) && ss[|ss| - 1].id !in Ids(ss[..|ss| - 1])
  {
    var init := ss[..|ss| - 1];
    var last := ss[|ss| - 1];
    IdsMembers(init);
    assert forall i :: 0 <= i < |init| ==> init[i] == ss[i];
    if DistinctIds(init) && last.id !in Ids(init) {
      forall i, j | 0 <= i < j < |ss| ensures ss[i].id != ss[j].id {
        if j == |ss| - 1 {
          assert init[i].id != last.id;
        } else {
          assert init[i] == ss[i] && init[j] == ss[j];
        }
      }
    }
    if DistinctIds(ss) {
      assert DistinctIds(init) by {
        forall i, j | 0 <= i < j < |init| ensures init[i].id != init[j].id {
          assert init[i] == ss[i] && init[j] == ss[j];
        }
      }
      assert forall i :: 0 <= i < |init| ==> init[i].id != last.id;
    }
  }

  lemma {:induction false} BatchIssuesEmptyIff(ss: seq<Models.Shipment>, maxPallets: int)
    ensures BatchIssues(ss, maxPallets) == [] <==>
            DistinctIds(ss) && forall i :: 0 <= i < |ss| ==> ShipmentAcceptable(ss[i], maxPallets)
  {
    if ss != [] {
      var init := ss[..|ss| - 1];
      var last := ss[|ss| - 1];
      BatchIssuesEmptyIff(init, maxPallets);
      ShipmentIssuesEmptyIff(last, Ids(init), maxPallets);
      DistinctIdsSnoc(ss);
      assert forall i :: 0 <= i < |init| ==> init[i] == ss[i];
    }
  }

  /** Every requirement a batch must meet to pass `validate_data`. */
  predicate BatchAcceptable(ss: seq<Models.Shipment>, settings: Settings) {
    && settings.maxPallets != 0
    && |ss| <= settings.maxShipments
    && DistinctIds(ss)
    && (forall i :: 0 <= i < |ss| ==> ShipmentAcceptable(ss[i], settings.maxPallets))
    && MinVehicles(TotalPallets(ss), settings.maxPallets) <= settings.maxVehicles
  }

  /** `validate_data` reports nothing exactly when the batch meets every
      requirement. */
  lemma ValidateDataAcceptsIff(ss: seq<Models.Shipment>, settings: Settings)
    ensures Issues(ss, settings) == [] <==> BatchAcceptable(ss, settings)
  {
    if settings.maxPallets != 0 {
      BatchIssuesEmptyIff(ss, settings.maxPallets);
    }
  }

  /** An out-of-range pallet count is reported and still added to the total:
      two 21-pallet shipments with a 20-pallet limit and two vehicles give two
      pallet errors and a vehicle error for 42 pallets. */
  lemma InvalidPalletsStillCounted(a: Models.Shipment, b: Models.Shipment)
    requires a.palletCount == 21 && b.palletCount == 21
    ensures var ss := [a, b];
            TotalPallets(ss) == 42
            && InvalidPalletCount(a.id, 21) in Issues(ss, Settings(1000, 20, 2))
            && InvalidPalletCount(b.id, 21) in Issues(ss, Settings(1000, 20, 2))
            && NotEnoughVehicles(42, 3, 2) in Issues(ss, Settings(1000, 20, 2))
  {
    var ss := [a, b];
    assert ss[..1] == [a] && [a][..0] == [];
    assert TotalPallets([a]) == 21;
    assert TotalPallets(ss) == 42;
    assert InvalidPalletCount(a.id, 21) in ShipmentIssues(a, {}, 20);
    assert BatchIssues([a], 20) == ShipmentIssues(a, {}, 20);
    var issues := Issues(ss, Settings(1000, 20, 2));
    assert MinVehicles(42, 20) == 3;
    assert issues[|issues| - 1] == NotEnoughVehicles(42, 3, 2);
  }

  /** The pydantic validator admits up to 26 pallets while the default
      MAX_PALLETS of `validate_data` is 20: counts 21..26 pass the first and
      fail the second. */
  lemma PalletLimitsDisagree(s: Models.Shipment, seen: set<string>)
    requires 20 < s.palletCount <= 26
    ensures ValidatePalletCount(s.palletCount).Ok?
    ensures InvalidPalletCount(s.id, s.palletCount) in ShipmentIssues(s, seen, DefaultSettings.maxPallets)
  {
  }

  // ---------------------------------------------------------------- DataValidationService

  /** A validator as `_run_validators` calls it: data to (valid, errors). */
  type Validator<!D> = D -> (bool, seq<string>)

  /** The errors `_run_validators` collects: each failing validator's list,
      in dictionary order. */
  function CollectedErrors<D>(data: D, validators: seq<(string, Validator<D>)>): seq<string> {
    if validators == [] then []
    else
      var init := validators[..|validators| - 1];
      var outcome := validators[|validators| - 1].1(data);
      CollectedErrors(data, init) + (if outcome.0 then [] else outcome.1)
  }

  /** `DataValidationService._run_validators`. */
  method RunValidators<D>(data: D, validators: seq<(string, Validator<D>)>) returns (valid: bool, errors: seq<string>)
    ensures errors == CollectedErrors(data, validators)
    ensures valid <==> errors == []
  {
    errors := [];
    for i := 0 to |validators|
      invariant errors == CollectedErrors(data, validators[..i])
    {
      var (ok, validationErrors) := validators[i].1(data);
      if !ok {
        errors := errors + validationErrors;
      }
      assert validators[..i + 1][..i] == validators[..i];
    }
    assert validators[..|validators|] == validators;
    valid := |errors| == 0;
  }

  /** The batch is valid exactly when every validator either passes or fails
      with an empty error list (a failure without messages goes unnoticed). */
  lemma {:induction false} CollectedErrorsEmptyIff<D>(data: D, validators: seq<(string, Validator<D>)>)
    ensures CollectedErrors(data, validators) == [] <==>
            forall i :: 0 <= i < |validators| ==> validators[i].1(data).0 || validators[i].1(data).1 == []
  {
    if validators != [] {
      var init := validators[..|validators| - 1];
      CollectedErrorsEmptyIff(data, init);
      assert forall i :: 0 <= i < |init| ==> init[i] == validators[i];
    }
  }

  /** The three validators of `validate_input` are still stubs that report
      nothing. */
  function StubValidator<D>(): Validator<D> {
    (d: D) => (true, [])
  }

  /** `DataValidationService.validate_input`: with the stub validators every
      input is valid. */
  method ValidateInput<D>(data: D) returns (valid: bool, errors: seq<string>)
    ensures valid && errors == []
  {
    var validators := [("address_validation", StubValidator<D>()),
                       ("capacity_validation", StubValidator<D>()),
                       ("time_window_validation", StubValidator<D>())];
    CollectedErrorsEmptyIff(data, validators);
    valid, errors := RunValidators(data, validators);
  }
}

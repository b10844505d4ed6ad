# VRPOptimizer core in Dafny

This project models the self-contained, sequential core of VRPOptimizer, a
vehicle-routing optimizer for pallet shipments, and proves what that core
promises:

- **Constraint table and LIFO route check** (`constraints.dfy`,
  src/services/custom_constraint_manager.py). `CustomConstraintManager` is a class
  holding the table of four constraint configurations. `UpdateConfig` edits one
  entry. `ValidateSolution` replays each route against a stack of shipments on board:
  a pickup pushes, a delivery must match the top and pops.
- **Shipment input validation** (`data_service.dfy`,
  src/services/data_service.py):
  - the `ShipmentData` field validators;
  - `validate_data`: the shipment-count limit, duplicate ids, the pallet range,
    two-letter states, pickup before delivery, and the ceiling-division vehicle bound;
  - the error-collecting `_run_validators`.

  Every error is an `Issue`. `Message` renders the exact text the source appends.
  The loop methods are proved equal to the specification function `Issues`.
- **Security bookkeeping** (`security.dfy`, src/core/config.py):
  - the extension and size gate of `validate_file`;
  - the sliding-window `RateLimiter` (a map from client to timestamp list, updated
    in place);
  - the `SessionManager` session table, with per-user expiry cleanup, a cap with
    oldest-session eviction, and validate-and-expire.
- **Record serialisation** (`models.dfy`, src/core/models.py). `Location`,
  `Shipment`, `Route` and `Solution` are written to and read back from Python-style
  dictionary values (`Value`), with round-trip theorems.
- **Service bookkeeping helpers** (`base_service.dfy`,
  src/services/base_service.py):
  - the cache key (prefix, positional arguments, then sorted `k=v` pairs, joined
    with `:`);
  - the metrics record that `_record_operation` updates, with its 1000-entry
    duration history;
  - the empty-history average;
  - `is_valid_operation`.

`wrappers.dfy` holds `Option`/`Result`. `strings.dfy` holds decimal rendering and
parsing of natural numbers, ASCII lower-casing and `str.join`.

Time (`datetime.utcnow()`) is a parameter `now` in whole seconds. The random
session id (`secrets.token_urlsafe`) is a parameter `token`. The timestamp text of
`datetime.now().isoformat()` in the metrics is a parameter `timestamp`.

## Model

| member | source | states |
|---|---|---|
| Constraints.CustomConstraintManager.constructor | src/services/custom_constraint_manager.py:20-27 | the table holds exactly lifo/time_windows/capacity/distance with weights 2/1/3/1, penalties 1000/500/2000/800, all enabled |
| Constraints.CustomConstraintManager.ValidateSolution | src/services/custom_constraint_manager.py:166-195 | with "lifo" disabled every solution is valid; with it enabled the result is valid iff every route replays LIFO from an empty stack; an invalid result carries "LIFO constraint violation", a valid one no message |
| Constraints.CustomConstraintManager.UpdateConfig | src/services/custom_constraint_manager.py:200-224 | an unknown name fails with "Unknown constraint type: …" and leaves the table unchanged; a known name changes only that entry, and the table keeps its four keys |
| Constraints.Updated | src/services/custom_constraint_manager.py:219-224 | `enabled` is always overwritten; weight and penalty take the given value or keep the old one |
| Constraints.UpdateIdempotent | src/services/custom_constraint_manager.py:219-224 | applying the same update twice equals applying it once |
| Constraints.UpdateToggleOnly | src/services/custom_constraint_manager.py:219-224 | an update without weight or penalty changes only `enabled` |
| Constraints.DeliveryNeedsEarlierPickup | src/services/custom_constraint_manager.py:183-192 | in an accepted replay every delivered id is already on board or was picked up earlier in the route |
| Constraints.PickupPrecedesDelivery | src/services/custom_constraint_manager.py:181-192 | in a LIFO-valid route every delivery has a pickup of the same id before it |
| Constraints.ReplayLifo | src/services/custom_constraint_manager.py:182-192 | the per-route stack replay: a pickup pushes its id, a delivery must match the top and pops it; partnered by `StackAfter`/`ReplaySplits` and the LIFO lemmas below |
| Constraints.ReplaySplits | src/services/custom_constraint_manager.py:183-192 | replaying a route in two pieces succeeds iff the first piece does not fail and the second succeeds from the stack the first leaves |
| Constraints.DeliveryOnEmptyStackRejected | src/services/custom_constraint_manager.py:186-191 | a delivery met while nothing is on board (at the start, or after earlier deliveries emptied the stack) makes the route invalid, whatever follows |
| Constraints.EmptiedStackExample | src/services/custom_constraint_manager.py:186-191 | [pickup A, deliver A, deliver B] is rejected: the stack was emptied by the first delivery |
| Constraints.LifoOrderExample | src/services/custom_constraint_manager.py:183-192 | [pickup A, pickup B, deliver A, deliver B] is rejected; [pickup A, pickup B, deliver B, deliver A] is accepted |
| Constraints.LeftoverPickupsAccepted | src/services/custom_constraint_manager.py:183-195 | a trailing pickup never makes an accepted replay fail: there is no end-of-route emptiness check |
| Constraints.SolutionValidSplits | src/services/custom_constraint_manager.py:181-182 | a solution is valid iff each part of it is: routes are checked independently |
| Constraints.PickupInAnotherRouteDoesNotCount | src/services/custom_constraint_manager.py:181-182 | a pickup in one route does not license the delivery in another, because the stack is reset per route |
| DataService.ValidatePalletCount | src/services/data_service.py:49-53 | accepted (unchanged) iff 1 <= count <= 26, otherwise the fixed message |
| DataService.ValidateState | src/services/data_service.py:55-59 | accepted (unchanged) iff the state has exactly two characters, otherwise the fixed message |
| DataService.Message | src/services/data_service.py:297-352 | the exact text appended for each kind of issue, with the f-string layout and decimal integers of the source |
| DataService.Issues | src/services/data_service.py:291-358 | everything `validate_data` reports, in order: the count check, per shipment the duplicate/pallet/origin/destination/timing checks, then the vehicle check; with MAX_PALLETS == 0 the single caught-division message; characterised by `ValidateDataAcceptsIff`, `TooManyShipmentsIff` and `DuplicateErrorsCount` |
| DataService.MessagesAppend | src/services/data_service.py:293-352 | rendering the issues of two stretches of the check equals concatenating their renderings |
| DataService.FloorDivIsFloor | src/services/data_service.py:345-347 | Python `//` gives the largest q with q*b <= a (b > 0), also for negative a |
| DataService.MinVehicles | src/services/data_service.py:345-347 | `min_vehicles`, `(total + MAX_PALLETS - 1) // MAX_PALLETS` with Python floor division; characterised by `MinVehiclesIsCeiling` |
| DataService.MinVehiclesIsCeiling | src/services/data_service.py:345-347 | `(total + max - 1) // max` is the least m with m*max >= total |
| DataService.IdsMembers | src/services/data_service.py:305-311 | the `shipment_ids` set holds exactly the ids of the shipments seen |
| DataService.PrefixStep | src/services/data_service.py:307-342 | one loop iteration extends the id set, the pallet total and the issues by that shipment's contribution |
| DataService.CheckShipment | src/services/data_service.py:307-342 | the errors after one shipment are the old ones plus the rendering of its duplicate, pallet, origin, destination and timing issues, in that order |
| DataService.ShipmentIssuesInOrder | src/services/data_service.py:308-342 | the issues of one shipment are the five guarded appends in source order |
| DataService.AppendWhen | src/services/data_service.py:308-342 | one guarded `errors.append` keeps the errors equal to the old ones followed by the rendering of the issues found so far |
| DataService.LoopStep | src/services/data_service.py:307-342 | the loop invariant `errors == head + issues of the prefix` survives one iteration |
| DataService.ScanShipments | src/services/data_service.py:303-342 | after the loop the errors render the head plus the issues of all shipments, the id set is the set of ids and the total is the pallet sum |
| DataService.CheckVehicles | src/services/data_service.py:344-352 | the vehicle error is appended exactly when ceil(total / MAX_PALLETS) exceeds MAX_VEHICLES |
| DataService.IssuesEndWithVehicleCheck | src/services/data_service.py:291-354 | count check, then shipment loop, then vehicle check render exactly the specification `Issues` |
| DataService.IssuesOnZeroCapacity | src/services/data_service.py:345-358 | MAX_PALLETS == 0 raises in the division and the result is the single "Data validation error: integer division or modulo by zero" |
| DataService.ValidateData | src/services/data_service.py:291-358 | the returned errors are the rendering of `Issues`, and the flag is true iff there are none |
| DataService.ValidateDataAcceptsIff | src/services/data_service.py:297-354 | no error at all iff the batch is within the count, ids are distinct, every shipment is acceptable and the vehicles suffice |
| DataService.TooManyShipmentsIff | src/services/data_service.py:297-301 | when MAX_PALLETS != 0, the count error is present iff len(shipments) > MAX_SHIPMENTS (with MAX_PALLETS == 0 the only error is the caught division, `IssuesOnZeroCapacity`) |
| DataService.DuplicateErrorsCount | src/services/data_service.py:305-311 | the number of duplicate-id errors is the number of shipments minus the number of distinct ids |
| DataService.ShipmentDuplicateCount | src/services/data_service.py:308-311 | one shipment gives one duplicate error iff its id was already seen |
| DataService.DuplicateCountAppend | src/services/data_service.py:305-311 | duplicate errors of consecutive stretches add up |
| DataService.BatchIssuesArePerShipment | src/services/data_service.py:307-342 | the loop reports only per-shipment kinds (no count, vehicle or crash error) |
| DataService.FieldIssuesKinds | src/services/data_service.py:313-342 | the field checks report only pallet, state and timing errors |
| DataService.FieldIssuesEmptyIff | src/services/data_service.py:313-342 | a shipment's fields give no error iff 0 < pallets <= MAX_PALLETS, both states have two characters, and its times (when both are given) are in order |
| DataService.ShipmentIssuesEmptyIff | src/services/data_service.py:307-342 | one shipment reports nothing iff its id is new and its fields are acceptable |
| DataService.DistinctIdsSnoc | src/services/data_service.py:305-311 | a list has distinct ids iff its front does and the last id is not among them |
| DataService.BatchIssuesEmptyIff | src/services/data_service.py:303-342 | the loop reports nothing iff ids are distinct and every shipment is acceptable |
| DataService.InvalidPalletsStillCounted | src/services/data_service.py:314-319 | an out-of-range pallet count is reported and still added to the total: two 21-pallet shipments, limit 20, two vehicles give a pallet error for each shipment and a vehicle error for 42 pallets needing 3 vehicles |
| DataService.PalletLimitsDisagree | src/services/data_service.py:49-53 | counts 21..26 pass the field validator but fail `validate_data` under the default MAX_PALLETS of 20 (src/core/settings.py:18) |
| DataService.RunValidators | src/services/data_service.py:565-574 | the errors are the failing validators' lists concatenated in order, and the flag is true iff none were collected |
| DataService.CollectedErrors | src/services/data_service.py:565-574 | the errors `_run_validators` collects: each failing validator's list, in order; computed by `RunValidators`, characterised by `CollectedErrorsEmptyIff` |
| DataService.CollectedErrorsEmptyIff | src/services/data_service.py:565-574 | nothing is collected iff every validator either passes or fails with an empty list |
| DataService.ValidateInput | src/services/data_service.py:556-597 | with the three stub validators the input is always valid with no errors |
| Security.LastField | src/core/config.py:114 | `split('.')[-1]`: a dot-free suffix of the name, preceded by a dot when shorter than the name |
| Security.Extension | src/core/config.py:114 | `filename.split('.')[-1].lower()`; characterised by `LastField`, `ExtensionIsLastField` and `LowerLastField` |
| Security.ValidateFile | src/core/config.py:110-125 | `validate_file` without the hash: the type check, then the size check; characterised by `ValidateFileAccepts` and `TypeCheckedBeforeSize` |
| Security.ValidateFileAccepts | src/core/config.py:110-125 | a file passes iff its lower-cased extension is allowed and its size is at most MAX_UPLOAD_SIZE |
| Security.TypeCheckedBeforeSize | src/core/config.py:114-120 | a disallowed type is reported as such whatever the content |
| Security.LastFieldAfterDot | src/core/config.py:114 | the extension of `prefix.name` is `name` when `name` has no dot |
| Security.ExtensionIsLastField | src/core/config.py:114-120 | only the text after the last dot decides the file-type check |
| Security.LastFieldWithoutDot | src/core/config.py:114 | a name without a dot is its own extension |
| Security.LastFieldSnoc | src/core/config.py:114 | the last field of a name one character longer is empty when that character is a dot, otherwise the old last field plus that character |
| Security.LowerLastField | src/core/config.py:114 | lower-casing commutes with taking the last field |
| Security.LowerIdempotent | src/core/config.py:114 | lower-casing twice is lower-casing once |
| Security.CaseInsensitive | src/core/config.py:114-120 | the gate does not depend on the letter case of the file name |
| Security.DefaultAcceptsUpperCaseCsv | src/core/config.py:39-40 | with the defaults a `.CSV` file of up to the full 10 MiB limit passes |
| Security.DefaultRefusesExe | src/core/config.py:39-40 | with the defaults an `.exe` file is refused, naming the allowed types |
| Security.ListRepr | src/core/config.py:116 | Python's `repr` of the allowed-extension list, each item quoted and separated by ", "; fixed for the defaults by `DefaultTypeMessage` |
| Security.MebibyteText | src/core/config.py:120 | the text of `MAX_UPLOAD_SIZE/1024/1024` for a whole number of mebibytes; fixed for the defaults by `DefaultSizeMessage` |
| Security.FileErrorMessage | src/core/config.py:115-120 | the two refusal texts of `validate_file`; fixed for the defaults by `DefaultTypeMessage` and `DefaultSizeMessage` |
| Security.DefaultTypeMessage | src/core/config.py:115-116 | the default refusal reads "File type not allowed. Allowed types: ['xlsx', 'xls', 'csv']" |
| Security.DefaultSizeMessage | src/core/config.py:119-120 | the default size refusal reads "File too large. Maximum size: 10.0MB" |
| Security.Recent | src/core/config.py:149-159 | the pruned list keeps exactly the timestamps strictly after the window start, each as many times as it occurs (multiset equality on the kept values); with `RecentAppend`, in their order |
| Security.RecentAppend | src/core/config.py:153-156 | the comprehension keeps order: pruning a concatenation is the concatenation of the pruned parts |
| Security.RecentIdempotent | src/core/config.py:149-159 | pruning twice is pruning once |
| Security.RecentKeepsWindow | src/core/config.py:149-159 | a list already inside the window is kept whole |
| Security.RateLimitStep | src/core/config.py:147-167 | the answer of `is_rate_limited` and the request table it leaves; characterised by `RateLimitDecision`, `RateLimitOthersUntouched` and `RateLimitKeepsBound` |
| Security.RateLimitDecision | src/core/config.py:147-167 | limited iff the pruned list already holds MAX_REQUESTS_PER_WINDOW; a refusal stores the pruned list, an acceptance stores it with `now` appended; an unknown client starts empty |
| Security.RateLimitOthersUntouched | src/core/config.py:153-167 | no other client's entry is added, removed or changed |
| Security.RateLimitKeepsBound | src/core/config.py:162-167 | if every list is within the maximum, it stays so |
| Security.AcceptedListInWindow | src/core/config.py:149-167 | after an accepted request the client's list ends with `now` and lies inside the window |
| Security.RefusalIsStable | src/core/config.py:149-163 | a refused client asking again at the same instant is refused again and nothing changes |
| Security.RateLimiter.constructor | src/core/config.py:143-145 | the limiter starts with an empty request table |
| Security.RateLimiter.IsRateLimited | src/core/config.py:147-167 | the answer and the new table are those of `RateLimitStep` on the old table |
| Security.WithoutExpired | src/core/config.py:219-228 | the table after `_clean_expired_sessions`; characterised by `CleanupRemovesExactlyExpired` |
| Security.CleanupRemovesExactlyExpired | src/core/config.py:219-228 | cleaning deletes exactly the user's sessions with expires_at < now and changes no other entry |
| Security.CleanupIdempotent | src/core/config.py:219-228 | cleaning twice is cleaning once |
| Security.CreateOutcome | src/core/config.py:176-205 | the result and table of `create_session` after cleaning: below the cap the new session is inserted; at the cap one oldest session of the user is evicted first; with a cap of zero or less and no session to evict, `min` raises and nothing is inserted |
| Security.SessionCapKept | src/core/config.py:185-203 | a user within the cap stays within the cap after a session with a fresh id is created |
| Security.UserSessionsInsert | src/core/config.py:197-203 | inserting a fresh session adds exactly its id to its user's sessions |
| Security.UserSessionsRemove | src/core/config.py:187-193 | evicting one session removes exactly that id from its user's sessions |
| Security.OtherUsersKept | src/core/config.py:176-205 | creating a session keeps every session of another user whose id differs from the new token (a colliding token would overwrite it, config.py:198) |
| Security.ValidateStep | src/core/config.py:207-217 | the answer of `validate_session` and the table it leaves; characterised by `ValidateOnlyDropsExpired` and `RefusedStaysRefused` |
| Security.ValidateOnlyDropsExpired | src/core/config.py:207-217 | validation adds and alters nothing; it deletes only the asked-about session once expired; a user is returned iff the session remains, and it is the session's user |
| Security.RefusedStaysRefused | src/core/config.py:207-217 | once validation has said no, asking again says no and changes nothing |
| Security.CreatedSessionValidates | src/core/config.py:197-217 | a session just created validates for its user up to its expiry, now + SESSION_LIFETIME |
| Security.SessionManager.constructor | src/core/config.py:172-174 | the manager starts with an empty session table |
| Security.SessionManager.CleanExpiredSessions | src/core/config.py:219-228 | the loop deleting expired ids leaves exactly the table without the user's expired sessions |
| Security.SessionManager.OldestSession | src/core/config.py:187-191 | the chosen id is one of the user's sessions with minimal created_at |
| Security.SessionManager.CreateSession | src/core/config.py:176-205 | after cleaning: below the cap the new session (created now, expiring now + SESSION_LIFETIME) is added; at the cap one oldest session is evicted first; with no session to evict `min` raises and nothing is added |
| Security.SessionManager.ValidateSession | src/core/config.py:207-217 | unknown id: None, table unchanged; expired: None and deleted; otherwise the user id, table unchanged |
| Models.IsoFormat | src/core/models.py:56-59 | the stand-in for `datetime.isoformat()`: never empty, inverted by `FromIsoFormat` (`IsoFormatRoundTrip`) |
| Models.IsoFormatRoundTrip | src/core/models.py:56-76 | `fromisoformat(isoformat(t)) == t` |
| Models.LocationToDict | src/core/models.py:19-25 | `Location.to_dict`; inverted by `LocationFromDict` (`LocationRoundTrip`) |
| Models.LocationFromDict | src/core/models.py:27-34 | a successful read had city and state; an absent lat or lng reads as None |
| Models.LocationWithoutCoordinates | src/core/models.py:32-33 | a dictionary with only city and state reads back with lat and lng None |
| Models.IntegerCoordinateAccepted | src/core/models.py:27-34 | a whole-number coordinate (JSON `42`) is read as that number, as Python stores it |
| Models.LocationRoundTrip | src/core/models.py:19-34 | `Location.from_dict(l.to_dict()) == l` |
| Models.OptionalTime | src/core/models.py:56-59 | an absent time is written as None, a present one as non-empty text |
| Models.OptionalTimeField | src/core/models.py:71-76 | a missing, None or empty time field reads back as None |
| Models.ShipmentToDict | src/core/models.py:48-60 | `Shipment.to_dict`; inverted by `ShipmentFromDict` (`ShipmentRoundTrip`) |
| Models.ShipmentFromDict | src/core/models.py:62-77 | a successful read had id and pallet_count; falsy time fields read as None |
| Models.OptionalTimeRoundTrip | src/core/models.py:56-76 | an optional time written and read back is unchanged |
| Models.ShipmentRoundTrip | src/core/models.py:48-77 | `Shipment.from_dict(s.to_dict()) == s` |
| Models.StopsToValues | src/core/models.py:91-93 | one (type, shipment dict) pair per stop, in order |
| Models.StopsRoundTrip | src/core/models.py:91-93 | the stop list is recoverable from its dictionary form: types, shipments, order and count preserved |
| Models.RouteToDict | src/core/models.py:88-97 | `Route.to_dict`; lossless by `RouteRoundTrip` |
| Models.RouteRoundTrip | src/core/models.py:88-97 | `Route.to_dict` loses nothing: id, stops, totals and vehicle id read back unchanged |
| Models.RoutesToValues | src/core/models.py:109 | one route dictionary per route, in order |
| Models.ShipmentsToValues | src/core/models.py:112 | one shipment dictionary per unassigned shipment, in order |
| Models.RoutesRoundTrip | src/core/models.py:109 | the route list is recoverable, in order and count |
| Models.ShipmentsRoundTrip | src/core/models.py:112 | the unassigned list is recoverable, in order and count |
| Models.SolutionToDict | src/core/models.py:107-113 | `Solution.to_dict`; lossless by `SolutionRoundTrip` |
| Models.SolutionRoundTrip | src/core/models.py:107-113 | `Solution.to_dict` loses nothing: routes, both totals and unassigned shipments read back unchanged |
| BaseService.StrLtTransitive | src/services/base_service.py:254 | Python's string order is transitive |
| BaseService.StrLtTotal | src/services/base_service.py:254 | any two different strings are ordered one way or the other |
| BaseService.Sort | src/services/base_service.py:254 | `sorted(kwargs.items())`: a permutation of the input in ascending order. Keyword names are distinct, so the order is by name; the model breaks ties on the value text only to make the order total |
| BaseService.SortedUnique | src/services/base_service.py:254 | two sorted permutations of the same pairs are equal |
| BaseService.KwargTexts | src/services/base_service.py:254 | one `k=v` text per pair, in order |
| BaseService.KeyParts | src/services/base_service.py:252-254 | `key_parts`: the prefix, the arguments, then the `k=v` texts of the sorted kwargs; characterised by `KeyPartsLayout` |
| BaseService.KeyPartsLayout | src/services/base_service.py:252-255 | the parts are the prefix, then the arguments in order, then the `k=v` texts of the kwargs in sorted order |
| BaseService.CacheKey | src/services/base_service.py:240-255 | `_generate_cache_key`: the parts joined with ":"; laid out by `KeyPartsLayout`, order-independent by `CacheKeyOrderIndependent` |
| BaseService.CacheKeyOrderIndependent | src/services/base_service.py:254 | the key does not depend on the order in which kwargs were given |
| BaseService.KeepLastIsRecentSuffix | src/services/base_service.py:132-133 | trimming keeps the most recent entries, in order, at most 1000 |
| BaseService.Recorded | src/services/base_service.py:105-133 | the metrics after one `_record_operation`; characterised by `RecordedCounters` and `RecordedKeepsConsistent` |
| BaseService.RecordedCounters | src/services/base_service.py:114-129 | operations_total rises by exactly 1 and last_operation is replaced; errors_total rises and last_error is replaced iff the call failed |
| BaseService.InitialConsistent | src/services/base_service.py:51-59 | the initial metrics are consistent |
| BaseService.RecordedKeepsConsistent | src/services/base_service.py:114-133 | the metrics stay consistent: errors never exceed operations, at most 1000 durations, the newest last and the older ones in order |
| BaseService.AverageDuration | src/services/base_service.py:98-103 | `_calculate_avg_duration`: 0.0 on an empty history, otherwise the mean (`AverageOfEmpty`) |
| BaseService.AverageOfEmpty | src/services/base_service.py:98-102 | the average of an empty history is 0.0 |
| BaseService.Service.constructor | src/services/base_service.py:51-59 | a service starts with zero counters, no history and no last records |
| BaseService.Service.RecordOperation | src/services/base_service.py:105-133 | the metrics become `Recorded(old metrics, …)` and stay consistent |
| BaseService.IsValidOperation | src/services/base_service.py:257-268 | `is_valid_operation` on any value: truthy and a string; characterised by `IsValidOperationIff` |
| BaseService.IsValidOperationIff | src/services/base_service.py:257-268 | an operation name is valid iff it is a non-empty string |
| Strings.ParseNatToString | src/core/models.py:56-76 | the decimal text of a natural number parses back to it |
| Strings.Lower | src/core/config.py:114 | `lower()` keeps the length, maps each letter, and leaves no upper-case ASCII letter |

## Left out

- The OR-tools constraint adders `add_lifo_constraints`, `add_capacity_constraints` and `add_time_window_constraints` (src/services/custom_constraint_manager.py:29-164): they call into the solver library, which is not part of this model.
- Constraints.CustomConstraintManager.UpdateConfig: the Python default `enabled=True` (custom_constraint_manager.py:203) is not modelled; callers pass `enabled` explicitly.
- The `except` branch of `validate_solution` (custom_constraint_manager.py:197-198): the source annotates the solution as `List[List[Shipment]]`, but `Shipment` (src/core/models.py:38-46) has no `is_pickup`, so read as typed every non-empty route would raise AttributeError and take that branch. The model takes the items to be stop records carrying an id and a pickup flag, which is what the loop reads; for those nothing raises.
- File parsing (`process_excel`, `process_json`, `process_csv`), export, batch processing, the machine-learning methods and the reports of `DataService`: they are pandas, file I/O and floating point.
- The geocoding service, the database layer, monitoring and the user interface: all I/O or rendering.
- JWT creation and checking, bcrypt hashing, the SSL context and `SecurityMiddleware` in src/core/config.py: they are foreign libraries.
- Security.ValidateFile: returns `Ok(())` where the source returns the SHA-256 hex digest of the content; the hash is a foreign library.
- Security.MebibyteText: renders `MAX_UPLOAD_SIZE/1024/1024` exactly only for a whole number of mebibytes; Python's float printing of other sizes is not modelled.
- Security.ListRepr: renders `repr` of a list only for strings without quotes or backslashes.
- Strings.Lower: lower-cases ASCII letters only; Unicode case mapping is not modelled.
- Security.RateLimiter.IsRateLimited: the clock is one `now` in whole seconds; sub-second `datetime` resolution is not modelled.
- Security.SessionManager.CreateSession: `datetime.utcnow()` is read three times per call in the source (config.py:221 through `_clean_expired_sessions`, :199 for created_at, :200 for expires_at); the model uses one `now` for all three, so expires_at is exactly created_at + SESSION_LIFETIME.
- Security.SessionManager.CreateSession: the session id from `secrets.token_urlsafe(32)` is the parameter `token`; SessionCapKept assumes it is fresh.
- Security.SessionManager.OldestSession: Python's `min` breaks ties between equal created_at by dictionary insertion order; the model may pick any oldest session.
- Models.IsoFormat: the ISO 8601 text of a datetime is stood in for by the decimal text of a whole-second stamp. Only the inverse pair with `FromIsoFormat` is relied on.
- Models.ShipmentFromDict: Python stores whatever value it finds; the model accepts a float or an integer for volume and weight, an integer for pallet_count and text for id, and reports any other kind (text for a weight, a float for pallet_count) as a decode error.
- Models.LocationFromDict: likewise accepts text for city and state and a float or an integer for lat and lng, and reports any other kind as a decode error where Python would store it.
- Models.RouteFromDict: `Route` and `Solution` have no `from_dict` in the source. `RouteFromDict` and `SolutionFromDict` are reference inverses written only to state that `to_dict` loses nothing.
- BaseService.AverageDuration: only the empty case is promised; floating-point averaging is modelled with exact reals.
- BaseService.KeyParts: `str(arg)` of a positional argument is taken as given text; Python's `str` of arbitrary objects is not modelled.
- BaseService.Service.RecordOperation: the text of `datetime.now().isoformat()` is the parameter `timestamp`. In the source it is read separately for last_operation and last_error; the model uses one value for both.
- The asyncio lock around `_record_operation` and `get_metrics`: it is concurrency.
- `initialize`, `cleanup`, `get_metrics`, `_execute_operation`, `_cache_result` and `_get_cached_result` of `BaseService`: they are I/O, monitoring and cache storage.
- DataService.ValidateData: the `except Exception` branch is modelled only for the division by zero when MAX_PALLETS is 0. The comparison `pickup_time >= delivery_time` (data_service.py:338) raises TypeError when one datetime carries a time zone and the other does not, giving "Data validation error: can't compare offset-naive and offset-aware datetimes"; `DateTime` has no time zone, so this case is not modelled. `CheckShipment`, `ScanShipments` and `CheckVehicles` are parts of its body split out as methods.
- DataService.ValidateInput: the three validators are stubs in the source and always pass; so they are in the model.

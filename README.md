# Device provisioning of elliot-geolocation, in Dafny

This project models the `POST /devices` handler of the elliot-geolocation
service (`routes/api.js`). The handler registers a mobile tracker with a
FIWARE IoT agent (the *registry*) and an Orion context broker (the *broker*).
For each request it:

1. rejects a body that lacks a truthy `latitude` or `longitude`, with a 422
   whose message lists what is missing;
2. defaults `id` to `"anonymous"` and forces `entityType` to `"Mobile"`;
3. lists the device groups and creates the `Mobile` group if none exists;
4. lists the devices and computes the next device id from the last one
   listed (`Mobile00000001` for an empty registry, otherwise the last id
   with its trailing counter incremented and padded to 8 digits);
5. creates the device and pushes its first `{ lat, lon }` sample;
6. lists the subscriptions and creates the `Mobile` subscription if none
   has `Mobile` as the type of its first entity;
7. answers `200` with a confirmation, or turns the first thrown error into a
   response: the error's own truthy `status` with the error as the body, or
   `500 Unknown server error`.

Files:

- `wrappers.dfy`: `Option`.
- `jsvalue.dfy`: the JavaScript values of a parsed body, truthiness, and
  the string a template literal substitutes.
- `validation.dfy`: the missing-property filter, the 422 message, and the
  defaults.
- `device_id.dfy`: `pad`, decimal printing and parsing, the trailing-digit
  match, and next-id allocation.
- `payloads.dfy`: the `services`, `devices` and `subscription` builders and
  the record shapes.
- `ensure.dfy`: the group and subscription existence checks.
- `provisioning.dfy`: the handler itself. The functions on a `Snapshot`
  value specify it stage by stage. The class `Downstream` holds the
  registry and broker state and runs the handler step by step. Each of its
  methods is proved equal to the matching function.
- `handler_properties.dfy`: properties of the whole handler. These cover
  call order, validation first, the exact success condition, no rollback,
  partial failure, and behaviour on a repeated request.
- `scenarios.dfy`: concrete runs, such as the first registration on an
  empty deployment and a registration after `Mobile00000007`.

Downstream calls are modelled with an oracle instead of I/O. A map
`failures` names the steps that fail, each with the status the error
carries, if any. A listing returns what the state holds. A successful
creation appends to the state. Every call is logged, whether it fails or
not.

Some of the code's behaviour may be unexpected. The model follows the code
as written:

- `pad` always pads to width 8, whatever width the last id had. The code's
  own comment at routes/api.js:149-151 gives `Mobile001` becoming
  `Mobile002`, but the code gives `Mobile00000002`.
- A counter that has grown past 8 digits is kept whole. `Mobile99999999`
  is followed by `Mobile100000000`.
- A last id with no trailing digits is not an error. `replace` finds
  nothing to replace, so the same id comes back and the create call reuses
  it (`NextDeviceId`).
- The coordinates are not checked to be numbers. Any truthy value passes
  validation.
- In the template literal `` `^${entityType}\d+` `` the `\d` is read as a
  plain `d`. The subscription is therefore sent with the pattern
  `^Mobiled+` (`MobileIdPattern`). As a regular expression this needs a
  `d` right after `Mobile`, so it matches no id the handler allocates and
  no entity name built from one (`IdPatternMatchesNoAllocatedId`).

## Model

| member | source | states |
|---|---|---|
| Validation.FilterFalsy | routes/api.js:98-103 | a key is reported exactly when it is one of the checked keys and the body's value for it is falsy; nothing is reported exactly when every key is truthy |
| Validation.MissingProperties | routes/api.js:98-103 | a property is reported exactly when it is latitude or longitude and its value is falsy; nothing is reported exactly when both are truthy |
| JsValue.FalsyValues | routes/api.js:103 | `Truthy`: a value is falsy exactly when it is undefined, null, false, the number 0 or the empty string |
| Validation.MissingPropertiesExactly | routes/api.js:98-103 | the missing list is `latitude` when that value is falsy, followed by `longitude` when that value is falsy, in that order |
| Validation.WidenedJoin | routes/api.js:108 | joining with "," and then replacing every comma with ", " equals joining with ", ", when no name contains a comma |
| Validation.MissingMessage | routes/api.js:104-110 | for names without commas, the message is "Missing properties: " followed by the names separated by ", " |
| Validation.MissingMessageLists | routes/api.js:104-110 | the 422 message is "Missing properties: " followed by the missing names separated by ", " |
| Validation.BothMissingMessage | routes/api.js:104-110 | a body with neither coordinate gets the message "Missing properties: latitude, longitude" |
| Validation.WithDefaults | routes/api.js:119-120 | `id` is kept when truthy and is "anonymous" otherwise, so it is always truthy; `entityType` is "Mobile"; every other property is unchanged |
| DeviceId.NatToDecimal | routes/api.js:146 | `n + ''` is a non-empty string of digits with no leading zero |
| DeviceId.DecimalRoundTrip | routes/api.js:146-150 | `DecimalValue`, the `parseInt` of the counter: parsing the printed form of n gives n back |
| DeviceId.LeadingZerosValue | routes/api.js:147-150 | `DecimalValue`: leading zeros do not change the parsed value |
| DeviceId.Pad | routes/api.js:144-148 | the result has length max(width, digits of n), parses back to n, ends with the decimal text of n, and has only '0' before it; it is never truncated |
| DeviceId.TrailingDigitsStart | routes/api.js:150 | everything from the returned index to the end is digits, and the character before that index is not a digit |
| DeviceId.TrailingDigitsIsLeftmostMatch | routes/api.js:150 | `/\d+$/` matches at TrailingDigitsStart when the id ends in a digit, and at no earlier index |
| DeviceId.SeedCounter | routes/api.js:153 | the seed id has prefix "Mobile" and counter 1 |
| DeviceId.NextDeviceId | routes/api.js:142-154 | with no devices listed it is `Mobile00000001`, with prefix "Mobile" and counter 1; otherwise it keeps the last id's prefix and has its counter plus one, padded to 8 digits, or it is the last id itself when that has no trailing digits |
| DeviceId.SuccessorAdvances | routes/api.js:149-151 | `Successor`: replacing the trailing digits by `pad(counter + 1, 8)` gives an id with the same prefix and the counter plus one |
| DeviceId.NextAfterAppend | routes/api.js:149-151 | the id after a listed id with counter n has counter n + 1 |
| DeviceId.ExampleSevenToEight | routes/api.js:149-151 | `Mobile00000007` is followed by `Mobile00000008` |
| DeviceId.ExampleWidensToEight | routes/api.js:149-151 | `Mobile001` is followed by `Mobile00000002` (padded to width 8, not to the old width) |
| DeviceId.ExampleOverflowGrows | routes/api.js:147-151 | `Mobile99999999` is followed by `Mobile100000000` (the counter grows to 9 digits) |
| DeviceId.Allocations | routes/api.js:142-154 | the ids k allocations in a row produce, starting from an empty list, number k |
| DeviceId.AllocationsCount | routes/api.js:142-154 | the j-th of those ids has prefix "Mobile" and counter j + 1 |
| DeviceId.AllocationsDistinct | routes/api.js:142-154 | no two of those ids are equal |
| Payloads.DeviceIds | routes/api.js:149 | the list of ids has one entry per device record, in registry order |
| Payloads.ServicesPayload | routes/api.js:35-46 | one group, for the given entity type, with the deployment's API key and the `/iot/json` resource |
| Payloads.DevicesPayload | routes/api.js:47-67 | one record with the new id, the entity type, the entity name `urn-ngsi:<type>:<id>`, and the caller id as the value of the `received_id` static attribute |
| Payloads.SubscriptionPayload | routes/api.js:68-90 | the notified attributes equal the condition attributes, both being the type's attributes; throttling 1; one entity selector whose type is the given type |
| Payloads.EntityNameInjective | routes/api.js:52 | distinct device ids of one type give distinct entity names |
| Payloads.DeviceSchemaMatchesSubscription | routes/api.js:56-79 | the attributes a new device declares are exactly those the Mobile subscription watches and forwards |
| Payloads.MobileIdPattern | routes/api.js:83 | the id pattern sent for Mobile is `^Mobiled+` and contains no backslash |
| Payloads.IdPatternMatchesNoAllocatedId | routes/api.js:83 | `^Mobiled+` matches neither a Mobile id with a counter nor its entity name |
| Ensure.GroupsOfType | routes/api.js:129 | the filter keeps exactly the listed groups of the given entity type |
| Ensure.NeedsGroup | routes/api.js:129 | a group is created exactly when no listed group has the entity type |
| Ensure.SubscriptionsOfType | routes/api.js:174 | the filter throws exactly when some subscription has no entities; otherwise it keeps exactly the subscriptions whose first entity has the type |
| Ensure.CheckSubscriptions | routes/api.js:174-179 | Malformed exactly when some subscription has no entities; Missing exactly when all have one and none has the type first |
| Ensure.CreatedGroupIsFound | routes/api.js:128-130 | once the posted group is stored, no further group is needed |
| Ensure.GroupStaysFound | routes/api.js:129 | adding groups never makes a group needed again |
| Ensure.CreatedSubscriptionIsFound | routes/api.js:173-175 | once the posted subscription is appended to a well-formed list, the check answers Present |
| Ensure.OnlyFirstEntityCounts | routes/api.js:174 | a subscription that names Mobile only as its second entity does not prevent a creation |
| Provisioning.Respond | routes/api.js:188-198 | a truthy status is used as the HTTP status, with the error echoed back; anything else gives `500 Unknown server error`; never a confirmation |
| Provisioning.Downstream.Send | routes/api.js:124 | one awaited call: logged, and it either fails with the oracle's status or applies its effect |
| Provisioning.Downstream.EnsureGroup | routes/api.js:122-134 | the group stage run in place, equal to GroupStage on the old state |
| Provisioning.Downstream.RegisterDevice | routes/api.js:136-165 | the device stage run in place, computing the id from the listed devices; equal to DeviceStage |
| Provisioning.Downstream.EnsureSubscription | routes/api.js:167-179 | the subscription stage run in place, including the TypeError on a subscription with no entities; equal to SubscriptionStage |
| Provisioning.Downstream.HandlePostDevices | routes/api.js:93-199 | the whole handler: the new state and the response equal Provision on the old state |
| HandlerProperties.PerformRan | routes/api.js:124 | `Perform`: one call is logged and either completes or fails with a downstream error, as the oracle says |
| HandlerProperties.GroupStageFacts | routes/api.js:122-134 | `GroupStage` makes the calls of its plan in order, throws only downstream errors, and changes only the groups, by the posted group exactly when that group is needed and both calls succeed |
| HandlerProperties.DeviceStageFacts | routes/api.js:136-165 | `DeviceStage` makes list, create, push in order; the device is stored when list and create succeed; the sample is stored when all three succeed |
| HandlerProperties.SubscriptionStageFacts | routes/api.js:167-179 | `SubscriptionStage` makes its calls in order; it throws TypeError exactly on a malformed list; it appends the subscription only when one is needed and the calls succeed |
| HandlerProperties.RunStagesOrder | routes/api.js:122-179 | the three stages make a prefix of the plan; the only faults are downstream errors and TypeError on a malformed list |
| HandlerProperties.CallOrder | routes/api.js:95-187 | `Attempt` and `Provision`: every request makes a prefix of the fixed call plan, each call following a successful one; a downstream fault is the failure of the last call made |
| Validation.RenderedCallerId | routes/api.js:185 | `Render` in the confirmation: the request's own id as a template literal prints it, or "anonymous" when it is falsy; a non-empty string id is printed as it is |
| HandlerProperties.ValidationFailsFast | routes/api.js:98-110 | a body lacking a coordinate is answered 422 with the message listing what is missing, and no downstream call is made |
| HandlerProperties.ValidationGate | routes/api.js:98-124 | the call log is unchanged exactly when the body lacks a coordinate |
| HandlerProperties.SuccessIff | routes/api.js:95-187 | a request succeeds exactly when it has both coordinates, the subscriptions are well formed, and no step of its plan fails |
| HandlerProperties.SuccessClearsPlan | routes/api.js:95-187 | a run that completed its plan met no failing step |
| HandlerProperties.FaultInPlan | routes/api.js:95-187 | a downstream fault comes from a failing step of the plan |
| HandlerProperties.PlanMembers | routes/api.js:122-179 | the plan always lists groups, devices and subscriptions and creates and pushes the device; it creates a group or a subscription exactly when one is needed |
| HandlerProperties.PlanStepsIn | routes/api.js:122-179 | the plan holds a creation step exactly when its check asks for one |
| HandlerProperties.GroupStageSucceeds | routes/api.js:122-134 | with no failing group call, the stage completes and a group of the type exists afterwards |
| HandlerProperties.DeviceStageSucceeds | routes/api.js:136-165 | with no failing device call, the new record and its sample are appended |
| HandlerProperties.SubscriptionStageSucceeds | routes/api.js:167-179 | with no failing subscription call and a well-formed list, the stage completes and the check answers Present afterwards |
| HandlerProperties.StagesSucceed | routes/api.js:122-179 | with no planned call failing, the three stages complete and leave one new device, one new sample, a group and a subscription |
| HandlerProperties.SuccessfulRegistration | routes/api.js:119-186 | success confirms the caller id (or "anonymous"), appends the new device and its sample, and leaves a group and a subscription of the type |
| HandlerProperties.SuccessfulAttempt | routes/api.js:119-179 | the state after a successful request: one device with the allocated id, its sample, and the group and subscription present |
| HandlerProperties.SuccessMakesPlannedCalls | routes/api.js:122-179 | a successful request made every call of its plan, in order |
| HandlerProperties.NoRollback | routes/api.js:188-198 | a request, failed or not, only appends: at most one group, device, sample and subscription |
| HandlerProperties.DeviceStagePushFails | routes/api.js:158-165 | when the sample push fails, the device record is stored and the push's error is thrown |
| HandlerProperties.PartialFailureKeepsDevice | routes/api.js:158-198 | a failed first sample yields that error's response, the created device stays registered, and no subscription call is made |
| HandlerProperties.PartialFailureAttempt | routes/api.js:158-179 | the state and fault after a failed sample push: the device is added, no sample, and the calls are the group plan followed by device list, create and push |
| HandlerProperties.PlanWhenPresent | routes/api.js:128-179 | with a group and a subscription in place, the plan has no creation step |
| HandlerProperties.PlanAfterSuccess | routes/api.js:128-179 | after a successful request the next request's plan creates neither a group nor a subscription |
| HandlerProperties.CallsWithinPlan | routes/api.js:122-179 | the calls of any request are a prefix of its plan |
| HandlerProperties.NoCreationWhenPresent | routes/api.js:128-179 | a request arriving when the group and the subscription exist posts neither, whatever fails |
| HandlerProperties.ChecksAfterSuccess | routes/api.js:128-179 | after a successful request, the group and the subscription are both found |
| HandlerProperties.CounterAfterSuccess | routes/api.js:142-158 | after a successful request, the next allocated id has the counter one higher |
| HandlerProperties.AllocationsAfterSuccess | routes/api.js:142-158 | a successful request on a registry holding the first k allocations leaves the first k + 1 |
| HandlerProperties.IdsAfterAppend | routes/api.js:138-156 | storing the new record appends its id to the listed ids |
| HandlerProperties.DeviceStageAllocates | routes/api.js:136-165 | whatever fails, the device stage leaves the first k + 1 allocations when list and create succeed, and the first k otherwise |
| HandlerProperties.AttemptAllocates | routes/api.js:98-198 | whatever fails, a request on a registry holding the first k allocations leaves the first k or the first k + 1, so a device kept after a failed push does not lead to a reused id |
| HandlerProperties.SubscriptionStageKeeps | routes/api.js:167-179 | whatever fails, the subscription stage keeps a well-formed list well formed |
| HandlerProperties.AttemptKeepsSubscriptions | routes/api.js:98-198 | whatever fails, a request keeps a well-formed subscription list well formed |
| HandlerProperties.AttemptKeepsAllocations | routes/api.js:98-198 | whatever fails, a request moves `HoldsAllocations` from k to k or to k + 1 |
| HandlerProperties.RequestsKeepAllocations | routes/api.js:98-198 | requests made one after another on a registry with no devices, with any bodies and any failing calls, leave ids that are the first allocations, at most one per request |
| HandlerProperties.LastRequestKeeps | routes/api.js:98-198 | the last of several requests, whatever fails, keeps the ids as a prefix of the allocations |
| HandlerProperties.RequestAllocates | routes/api.js:98-179 | one complete request with no failing call takes the next allocation and leaves the subscriptions well formed |
| HandlerProperties.LastRequestAllocates | routes/api.js:98-179 | the last of several unfailing requests takes the allocation after those before it |
| HandlerProperties.RequestsAllocate | routes/api.js:98-179 | unfailing requests made one after another on an empty registry leave exactly the first allocations |
| HandlerProperties.RequestsAllocateDistinct | routes/api.js:98-198 | requests made one after another on a registry with no devices never leave two devices with the same id, whatever fails; unfailing requests on well-formed subscriptions leave one device each |
| HandlerProperties.RepeatedRequest | routes/api.js:128-179 | the request after a successful one posts no group and no subscription |
| Scenarios.SucceedsWithoutFailures | routes/api.js:93-186 | a body with both coordinates succeeds when no call fails and the listed subscriptions all have an entity |
| Scenarios.FirstRegistrationRecords | routes/api.js:119-165 | on an empty deployment, a body without an id is confirmed for "anonymous" and gets device `Mobile00000001` with its sample |
| Scenarios.FirstRegistration | routes/api.js:93-186 | the first registration on an empty deployment confirms "anonymous", creates `Mobile00000001` and pushes its sample |
| Scenarios.FirstRegistrationSingletons | routes/api.js:128-179 | the first registration creates exactly the Mobile group and the Mobile subscription |
| Scenarios.FirstRegistrationCalls | routes/api.js:122-179 | the first registration makes all seven calls, in order |
| Scenarios.EmptyRegistryPlan | routes/api.js:122-179 | on an empty deployment the plan is all seven calls |
| Scenarios.RegistrationAfterSeven | routes/api.js:122-186 | after `Mobile00000007`, with group and subscription present, a request makes five calls, creates `Mobile00000008` and posts nothing else |
| Scenarios.EighthId | routes/api.js:149-151 | with `Mobile00000007` listed last, the next id is `Mobile00000008` |

## Left out

- Express routing, `res.status(...).json(...)` and the `success` flag of
  each body are not modelled. A response is a status plus one of three
  body shapes.
- HTTP transport is not modelled. The axios calls, their URLs, the
  `fiware-service` headers and the `k`/`i` query parameters become
  abstract `Call` values.
- The environment variables are not read. The settings the payloads use
  are a `Config` parameter.
- `console.log` output is left out.
- `parseFloat` of the coordinates is not modelled. The sample carries the
  body's values as they are.
- JavaScript number formatting is not modelled. A number in the body
  carries the text it prints as.
- Number precision is not modelled. `parseInt` of the counter is exact;
  IEEE-754 doubles lose precision above 2^53.
- Arrays in the body are not distinguished from other objects. A template
  literal would print an array as its joined elements; the model prints
  every object as `[object Object]`.
- Concurrency is left out. Two requests that interleave their
  fetch-then-create steps can allocate the same id; the model runs
  requests one at a time.
- Downstream responses are assumed to have the expected shape. A listing
  without `services` or `devices`, or a last device without a string
  `device_id`, would throw a TypeError; the model does not represent
  such a response.
- The registry is assumed to answer a listing with what it holds, in its
  own order. Stale or reordered listings are not modelled.
- `err.status` of an axios error is taken as the oracle's status for that
  step. How axios derives it is not modelled.
- The commented-out `PATCH /devices` handler and the other commented-out
  checks are not modelled.
- Payloads.SubscriptionPayload requires the entity type to be a key of
  `entityTypes`, because the lookup fails for any other type. The handler
  only ever passes `Mobile`.

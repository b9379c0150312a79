/**
 * What `POST /devices` guarantees, stated over the specification functions
 * of Provisioning: validation before any call, the fixed order of the calls,
 * short-circuiting on the first failure without rollback, idempotent group
 * and subscription creation, and the response.
 */
module HandlerProperties {
  import opened Wrappers
  import opened JsValue
  import opened Validation
  import opened DeviceId
  import opened Payloads
  import opened Ensure
  import opened Provisioning

  /** The steps of a list of calls. */
  function Steps(calls: seq<Call>): (r: seq<Step>)
    ensures |r| == |calls| && forall i :: 0 <= i < |calls| ==> r[i] == StepOf(calls[i])
  {
    if calls == [] then [] else [StepOf(calls[0])] + Steps(calls[1..])
  }

  function GroupPlan(needGroup: bool): seq<Step> {
    [ListServices] + (if needGroup then [CreateService] else [])
  }

  const DevicePlan: seq<Step> := [ListDevices, CreateDevice, PushMeasurement]

  function SubscriptionPlan(needSubscription: bool): seq<Step> {
    [ListSubscriptions] + (if needSubscription then [CreateSubscription] else [])
  }

  /** Every call a request makes when nothing fails, in order. */
  function Plan(needGroup: bool, needSubscription: bool): seq<Step> {
    GroupPlan(needGroup) + DevicePlan + SubscriptionPlan(needSubscription)
  }

  /** The plan for a request arriving at state st. */
  function PlanFor(st: Snapshot): seq<Step> {
    Plan(NeedsGroup(st.groups, EntityType), CheckSubscriptions(st.subscriptions, EntityType) == Missing)
  }

  /** The calls made between two states. */
  function NewCalls(before: Snapshot, after: Snapshot): seq<Call>
    requires before.log <= after.log
  {
    after.log[|before.log|..]
  }

  /**
   * `calls` are a prefix of `plan`'s calls, all but possibly the last
   * successful; all of them, successfully, when no fault was thrown; and a
   * downstream fault is the failure of the last call.
   */
  ghost predicate RanCalls(calls: seq<Call>, plan: seq<Step>, failures: Failures, fault: Option<Fault>) {
    && Steps(calls) <= plan
    && (forall i :: 0 <= i < |calls| - 1 ==> StepOf(calls[i]) !in failures)
    && (fault.None? ==> Steps(calls) == plan && forall i :: 0 <= i < |calls| ==> StepOf(calls[i]) !in failures)
    && (fault.Some? && fault.value.Upstream? ==>
          |calls| > 0 && StepOf(calls[|calls| - 1]) in failures
          && fault.value == Upstream(failures[StepOf(calls[|calls| - 1])]))
  }

  /** Going from `before` to `after` made calls as RanCalls describes. */
  ghost predicate Ran(before: Snapshot, after: Snapshot, plan: seq<Step>, failures: Failures, fault: Option<Fault>) {
    before.log <= after.log && RanCalls(NewCalls(before, after), plan, failures, fault)
  }

  lemma {:induction false} StepsAppend(a: seq<Call>, b: seq<Call>)
    ensures Steps(a + b) == Steps(a) + Steps(b)
  {
  }

  lemma RanCallsThen(x: seq<Call>, y: seq<Call>, p1: seq<Step>, p2: seq<Step>, failures: Failures, fault: Option<Fault>)
    requires RanCalls(x, p1, failures, None) && RanCalls(y, p2, failures, fault)
    ensures RanCalls(x + y, p1 + p2, failures, fault)
  {
    StepsAppend(x, y);
    var xy := x + y;
    forall i | 0 <= i < |xy| - 1 ensures StepOf(xy[i]) !in failures {
      if i < |x| { assert xy[i] == x[i]; } else { assert xy[i] == y[i - |x|]; }
    }
    if fault.None? {
      forall i | 0 <= i < |xy| ensures StepOf(xy[i]) !in failures {
        if i < |x| { assert xy[i] == x[i]; } else { assert xy[i] == y[i - |x|]; }
      }
    }
    if fault.Some? && fault.value.Upstream? {
      assert xy[|xy| - 1] == y[|y| - 1];
    }
  }

  /** A completed run followed by another run is a run of the joined plans. */
  lemma RanThen(a: Snapshot, b: Snapshot, c: Snapshot, p1: seq<Step>, p2: seq<Step>, failures: Failures, fault: Option<Fault>)
    requires Ran(a, b, p1, failures, None) && Ran(b, c, p2, failures, fault)
    ensures Ran(a, c, p1 + p2, failures, fault)
  {
    LogsSplit(a.log, b.log, c.log);
    RanCallsThen(NewCalls(a, b), NewCalls(b, c), p1, p2, failures, fault);
  }

  /** What was logged after `x` is what was logged up to `y`, then after it. */
  lemma LogsSplit(x: seq<Call>, y: seq<Call>, z: seq<Call>)
    requires x <= y && y <= z
    ensures z[|x|..] == y[|x|..] + z[|y|..]
  {
    assert z == y + z[|y|..];
    assert y == x + y[|x|..];
  }

  /** A run stopped by a fault is also a prefix of any longer plan. */
  lemma RanStopped(a: Snapshot, b: Snapshot, p1: seq<Step>, p2: seq<Step>, failures: Failures, fault: Option<Fault>)
    requires Ran(a, b, p1, failures, fault) && fault.Some?
    ensures Ran(a, b, p1 + p2, failures, fault)
  {
  }

  lemma PerformRan(st: Snapshot, c: Call, failures: Failures)
    ensures var r := Perform(st, c, failures);
      Ran(st, r.st, [StepOf(c)], failures, r.fault) && (r.fault.Some? ==> r.fault.value.Upstream?)
  {
    var r := Perform(st, c, failures);
    assert NewCalls(st, r.st) == [c];
  }

  /** The group stage: its calls, and the only change it makes. */
  lemma GroupStageFacts(st: Snapshot, cfg: Config, failures: Failures)
    ensures var g := GroupStage(st, cfg, failures);
      && Ran(st, g.st, GroupPlan(NeedsGroup(st.groups, EntityType)), failures, g.fault)
      && (g.fault.Some? ==> g.fault.value.Upstream?)
      && |g.st.log| > |st.log|
      && g.st.devices == st.devices && g.st.subscriptions == st.subscriptions
      && g.st.measurements == st.measurements
      && g.st.groups == (if NeedsGroup(st.groups, EntityType) && ListServices !in failures && CreateService !in failures
                         then st.groups + ServicesPayload(cfg, EntityType).services else st.groups)
  {
    var listed := Perform(st, GetServices, failures);
    PerformRan(st, GetServices, failures);
    if listed.fault.None? && NeedsGroup(st.groups, EntityType) {
      var c := PostServices(ServicesPayload(cfg, EntityType));
      PerformRan(listed.st, c, failures);
      RanThen(st, listed.st, Perform(listed.st, c, failures).st, [ListServices], [CreateService], failures,
        Perform(listed.st, c, failures).fault);
    } else if listed.fault.Some? && NeedsGroup(st.groups, EntityType) {
      RanStopped(st, listed.st, [ListServices], [CreateService], failures, listed.fault);
    }
  }

  /** The device stage: its calls, and the only changes it makes. */
  lemma DeviceStageFacts(st: Snapshot, device: Body, failures: Failures)
    ensures var d := DeviceStage(st, device, failures);
      var newId := NewDeviceId(st);
      && Ran(st, d.st, DevicePlan, failures, d.fault)
      && (d.fault.Some? ==> d.fault.value.Upstream?)
      && d.st.groups == st.groups && d.st.subscriptions == st.subscriptions
      && d.st.devices == (if ListDevices !in failures && CreateDevice !in failures
                          then st.devices + DevicesPayload(newId, EntityType, Get(device, "id")).devices else st.devices)
      && d.st.measurements == (if ListDevices !in failures && CreateDevice !in failures && PushMeasurement !in failures
                               then st.measurements + [Measurement(newId, Reading(Get(device, "latitude"), Get(device, "longitude")))]
                               else st.measurements)
  {
    DeviceStageCalls(st, device, failures);
    DeviceStageEffects(st, device, failures);
  }

  lemma DeviceStageCalls(st: Snapshot, device: Body, failures: Failures)
    ensures var d := DeviceStage(st, device, failures);
      && Ran(st, d.st, DevicePlan, failures, d.fault)
      && (d.fault.Some? ==> d.fault.value.Upstream?)
  {
    var listed := Perform(st, GetDevices, failures);
    PerformRan(st, GetDevices, failures);
    if listed.fault.Some? {
      RanStopped(st, listed.st, [ListDevices], [CreateDevice, PushMeasurement], failures, listed.fault);
    } else {
      DeviceCallsAfterListing(st, listed.st, device, failures);
    }
  }

  /** Once the listing went through: the creation and the push follow it. */
  lemma DeviceCallsAfterListing(st: Snapshot, listed: Snapshot, device: Body, failures: Failures)
    requires ListDevices !in failures && listed == Perform(st, GetDevices, failures).st
    requires Ran(st, listed, [ListDevices], failures, None)
    ensures var d := DeviceStage(st, device, failures);
      && Ran(st, d.st, DevicePlan, failures, d.fault)
      && (d.fault.Some? ==> d.fault.value.Upstream?)
  {
    var newId := NewDeviceId(st);
    var c1 := PostDevices(DevicesPayload(newId, EntityType, Get(device, "id")));
    var c2 := PostMeasurement(newId, Reading(Get(device, "latitude"), Get(device, "longitude")));
    CreationThenPush(st, listed, c1, c2, failures);
  }

  /** After the listing: a creation call, then, if it went through, a push call. */
  lemma CreationThenPush(st: Snapshot, listed: Snapshot, c1: Call, c2: Call, failures: Failures)
    requires Ran(st, listed, [ListDevices], failures, None)
    requires StepOf(c1) == CreateDevice && StepOf(c2) == PushMeasurement
    ensures var created := Perform(listed, c1, failures);
      var d := if created.fault.Some? then created else Perform(created.st, c2, failures);
      && Ran(st, d.st, DevicePlan, failures, d.fault)
      && (d.fault.Some? ==> d.fault.value.Upstream?)
  {
    var created := Perform(listed, c1, failures);
    PerformRan(listed, c1, failures);
    RanThen(st, listed, created.st, [ListDevices], [CreateDevice], failures, created.fault);
    if created.fault.Some? {
      RanStopped(st, created.st, [ListDevices, CreateDevice], [PushMeasurement], failures, created.fault);
    } else {
      PushAfterCreation(st, created.st, c2, failures);
    }
  }

  /** The sample push completes a run that listed and created. */
  lemma PushAfterCreation(st: Snapshot, created: Snapshot, c: Call, failures: Failures)
    requires Ran(st, created, [ListDevices, CreateDevice], failures, None) && StepOf(c) == PushMeasurement
    ensures var pushed := Perform(created, c, failures);
      && Ran(st, pushed.st, DevicePlan, failures, pushed.fault)
      && (pushed.fault.Some? ==> pushed.fault.value.Upstream?)
  {
    var pushed := Perform(created, c, failures);
    PerformRan(created, c, failures);
    assert [ListDevices, CreateDevice] + [PushMeasurement] == DevicePlan;
    RanThen(st, created, pushed.st, [ListDevices, CreateDevice], [PushMeasurement], failures, pushed.fault);
  }

  lemma DeviceStageEffects(st: Snapshot, device: Body, failures: Failures)
    ensures var d := DeviceStage(st, device, failures);
      var newId := NewDeviceId(st);
      && d.st.groups == st.groups && d.st.subscriptions == st.subscriptions
      && d.st.devices == (if ListDevices !in failures && CreateDevice !in failures
                          then st.devices + DevicesPayload(newId, EntityType, Get(device, "id")).devices else st.devices)
      && d.st.measurements == (if ListDevices !in failures && CreateDevice !in failures && PushMeasurement !in failures
                               then st.measurements + [Measurement(newId, Reading(Get(device, "latitude"), Get(device, "longitude")))]
                               else st.measurements)
  {
  }

  /** The subscription stage: its calls, when it throws, and the only change it makes. */
  lemma SubscriptionStageFacts(st: Snapshot, cfg: Config, failures: Failures)
    ensures var s := SubscriptionStage(st, cfg, failures);
      var check := CheckSubscriptions(st.subscriptions, EntityType);
      && Ran(st, s.st, SubscriptionPlan(check == Missing), failures, s.fault)
      && (s.fault.Some? && !s.fault.value.Upstream? ==> s.fault.value == TypeError && check == Malformed)
      && (s.fault.None? ==> check != Malformed)
      && (ListSubscriptions !in failures && check == Malformed ==> s.fault == Some(TypeError))
      && s.st.groups == st.groups && s.st.devices == st.devices && s.st.measurements == st.measurements
      && s.st.subscriptions == (if ListSubscriptions !in failures && check == Missing && CreateSubscription !in failures
                                then st.subscriptions + [SubscriptionPayload(cfg, EntityType)] else st.subscriptions)
  {
    var check := CheckSubscriptions(st.subscriptions, EntityType);
    var listed := Perform(st, GetSubscriptions, failures);
    PerformRan(st, GetSubscriptions, failures);
    if listed.fault.Some? {
      if check == Missing {
        RanStopped(st, listed.st, [ListSubscriptions], [CreateSubscription], failures, listed.fault);
      }
    } else if check == Missing {
      var c := PostSubscription(SubscriptionPayload(cfg, EntityType));
      PerformRan(listed.st, c, failures);
      RanThen(st, listed.st, Perform(listed.st, c, failures).st, [ListSubscriptions], [CreateSubscription], failures,
        Perform(listed.st, c, failures).fault);
    }
  }

  /** The calls and faults of the device and subscription stages together. */
  lemma RegisterAndSubscribeOrder(st: Snapshot, cfg: Config, device: Body, failures: Failures)
    ensures var r := RegisterAndSubscribe(st, cfg, device, failures);
      var check := CheckSubscriptions(st.subscriptions, EntityType);
      && Ran(st, r.st, DevicePlan + SubscriptionPlan(check == Missing), failures, r.fault)
      && (r.fault.Some? ==> r.fault.value.Upstream? || (r.fault.value == TypeError && check == Malformed))
      && (r.fault.None? ==> check != Malformed)
  {
    var check := CheckSubscriptions(st.subscriptions, EntityType);
    var d := DeviceStage(st, device, failures);
    DeviceStageFacts(st, device, failures);
    if d.fault.Some? {
      RanStopped(st, d.st, DevicePlan, SubscriptionPlan(check == Missing), failures, d.fault);
    } else {
      var s := SubscriptionStage(d.st, cfg, failures);
      SubscriptionStageFacts(d.st, cfg, failures);
      RanThen(st, d.st, s.st, DevicePlan, SubscriptionPlan(check == Missing), failures, s.fault);
    }
  }

  /** The calls and faults of the three stages. */
  lemma RunStagesOrder(st: Snapshot, cfg: Config, device: Body, failures: Failures)
    ensures var r := RunStages(st, cfg, device, failures);
      && Ran(st, r.st, PlanFor(st), failures, r.fault)
      && (r.fault.Some? ==>
            r.fault.value.Upstream?
            || (r.fault.value == TypeError && CheckSubscriptions(st.subscriptions, EntityType) == Malformed))
      && (r.fault.None? ==> CheckSubscriptions(st.subscriptions, EntityType) != Malformed)
  {
    var needGroup := NeedsGroup(st.groups, EntityType);
    var rest := DevicePlan + SubscriptionPlan(CheckSubscriptions(st.subscriptions, EntityType) == Missing);
    assert PlanFor(st) == GroupPlan(needGroup) + rest;
    var g := GroupStage(st, cfg, failures);
    GroupStageFacts(st, cfg, failures);
    if g.fault.Some? {
      RanStopped(st, g.st, GroupPlan(needGroup), rest, failures, g.fault);
    } else {
      var r := RegisterAndSubscribe(g.st, cfg, device, failures);
      RegisterAndSubscribeOrder(g.st, cfg, device, failures);
      RanThen(st, g.st, r.st, GroupPlan(needGroup), rest, failures, r.fault);
    }
  }

  /**
   * Call order: every request makes a prefix of the fixed plan — list groups,
   * maybe create one, list devices, create the device, push its sample, list
   * subscriptions, maybe create one — each call after a successful one, and
   * a downstream failure is the failure of the last call made.
   */
  lemma CallOrder(st: Snapshot, cfg: Config, body: Body, failures: Failures)
    ensures var a := Attempt(st, cfg, body, failures);
      && Ran(st, a.st, PlanFor(st), failures, a.fault)
      && (a.fault.Some? ==>
            a.fault.value.Upstream?
            || (a.fault.value.MissingFields? && |MissingProperties(body)| > 0)
            || (a.fault.value == TypeError && CheckSubscriptions(st.subscriptions, EntityType) == Malformed))
      && (a.fault.None? ==> CheckSubscriptions(st.subscriptions, EntityType) != Malformed)
  {
    var a := Attempt(st, cfg, body, failures);
    if |MissingProperties(body)| > 0 {
      assert NewCalls(st, a.st) == [];
    } else {
      RunStagesOrder(st, cfg, WithDefaults(body), failures);
    }
  }

  /** Validation comes first: a request lacking a coordinate is answered 422 and makes no downstream call. */
  lemma ValidationFailsFast(st: Snapshot, cfg: Config, body: Body, failures: Failures)
    requires |MissingProperties(body)| > 0
    ensures var r := Provision(st, cfg, body, failures);
      && r.0 == st
      && r.1 == Response(422, Echo(MissingFields(MessagePrefix + Join(MissingProperties(body), ", "))))
  {
    MissingMessageLists(body);
  }

  /** A request leaves the call log untouched exactly when it lacks a coordinate. */
  lemma ValidationGate(st: Snapshot, cfg: Config, body: Body, failures: Failures)
    ensures Provision(st, cfg, body, failures).0.log == st.log <==> |MissingProperties(body)| > 0
  {
    if |MissingProperties(body)| == 0 {
      var device := WithDefaults(body);
      var g := GroupStage(st, cfg, failures);
      GroupStageFacts(st, cfg, failures);
      if g.fault.None? {
        RegisterAndSubscribeOrder(g.st, cfg, device, failures);
      }
    }
  }

  /**
   * A request succeeds exactly when it carries both coordinates, the listed
   * subscriptions can be scanned, and no call of its plan fails.
   */
  lemma SuccessIff(st: Snapshot, cfg: Config, body: Body, failures: Failures)
    ensures Attempt(st, cfg, body, failures).fault.None?
        <==> |MissingProperties(body)| == 0
             && CheckSubscriptions(st.subscriptions, EntityType) != Malformed
             && forall s :: s in PlanFor(st) ==> s !in failures
  {
    var a := Attempt(st, cfg, body, failures);
    CallOrder(st, cfg, body, failures);
    if a.fault.None? {
      SuccessClearsPlan(NewCalls(st, a.st), PlanFor(st), failures);
    } else if a.fault.value.Upstream? {
      FaultInPlan(NewCalls(st, a.st), PlanFor(st), failures, a.fault);
    }
  }

  /** A run that completed its plan met no failing step of it. */
  lemma SuccessClearsPlan(calls: seq<Call>, plan: seq<Step>, failures: Failures)
    requires RanCalls(calls, plan, failures, None)
    ensures forall s :: s in plan ==> s !in failures
  {
    forall s | s in plan ensures s !in failures {
      var i :| 0 <= i < |calls| && Steps(calls)[i] == s;
    }
  }

  /** A downstream fault comes from a failing step of the plan. */
  lemma FaultInPlan(calls: seq<Call>, plan: seq<Step>, failures: Failures, fault: Option<Fault>)
    requires RanCalls(calls, plan, failures, fault) && fault.Some? && fault.value.Upstream?
    ensures exists s :: s in plan && s in failures
  {
    assert Steps(calls)[|calls| - 1] in plan;
  }

  /** The plan always holds the listings and the device steps; a creation exactly when its check asks for it. */
  lemma PlanMembers(st: Snapshot)
    ensures var p := PlanFor(st);
      && ListServices in p && ListDevices in p && CreateDevice in p && PushMeasurement in p && ListSubscriptions in p
      && (CreateService in p <==> NeedsGroup(st.groups, EntityType))
      && (CreateSubscription in p <==> CheckSubscriptions(st.subscriptions, EntityType) == Missing)
  {
    PlanStepsIn(NeedsGroup(st.groups, EntityType), CheckSubscriptions(st.subscriptions, EntityType) == Missing);
  }

  lemma PlanStepsIn(needGroup: bool, needSubscription: bool)
    ensures var p := Plan(needGroup, needSubscription);
      && ListServices in p && ListDevices in p && CreateDevice in p && PushMeasurement in p && ListSubscriptions in p
      && (CreateService in p <==> needGroup)
      && (CreateSubscription in p <==> needSubscription)
  {
    var p := Plan(needGroup, needSubscription);
    var d := [ListDevices, CreateDevice, PushMeasurement, ListSubscriptions];
    if needGroup && needSubscription {
      assert p == [ListServices, CreateService] + d + [CreateSubscription];
    } else if needGroup {
      assert p == [ListServices, CreateService] + d;
    } else if needSubscription {
      assert p == [ListServices] + d + [CreateSubscription];
    } else {
      assert p == [ListServices] + d;
    }
  }

  lemma GroupStageSucceeds(st: Snapshot, cfg: Config, failures: Failures)
    requires ListServices !in failures && (NeedsGroup(st.groups, EntityType) ==> CreateService !in failures)
    ensures var g := GroupStage(st, cfg, failures);
      && g.fault.None?
      && g.st.devices == st.devices && g.st.subscriptions == st.subscriptions && g.st.measurements == st.measurements
      && !NeedsGroup(g.st.groups, EntityType)
      && st.log <= g.st.log && Steps(NewCalls(st, g.st)) == GroupPlan(NeedsGroup(st.groups, EntityType))
  {
    GroupStageFacts(st, cfg, failures);
    if NeedsGroup(st.groups, EntityType) {
      CreatedGroupIsFound(cfg, st.groups, EntityType);
    }
  }

  lemma DeviceStageSucceeds(st: Snapshot, device: Body, failures: Failures)
    requires ListDevices !in failures && CreateDevice !in failures && PushMeasurement !in failures
    ensures var d := DeviceStage(st, device, failures);
      && d.fault.None?
      && d.st.groups == st.groups && d.st.subscriptions == st.subscriptions
      && d.st.devices == st.devices + DevicesPayload(NewDeviceId(st), EntityType, Get(device, "id")).devices
      && d.st.measurements
         == st.measurements + [Measurement(NewDeviceId(st), Reading(Get(device, "latitude"), Get(device, "longitude")))]
  {
  }

  lemma SubscriptionStageSucceeds(st: Snapshot, cfg: Config, failures: Failures)
    requires ListSubscriptions !in failures
    requires CheckSubscriptions(st.subscriptions, EntityType) != Malformed
    requires CheckSubscriptions(st.subscriptions, EntityType) == Missing ==> CreateSubscription !in failures
    ensures var s := SubscriptionStage(st, cfg, failures);
      && s.fault.None?
      && s.st.groups == st.groups && s.st.devices == st.devices && s.st.measurements == st.measurements
      && CheckSubscriptions(s.st.subscriptions, EntityType) == Present
  {
    if CheckSubscriptions(st.subscriptions, EntityType) == Missing {
      CreatedSubscriptionIsFound(cfg, st.subscriptions);
    }
  }

  /**
   * A successful request adds exactly one device, with the allocated id and
   * the caller's id, pushes one sample for it, and is confirmed with the
   * caller's id (or "anonymous"), not the device id. Afterwards a group and
   * a subscription for the type exist.
   */
  lemma SuccessfulRegistration(st: Snapshot, cfg: Config, body: Body, failures: Failures)
    requires Attempt(st, cfg, body, failures).fault.None?
    ensures var r := Provision(st, cfg, body, failures);
      && r.1 == Response(200, Confirmation(ConfirmationPrefix + Render(CallerId(body))))
      && r.0.devices == st.devices + DevicesPayload(NewDeviceId(st), EntityType, CallerId(body)).devices
      && r.0.measurements
         == st.measurements + [Measurement(NewDeviceId(st), Reading(Get(body, "latitude"), Get(body, "longitude")))]
      && !NeedsGroup(r.0.groups, EntityType)
      && CheckSubscriptions(r.0.subscriptions, EntityType) == Present
  {
    SuccessfulAttempt(st, cfg, body, failures);
  }

  lemma SuccessfulAttempt(st: Snapshot, cfg: Config, body: Body, failures: Failures)
    requires Attempt(st, cfg, body, failures).fault.None?
    ensures var r := Attempt(st, cfg, body, failures).st;
      && r.devices == st.devices + DevicesPayload(NewDeviceId(st), EntityType, CallerId(body)).devices
      && r.measurements
         == st.measurements + [Measurement(NewDeviceId(st), Reading(Get(body, "latitude"), Get(body, "longitude")))]
      && !NeedsGroup(r.groups, EntityType)
      && CheckSubscriptions(r.subscriptions, EntityType) == Present
  {
    SuccessIff(st, cfg, body, failures);
    PlanMembers(st);
    var device := WithDefaults(body);
    StagesSucceed(st, cfg, device, failures);
  }

  /** With no planned step failing and well-formed subscriptions, the three stages complete. */
  lemma StagesSucceed(st: Snapshot, cfg: Config, device: Body, failures: Failures)
    requires ListServices !in failures && (NeedsGroup(st.groups, EntityType) ==> CreateService !in failures)
    requires ListDevices !in failures && CreateDevice !in failures && PushMeasurement !in failures
    requires ListSubscriptions !in failures
    requires CheckSubscriptions(st.subscriptions, EntityType) != Malformed
    requires CheckSubscriptions(st.subscriptions, EntityType) == Missing ==> CreateSubscription !in failures
    ensures var r := RunStages(st, cfg, device, failures);
      && r.fault.None?
      && r.st.devices == st.devices + DevicesPayload(NewDeviceId(st), EntityType, Get(device, "id")).devices
      && r.st.measurements
         == st.measurements + [Measurement(NewDeviceId(st), Reading(Get(device, "latitude"), Get(device, "longitude")))]
      && !NeedsGroup(r.st.groups, EntityType)
      && CheckSubscriptions(r.st.subscriptions, EntityType) == Present
  {
    var g := GroupStage(st, cfg, failures);
    GroupStageSucceeds(st, cfg, failures);
    var d := DeviceStage(g.st, device, failures);
    DeviceStageSucceeds(g.st, device, failures);
    SubscriptionStageSucceeds(d.st, cfg, failures);
  }

  /** A successful request made every call of its plan, in order. */
  lemma SuccessMakesPlannedCalls(st: Snapshot, cfg: Config, body: Body, failures: Failures)
    requires Attempt(st, cfg, body, failures).fault.None?
    ensures var r := Attempt(st, cfg, body, failures).st;
      st.log <= r.log && Steps(NewCalls(st, r)) == PlanFor(st)
  {
    CallOrder(st, cfg, body, failures);
  }

  /**
   * No rollback: a request only ever appends to what the registry and the
   * broker hold, at most one group, device, sample and subscription.
   */
  lemma NoRollback(st: Snapshot, cfg: Config, body: Body, failures: Failures)
    ensures var r := Provision(st, cfg, body, failures).0;
      && st.log <= r.log
      && st.groups <= r.groups && |r.groups| <= |st.groups| + 1
      && st.devices <= r.devices && |r.devices| <= |st.devices| + 1
      && st.measurements <= r.measurements && |r.measurements| <= |st.measurements| + 1
      && st.subscriptions <= r.subscriptions && |r.subscriptions| <= |st.subscriptions| + 1
  {
    if |MissingProperties(body)| == 0 {
      var device := WithDefaults(body);
      var g := GroupStage(st, cfg, failures);
      GroupStageFacts(st, cfg, failures);
      if g.fault.None? {
        RegisterAndSubscribeGrows(g.st, cfg, device, failures);
      }
    }
  }

  /** After the group stage, at most one device, sample and subscription are appended. */
  lemma RegisterAndSubscribeGrows(st: Snapshot, cfg: Config, device: Body, failures: Failures)
    ensures var r := RegisterAndSubscribe(st, cfg, device, failures).st;
      && st.log <= r.log && r.groups == st.groups
      && st.devices <= r.devices && |r.devices| <= |st.devices| + 1
      && st.measurements <= r.measurements && |r.measurements| <= |st.measurements| + 1
      && st.subscriptions <= r.subscriptions && |r.subscriptions| <= |st.subscriptions| + 1
  {
    var d := DeviceStage(st, device, failures);
    DeviceStageFacts(st, device, failures);
    if d.fault.None? {
      SubscriptionStageFacts(d.st, cfg, failures);
    }
  }

  lemma DeviceStagePushFails(st: Snapshot, device: Body, failures: Failures)
    requires ListDevices !in failures && CreateDevice !in failures && PushMeasurement in failures
    ensures var d := DeviceStage(st, device, failures);
      && d.fault == Some(Upstream(failures[PushMeasurement]))
      && d.st.groups == st.groups && d.st.subscriptions == st.subscriptions && d.st.measurements == st.measurements
      && d.st.devices == st.devices + DevicesPayload(NewDeviceId(st), EntityType, Get(device, "id")).devices
      && st.log <= d.st.log && Steps(NewCalls(st, d.st)) == DevicePlan
  {
    var newId := NewDeviceId(st);
    var c0 := GetDevices;
    var c1 := PostDevices(DevicesPayload(newId, EntityType, Get(device, "id")));
    var c2 := PostMeasurement(newId, Reading(Get(device, "latitude"), Get(device, "longitude")));
    var listed := Perform(st, c0, failures);
    assert listed.st == st.(log := st.log + [c0]) && listed.fault.None?;
    var created := Perform(listed.st, c1, failures);
    assert created.st == st.(devices := st.devices + c1.devices.devices, log := st.log + [c0, c1]);
    assert created.fault.None?;
    var pushed := Perform(created.st, c2, failures);
    assert pushed.st == created.st.(log := st.log + [c0, c1, c2]);
    assert DeviceStage(st, device, failures) == pushed;
    assert NewCalls(st, pushed.st) == [c0, c1, c2];
  }

  /**
   * Partial failure: when the device is created but its first sample is
   * rejected, the request fails with that error, the device stays in the
   * registry, and nothing after the sample push is attempted.
   */
  lemma PartialFailureKeepsDevice(st: Snapshot, cfg: Config, body: Body, failures: Failures)
    requires |MissingProperties(body)| == 0
    requires ListServices !in failures && (NeedsGroup(st.groups, EntityType) ==> CreateService !in failures)
    requires ListDevices !in failures && CreateDevice !in failures && PushMeasurement in failures
    ensures var r := Provision(st, cfg, body, failures);
      && r.1 == Respond(Upstream(failures[PushMeasurement]))
      && r.0.devices == st.devices + DevicesPayload(NewDeviceId(st), EntityType, CallerId(body)).devices
      && r.0.measurements == st.measurements
      && r.0.subscriptions == st.subscriptions
      && st.log <= r.0.log && Steps(NewCalls(st, r.0)) == GroupPlan(NeedsGroup(st.groups, EntityType)) + DevicePlan
  {
    PartialFailureAttempt(st, cfg, body, failures);
  }

  lemma PartialFailureAttempt(st: Snapshot, cfg: Config, body: Body, failures: Failures)
    requires |MissingProperties(body)| == 0
    requires ListServices !in failures && (NeedsGroup(st.groups, EntityType) ==> CreateService !in failures)
    requires ListDevices !in failures && CreateDevice !in failures && PushMeasurement in failures
    ensures var a := Attempt(st, cfg, body, failures);
      && a.fault == Some(Upstream(failures[PushMeasurement]))
      && a.st.devices == st.devices + DevicesPayload(NewDeviceId(st), EntityType, CallerId(body)).devices
      && a.st.measurements == st.measurements
      && a.st.subscriptions == st.subscriptions
      && st.log <= a.st.log && Steps(NewCalls(st, a.st)) == GroupPlan(NeedsGroup(st.groups, EntityType)) + DevicePlan
  {
    var device := WithDefaults(body);
    var g := GroupStage(st, cfg, failures);
    GroupStageSucceeds(st, cfg, failures);
    var d := DeviceStage(g.st, device, failures);
    DeviceStagePushFails(g.st, device, failures);
    AttemptAfterGroup(st, cfg, body, failures);
    CallsThrough(st, g.st, d.st);
  }

  /** A validated request whose group stage completes continues with the device stage. */
  lemma AttemptAfterGroup(st: Snapshot, cfg: Config, body: Body, failures: Failures)
    requires |MissingProperties(body)| == 0 && GroupStage(st, cfg, failures).fault.None?
    ensures Attempt(st, cfg, body, failures)
         == RegisterAndSubscribe(GroupStage(st, cfg, failures).st, cfg, WithDefaults(body), failures)
  {
  }

  /** The calls from a to c are those from a to b followed by those from b to c. */
  lemma CallsThrough(a: Snapshot, b: Snapshot, c: Snapshot)
    requires a.log <= b.log <= c.log
    ensures a.log <= c.log && NewCalls(a, c) == NewCalls(a, b) + NewCalls(b, c)
    ensures Steps(NewCalls(a, c)) == Steps(NewCalls(a, b)) + Steps(NewCalls(b, c))
  {
    assert NewCalls(a, c) == NewCalls(a, b) + NewCalls(b, c);
    StepsAppend(NewCalls(a, b), NewCalls(b, c));
  }

  /** With a group and a subscription in place, the plan has no creation step. */
  lemma PlanWhenPresent(st: Snapshot)
    requires !NeedsGroup(st.groups, EntityType) && CheckSubscriptions(st.subscriptions, EntityType) != Missing
    ensures PlanFor(st) == [ListServices, ListDevices, CreateDevice, PushMeasurement, ListSubscriptions]
  {
    assert GroupPlan(false) == [ListServices];
    assert SubscriptionPlan(false) == [ListSubscriptions];
  }

  /** After a successful request, the plan for the next one creates neither a group nor a subscription. */
  lemma PlanAfterSuccess(st: Snapshot, cfg: Config, body: Body, failures: Failures)
    requires Attempt(st, cfg, body, failures).fault.None?
    ensures PlanFor(Attempt(st, cfg, body, failures).st)
         == [ListServices, ListDevices, CreateDevice, PushMeasurement, ListSubscriptions]
  {
    SuccessfulRegistration(st, cfg, body, failures);
    PlanWhenPresent(Attempt(st, cfg, body, failures).st);
  }

  /** Every request's calls are a prefix of its plan. */
  lemma CallsWithinPlan(st: Snapshot, cfg: Config, body: Body, failures: Failures)
    ensures var r := Attempt(st, cfg, body, failures).st;
      st.log <= r.log && Steps(NewCalls(st, r)) <= PlanFor(st)
  {
    CallOrder(st, cfg, body, failures);
  }

  lemma NoCreationInCalls(calls: seq<Call>, plan: seq<Step>)
    requires Steps(calls) <= plan && CreateService !in plan && CreateSubscription !in plan
    ensures forall c :: c in calls ==> !c.PostServices? && !c.PostSubscription?
  {
    forall c | c in calls ensures !c.PostServices? && !c.PostSubscription? {
      var i :| 0 <= i < |calls| && calls[i] == c;
      assert Steps(calls)[i] in plan;
    }
  }

  /** A request arriving when the group and the subscription exist posts neither. */
  lemma NoCreationWhenPresent(st: Snapshot, cfg: Config, body: Body, failures: Failures)
    requires !NeedsGroup(st.groups, EntityType) && CheckSubscriptions(st.subscriptions, EntityType) != Missing
    ensures var r := Attempt(st, cfg, body, failures).st;
      && st.log <= r.log
      && forall c :: c in NewCalls(st, r) ==> !c.PostServices? && !c.PostSubscription?
  {
    var r := Attempt(st, cfg, body, failures).st;
    CallsWithinPlan(st, cfg, body, failures);
    PlanWhenPresent(st);
    NoCreationInCalls(NewCalls(st, r), PlanFor(st));
  }

  /** After a successful request the group and the subscription for the type are both found. */
  lemma ChecksAfterSuccess(st: Snapshot, cfg: Config, body: Body, failures: Failures)
    requires Attempt(st, cfg, body, failures).fault.None?
    ensures var st1 := Attempt(st, cfg, body, failures).st;
      !NeedsGroup(st1.groups, EntityType) && CheckSubscriptions(st1.subscriptions, EntityType) == Present
  {
    SuccessfulAttempt(st, cfg, body, failures);
  }

  /** The device after a successful request gets the next counter value. */
  lemma CounterAfterSuccess(st: Snapshot, cfg: Config, body: Body, failures: Failures, n: nat)
    requires Attempt(st, cfg, body, failures).fault.None?
    requires Counter(NewDeviceId(st)) == Some(n)
    ensures Counter(NewDeviceId(Attempt(st, cfg, body, failures).st)) == Some(n + 1)
  {
    SuccessfulAttempt(st, cfg, body, failures);
    var st1 := Attempt(st, cfg, body, failures).st;
    CounterAfterAppend(st.devices, st1.devices, NewDeviceId(st), CallerId(body), n);
  }

  /** Appending the record of device `id` makes `id` the last listed one, whose successor advances the counter. */
  lemma CounterAfterAppend(before: seq<DeviceRecord>, after: seq<DeviceRecord>, id: string, name: JsValue, n: nat)
    requires after == before + DevicesPayload(id, EntityType, name).devices
    requires Counter(id) == Some(n)
    ensures Counter(NextDeviceId(DeviceIds(after))) == Some(n + 1)
  {
    IdsAfterAppend(before, after, id, name);
    NextAfterAppend(DeviceIds(before), id, n);
  }

  /**
   * Idempotence across requests: after one successful request, the next one
   * posts no group and no subscription (CounterAfterSuccess gives the id it
   * allocates).
   */
  lemma RepeatedRequest(st: Snapshot, cfg: Config, body: Body, failures: Failures, body2: Body, failures2: Failures)
    requires Attempt(st, cfg, body, failures).fault.None?
    ensures var st1 := Attempt(st, cfg, body, failures).st;
      var st2 := Attempt(st1, cfg, body2, failures2).st;
      && st1.log <= st2.log
      && (forall c :: c in NewCalls(st1, st2) ==> !c.PostServices? && !c.PostSubscription?)
  {
    var st1 := Attempt(st, cfg, body, failures).st;
    ChecksAfterSuccess(st, cfg, body, failures);
    NoCreationWhenPresent(st1, cfg, body2, failures2);
  }

  /** A successful request whose registry holds the first k allocations leaves the first k + 1. */
  lemma AllocationsAfterSuccess(st: Snapshot, cfg: Config, body: Body, failures: Failures, k: nat)
    requires DeviceIds(st.devices) == Allocations(k)
    requires Attempt(st, cfg, body, failures).fault.None?
    ensures DeviceIds(Attempt(st, cfg, body, failures).st.devices) == Allocations(k + 1)
  {
    SuccessfulAttempt(st, cfg, body, failures);
    var after := Attempt(st, cfg, body, failures).st.devices;
    IdsAfterAppend(st.devices, after, NewDeviceId(st), CallerId(body));
  }

  /** Appending the record of device `id` appends `id` to the listed ids. */
  lemma IdsAfterAppend(before: seq<DeviceRecord>, after: seq<DeviceRecord>, id: string, name: JsValue)
    requires after == before + DevicesPayload(id, EntityType, name).devices
    ensures DeviceIds(after) == DeviceIds(before) + [id]
  {
    var a, b := DeviceIds(after), DeviceIds(before);
    assert |a| == |b + [id]|;
    forall i | 0 <= i < |a| ensures a[i] == (b + [id])[i] {
      if i < |b| {
        assert after[i] == before[i];
      }
    }
  }

  /** One request: its body, and which of its calls fail. */
  datatype Request = Request(body: Body, failures: Failures)

  /** A request carrying both coordinates whose calls all succeed. */
  predicate Unfailing(r: Request) {
    |MissingProperties(r.body)| == 0 && r.failures == map[]
  }

  /** Every request of `reqs` is unfailing. */
  predicate AllUnfailing(reqs: seq<Request>) {
    forall i :: 0 <= i < |reqs| ==> Unfailing(reqs[i])
  }

  /** The requests before the last of an unfailing run are unfailing too. */
  lemma AllUnfailingInit(reqs: seq<Request>)
    requires reqs != [] && AllUnfailing(reqs)
    ensures AllUnfailing(reqs[..|reqs| - 1]) && Unfailing(reqs[|reqs| - 1])
  {
    var init := reqs[..|reqs| - 1];
    assert forall i :: 0 <= i < |init| ==> init[i] == reqs[i];
  }

  /** The state after the requests `reqs`, made one after another. */
  function AfterRequests(st: Snapshot, cfg: Config, reqs: seq<Request>): Snapshot
    decreases |reqs|
  {
    if reqs == [] then st
    else
      var last := reqs[|reqs| - 1];
      Attempt(AfterRequests(st, cfg, reqs[..|reqs| - 1]), cfg, last.body, last.failures).st
  }

  /** The registry holds exactly the first k allocated ids and its subscriptions are well formed. */
  predicate HoldsAllocations(st: Snapshot, k: nat)
  {
    DeviceIds(st.devices) == Allocations(k) && CheckSubscriptions(st.subscriptions, EntityType) != Malformed
  }

  /** The device stage, whatever fails, leaves the first k allocations or the first k + 1. */
  lemma DeviceStageAllocates(st: Snapshot, device: Body, failures: Failures, k: nat)
    requires DeviceIds(st.devices) == Allocations(k)
    ensures var ids := DeviceIds(DeviceStage(st, device, failures).st.devices);
      ids == (if ListDevices !in failures && CreateDevice !in failures then Allocations(k + 1) else Allocations(k))
  {
    DeviceStageEffects(st, device, failures);
    if ListDevices !in failures && CreateDevice !in failures {
      IdsAfterAppend(st.devices, DeviceStage(st, device, failures).st.devices, NewDeviceId(st), Get(device, "id"));
      assert Allocations(k + 1) == Allocations(k) + [NextDeviceId(Allocations(k))];
    }
  }

  /**
   * Whatever fails, a request on a registry holding the first k allocations
   * leaves the first k, or the first k + 1 when its device was created: a
   * device kept after a failed push does not make the next id a reused one.
   */
  lemma AttemptAllocates(st: Snapshot, cfg: Config, body: Body, failures: Failures, k: nat)
    requires DeviceIds(st.devices) == Allocations(k)
    ensures var ids := DeviceIds(Attempt(st, cfg, body, failures).st.devices);
      ids == Allocations(k) || ids == Allocations(k + 1)
  {
    if |MissingProperties(body)| == 0 {
      var g := GroupStage(st, cfg, failures);
      GroupStageFacts(st, cfg, failures);
      if g.fault.None? {
        var device := WithDefaults(body);
        DeviceStageAllocates(g.st, device, failures, k);
        var d := DeviceStage(g.st, device, failures);
        if d.fault.None? {
          SubscriptionStageFacts(d.st, cfg, failures);
        }
      }
    }
  }

  /** Whatever fails, a request keeps a well-formed subscription list well formed. */
  lemma AttemptKeepsSubscriptions(st: Snapshot, cfg: Config, body: Body, failures: Failures)
    requires CheckSubscriptions(st.subscriptions, EntityType) != Malformed
    ensures CheckSubscriptions(Attempt(st, cfg, body, failures).st.subscriptions, EntityType) != Malformed
  {
    if |MissingProperties(body)| == 0 {
      var g := GroupStage(st, cfg, failures);
      GroupStageFacts(st, cfg, failures);
      if g.fault.None? {
        var device := WithDefaults(body);
        var d := DeviceStage(g.st, device, failures);
        DeviceStageEffects(g.st, device, failures);
        if d.fault.None? {
          SubscriptionStageKeeps(d.st, cfg, failures);
        }
      }
    }
  }

  /** The subscription stage, whatever fails, keeps a well-formed list well formed. */
  lemma SubscriptionStageKeeps(st: Snapshot, cfg: Config, failures: Failures)
    requires CheckSubscriptions(st.subscriptions, EntityType) != Malformed
    ensures CheckSubscriptions(SubscriptionStage(st, cfg, failures).st.subscriptions, EntityType) != Malformed
  {
    SubscriptionStageFacts(st, cfg, failures);
    CreatedSubscriptionIsFound(cfg, st.subscriptions);
  }

  /** `HoldsAllocations` is kept by every request, failed or not, moving from k to k or to k + 1. */
  lemma AttemptKeepsAllocations(st: Snapshot, cfg: Config, body: Body, failures: Failures, k: nat)
    requires HoldsAllocations(st, k)
    ensures var r := Attempt(st, cfg, body, failures).st;
      HoldsAllocations(r, k) || HoldsAllocations(r, k + 1)
  {
    AttemptAllocates(st, cfg, body, failures, k);
    AttemptKeepsSubscriptions(st, cfg, body, failures);
  }

  /**
   * Requests made one after another on a registry with no devices, each
   * with any body and any failing calls, leave a registry whose ids are
   * the first allocations, at most one per request.
   */
  lemma {:induction false} RequestsKeepAllocations(st: Snapshot, cfg: Config, reqs: seq<Request>)
    requires DeviceIds(st.devices) == []
    ensures var ids := DeviceIds(AfterRequests(st, cfg, reqs).devices);
      ids == Allocations(|ids|) && |ids| <= |reqs|
    decreases |reqs|
  {
    if reqs != [] {
      RequestsKeepAllocations(st, cfg, reqs[..|reqs| - 1]);
      LastRequestKeeps(st, cfg, reqs);
    }
  }

  /** The last of several requests, whatever fails, keeps the ids those before it left as allocations. */
  lemma LastRequestKeeps(st: Snapshot, cfg: Config, reqs: seq<Request>)
    requires reqs != []
    requires var ids := DeviceIds(AfterRequests(st, cfg, reqs[..|reqs| - 1]).devices);
      ids == Allocations(|ids|) && |ids| <= |reqs| - 1
    ensures var ids := DeviceIds(AfterRequests(st, cfg, reqs).devices);
      ids == Allocations(|ids|) && |ids| <= |reqs|
  {
    var mid := AfterRequests(st, cfg, reqs[..|reqs| - 1]);
    var last := reqs[|reqs| - 1];
    AttemptAllocates(mid, cfg, last.body, last.failures, |DeviceIds(mid.devices)|);
  }

  /**
   * Unfailing requests made one after another on a registry with no
   * devices leave exactly the first |reqs| allocations.
   */
  lemma {:induction false} RequestsAllocate(st: Snapshot, cfg: Config, reqs: seq<Request>)
    requires HoldsAllocations(st, 0) && AllUnfailing(reqs)
    ensures HoldsAllocations(AfterRequests(st, cfg, reqs), |reqs|)
    decreases |reqs|
  {
    if reqs != [] {
      AllUnfailingInit(reqs);
      RequestsAllocate(st, cfg, reqs[..|reqs| - 1]);
      LastRequestAllocates(st, cfg, reqs);
    }
  }

  /** The last of several unfailing requests takes the allocation after those of the requests before it. */
  lemma LastRequestAllocates(st: Snapshot, cfg: Config, reqs: seq<Request>)
    requires reqs != []
    requires HoldsAllocations(AfterRequests(st, cfg, reqs[..|reqs| - 1]), |reqs| - 1)
    requires Unfailing(reqs[|reqs| - 1])
    ensures HoldsAllocations(AfterRequests(st, cfg, reqs), |reqs|)
  {
    RequestAllocates(AfterRequests(st, cfg, reqs[..|reqs| - 1]), cfg, reqs[|reqs| - 1].body, |reqs| - 1);
  }

  /** One request carrying both coordinates, with no failing call, takes the next allocation. */
  lemma RequestAllocates(st: Snapshot, cfg: Config, body: Body, k: nat)
    requires HoldsAllocations(st, k)
    requires |MissingProperties(body)| == 0
    ensures HoldsAllocations(Attempt(st, cfg, body, map[]).st, k + 1)
  {
    SuccessIff(st, cfg, body, map[]);
    AllocationsAfterSuccess(st, cfg, body, map[], k);
    ChecksAfterSuccess(st, cfg, body, map[]);
  }

  /**
   * Requests made one after another from a registry with no devices never
   * reuse an id, whatever fails; when every request is unfailing and the
   * subscriptions are well formed, each one adds a device.
   */
  lemma RequestsAllocateDistinct(st: Snapshot, cfg: Config, reqs: seq<Request>)
    requires DeviceIds(st.devices) == []
    ensures var ids := DeviceIds(AfterRequests(st, cfg, reqs).devices);
      |ids| <= |reqs| && forall i, j :: 0 <= i < j < |ids| ==> ids[i] != ids[j]
    ensures CheckSubscriptions(st.subscriptions, EntityType) != Malformed && AllUnfailing(reqs)
      ==> |DeviceIds(AfterRequests(st, cfg, reqs).devices)| == |reqs|
  {
    RequestsKeepAllocations(st, cfg, reqs);
    AllocationsDistinct(|DeviceIds(AfterRequests(st, cfg, reqs).devices)|);
    if CheckSubscriptions(st.subscriptions, EntityType) != Malformed && AllUnfailing(reqs) {
      RequestsAllocate(st, cfg, reqs);
    }
  }
}

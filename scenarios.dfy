/**
 * Two end-to-end runs of `POST /devices` with every downstream call
 * succeeding: the first request against an empty registry, and a request
 * against a registry that already holds a group, a subscription and device
 * `Mobile00000007`.
 */
module Scenarios {
  import opened Wrappers
  import opened JsValue
  import opened Validation
  import opened DeviceId
  import opened Payloads
  import opened Ensure
  import opened Provisioning
  import opened HandlerProperties

  const NoFailures: Failures := map[]

  const EmptyRegistry: Snapshot := Snapshot([], [], [], [], [])

  lemma AnonymousConfirmation()
    ensures ConfirmationPrefix + Anonymous == "A device was successfully created. ID: anonymous"
  {
  }

  lemma SucceedsWithoutFailures(st: Snapshot, cfg: Config, body: Body)
    requires Truthy(Get(body, "latitude")) && Truthy(Get(body, "longitude"))
    requires CheckSubscriptions(st.subscriptions, EntityType) != Malformed
    ensures Attempt(st, cfg, body, NoFailures).fault.None?
  {
    MissingPropertiesExactly(body);
    SuccessIff(st, cfg, body, NoFailures);
  }

  /**
   * The first registration, `{latitude: 40.4, longitude: -3.7}` without an
   * id, creates one group, device `Mobile00000001`, one sample and one
   * subscription, and is confirmed for "anonymous".
   */
  lemma FirstRegistration(cfg: Config, body: Body)
    requires body == map["latitude" := Num(40.4, "40.4"), "longitude" := Num(-3.7, "-3.7")]
    ensures var r := Provision(EmptyRegistry, cfg, body, NoFailures);
      && r.1 == Response(200, Confirmation("A device was successfully created. ID: anonymous"))
      && r.0.groups == ServicesPayload(cfg, EntityType).services
      && r.0.devices == DevicesPayload("Mobile00000001", EntityType, Str("anonymous")).devices
      && r.0.measurements == [Measurement("Mobile00000001", Reading(Num(40.4, "40.4"), Num(-3.7, "-3.7")))]
      && r.0.subscriptions == [SubscriptionPayload(cfg, EntityType)]
      && Steps(r.0.log)
         == [ListServices, CreateService, ListDevices, CreateDevice, PushMeasurement, ListSubscriptions, CreateSubscription]
  {
    assert Get(body, "latitude") == Num(40.4, "40.4") && Get(body, "longitude") == Num(-3.7, "-3.7");
    assert Get(body, "id") == Undefined;
    FirstRegistrationRecords(EmptyRegistry, cfg, body);
    FirstRegistrationSingletons(EmptyRegistry, cfg, body);
    FirstRegistrationCalls(EmptyRegistry, cfg, body);
  }

  lemma FirstRegistrationRecords(st: Snapshot, cfg: Config, body: Body)
    requires st == EmptyRegistry
    requires Get(body, "latitude") == Num(40.4, "40.4") && Get(body, "longitude") == Num(-3.7, "-3.7")
    requires Get(body, "id") == Undefined
    ensures var r := Provision(st, cfg, body, NoFailures);
      && r.1 == Response(200, Confirmation("A device was successfully created. ID: anonymous"))
      && r.0.devices == DevicesPayload("Mobile00000001", EntityType, Str("anonymous")).devices
      && r.0.measurements == [Measurement("Mobile00000001", Reading(Num(40.4, "40.4"), Num(-3.7, "-3.7")))]
  {
    SucceedsWithoutFailures(st, cfg, body);
    SuccessfulRegistration(st, cfg, body, NoFailures);
    assert CallerId(body) == Str("anonymous");
    assert NewDeviceId(st) == Seed;
    AnonymousConfirmation();
  }

  lemma FirstRegistrationSingletons(st: Snapshot, cfg: Config, body: Body)
    requires st == EmptyRegistry
    requires Truthy(Get(body, "latitude")) && Truthy(Get(body, "longitude"))
    ensures var r := Provision(st, cfg, body, NoFailures).0;
      && r.groups == ServicesPayload(cfg, EntityType).services
      && r.subscriptions == [SubscriptionPayload(cfg, EntityType)]
  {
    assert CheckSubscriptions(st.subscriptions, EntityType) == Missing;
    SucceedsWithoutFailures(st, cfg, body);
    var g := GroupStage(st, cfg, NoFailures);
    GroupStageFacts(st, cfg, NoFailures);
    var d := DeviceStage(g.st, WithDefaults(body), NoFailures);
    DeviceStageFacts(g.st, WithDefaults(body), NoFailures);
    SubscriptionStageFacts(d.st, cfg, NoFailures);
  }

  lemma FirstRegistrationCalls(st: Snapshot, cfg: Config, body: Body)
    requires st == EmptyRegistry
    requires Truthy(Get(body, "latitude")) && Truthy(Get(body, "longitude"))
    ensures Steps(Provision(st, cfg, body, NoFailures).0.log)
         == [ListServices, CreateService, ListDevices, CreateDevice, PushMeasurement, ListSubscriptions, CreateSubscription]
  {
    EmptyRegistryPlan();
    SucceedsWithoutFailures(st, cfg, body);
    SuccessMakesPlannedCalls(st, cfg, body, NoFailures);
    var r := Attempt(st, cfg, body, NoFailures).st;
    assert NewCalls(st, r) == r.log;
  }

  /** On an empty registry and broker every call of the handler is planned. */
  lemma EmptyRegistryPlan()
    ensures PlanFor(EmptyRegistry)
         == [ListServices, CreateService, ListDevices, CreateDevice, PushMeasurement, ListSubscriptions, CreateSubscription]
  {
    assert NeedsGroup([], EntityType);
    assert CheckSubscriptions([], EntityType) == Missing;
  }

  /**
   * With the group and the subscription already in place and `Mobile00000007`
   * listed last, a registration creates exactly device `Mobile00000008` and
   * pushes one sample: no group or subscription is posted.
   */
  lemma RegistrationAfterSeven(st: Snapshot, cfg: Config, body: Body)
    requires !NeedsGroup(st.groups, EntityType)
    requires CheckSubscriptions(st.subscriptions, EntityType) == Present
    requires |st.devices| > 0 && st.devices[|st.devices| - 1].deviceId == "Mobile00000007"
    requires Truthy(Get(body, "latitude")) && Truthy(Get(body, "longitude"))
    ensures var r := Provision(st, cfg, body, NoFailures);
      && r.1 == Response(200, Confirmation(ConfirmationPrefix + Render(CallerId(body))))
      && st.log <= r.0.log
      && Steps(NewCalls(st, r.0)) == [ListServices, ListDevices, CreateDevice, PushMeasurement, ListSubscriptions]
      && r.0.devices == st.devices + DevicesPayload("Mobile00000008", EntityType, CallerId(body)).devices
      && r.0.groups == st.groups && r.0.subscriptions == st.subscriptions
  {
    SucceedsWithoutFailures(st, cfg, body);
    SuccessfulRegistration(st, cfg, body, NoFailures);
    SuccessMakesPlannedCalls(st, cfg, body, NoFailures);
    PlanWhenPresent(st);
    EighthId(st);
    var g := GroupStage(st, cfg, NoFailures);
    GroupStageFacts(st, cfg, NoFailures);
    var d := DeviceStage(g.st, WithDefaults(body), NoFailures);
    DeviceStageFacts(g.st, WithDefaults(body), NoFailures);
    SubscriptionStageFacts(d.st, cfg, NoFailures);
  }

  /** With `Mobile00000007` listed last, the next device is `Mobile00000008`. */
  lemma EighthId(st: Snapshot)
    requires |st.devices| > 0 && st.devices[|st.devices| - 1].deviceId == "Mobile00000007"
    ensures NewDeviceId(st) == "Mobile00000008"
  {
    var ids := DeviceIds(st.devices);
    assert ids[|ids| - 1] == "Mobile00000007";
    ExampleSevenToEight();
    assert NextDeviceId(ids) == Successor("Mobile00000007") == NextDeviceId(["Mobile00000007"]);
  }
}

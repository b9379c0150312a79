/**
 * The `POST /devices` handler as a sequence of downstream calls over an
 * abstract registry and broker. The outcome of every call is given by an
 * oracle: the steps listed in `failures` fail (with the status of the error,
 * if it has one), every other step succeeds. A listing returns what the state
 * holds; a successful creation appends to it; a failed call changes nothing
 * but is still logged. The first failure ends the request, and nothing done
 * before it is undone.
 */
module Provisioning {
  import opened Wrappers
  import opened JsValue
  import opened Validation
  import opened DeviceId
  import opened Payloads
  import opened Ensure

  /** The thrown values the `catch` block can see. */
  datatype Fault =
    | MissingFields(message: string)   // `{ success: false, status: 422, message }`
    | Upstream(status: Option<int>)    // a rejected downstream call, with its status when there is one
    | TypeError                        // `entities[0].type` read on a subscription without entities

  /** `err.status`. */
  function StatusOf(f: Fault): Option<int> {
    match f
    case MissingFields(_) => Some(422)
    case Upstream(status) => status
    case TypeError => None
  }

  const UnknownMessage: string := "Unknown server error"
  const ConfirmationPrefix: string := "A device was successfully created. ID: "

  /** The JSON body of a response. */
  datatype ResponseBody =
    | Confirmation(result: string)     // `{ success: true, result }`
    | Echo(fault: Fault)               // the thrown value itself
    | UnknownError(message: string)    // `{ success: false, message }`

  datatype Response = Response(status: int, body: ResponseBody)

  /**
   * The `catch` block: a truthy `err.status` is used as the HTTP status and
   * the error is sent back as it is; anything else is a 500 with a generic
   * message.
   */
  function Respond(f: Fault): (r: Response)
    ensures !r.body.Confirmation?
    ensures r.body.Echo? <==> StatusOf(f).Some? && StatusOf(f).value != 0
    ensures r.body.Echo? ==> r.status == StatusOf(f).value && r.body.fault == f
    ensures !r.body.Echo? ==> r == Response(500, UnknownError(UnknownMessage))
  {
    match StatusOf(f)
    case Some(s) => if s != 0 then Response(s, Echo(f)) else Response(500, UnknownError(UnknownMessage))
    case None => Response(500, UnknownError(UnknownMessage))
  }

  /** The downstream operations, in the order the handler issues them. */
  datatype Step =
    | ListServices | CreateService | ListDevices | CreateDevice
    | PushMeasurement | ListSubscriptions | CreateSubscription

  /** The `{ lat, lon }` sample; `parseFloat` is not modelled, the values pass through. */
  datatype Reading = Reading(lat: JsValue, lon: JsValue)

  /** One downstream call with what it sends. */
  datatype Call =
    | GetServices
    | PostServices(services: ServicesDoc)
    | GetDevices
    | PostDevices(devices: DevicesDoc)
    | PostMeasurement(deviceId: string, reading: Reading)
    | GetSubscriptions
    | PostSubscription(sub: Subscription)

  function StepOf(c: Call): Step {
    match c
    case GetServices => ListServices
    case PostServices(_) => CreateService
    case GetDevices => ListDevices
    case PostDevices(_) => CreateDevice
    case PostMeasurement(_, _) => PushMeasurement
    case GetSubscriptions => ListSubscriptions
    case PostSubscription(_) => CreateSubscription
  }

  /** The outcome oracle: the steps that fail, each with the status of its error. */
  type Failures = map<Step, Option<int>>

  /** A sample the registry has forwarded to the broker. */
  datatype Measurement = Measurement(deviceId: string, reading: Reading)

  /** What the registry and the broker hold, and every call made to them. */
  datatype Snapshot = Snapshot(
    groups: seq<ServiceGroup>,
    devices: seq<DeviceRecord>,
    subscriptions: seq<Subscription>,
    measurements: seq<Measurement>,
    log: seq<Call>)

  /** The state after a stage, and the fault that ended it, if any. */
  datatype Stage = Stage(st: Snapshot, fault: Option<Fault>)

  /** What a successful call changes downstream. */
  function Effect(st: Snapshot, c: Call): Snapshot {
    match c
    case PostServices(doc) => st.(groups := st.groups + doc.services)
    case PostDevices(doc) => st.(devices := st.devices + doc.devices)
    case PostMeasurement(id, reading) => st.(measurements := st.measurements + [Measurement(id, reading)])
    case PostSubscription(sub) => st.(subscriptions := st.subscriptions + [sub])
    case _ => st
  }

  /** One awaited call: logged, and applied unless the oracle fails it. */
  function Perform(st: Snapshot, c: Call, failures: Failures): Stage {
    var logged := st.(log := st.log + [c]);
    if StepOf(c) in failures then Stage(logged, Some(Upstream(failures[StepOf(c)])))
    else Stage(Effect(logged, c), None)
  }

  /** List the groups; create the group for the entity type if none has it. */
  function GroupStage(st: Snapshot, cfg: Config, failures: Failures): Stage {
    var listed := Perform(st, GetServices, failures);
    if listed.fault.Some? then listed
    else if NeedsGroup(st.groups, EntityType) then
      Perform(listed.st, PostServices(ServicesPayload(cfg, EntityType)), failures)
    else listed
  }

  /** The id the next device gets, from the devices the registry lists. */
  function NewDeviceId(st: Snapshot): string {
    NextDeviceId(DeviceIds(st.devices))
  }

  /** List the devices, create the next one, and push its first sample. */
  function DeviceStage(st: Snapshot, device: Body, failures: Failures): Stage {
    var listed := Perform(st, GetDevices, failures);
    if listed.fault.Some? then listed
    else
      var newId := NewDeviceId(st);
      var created := Perform(listed.st, PostDevices(DevicesPayload(newId, EntityType, Get(device, "id"))), failures);
      if created.fault.Some? then created
      else Perform(created.st, PostMeasurement(newId, Reading(Get(device, "latitude"), Get(device, "longitude"))), failures)
  }

  /** List the subscriptions; create the one for the entity type if none has it. */
  function SubscriptionStage(st: Snapshot, cfg: Config, failures: Failures): Stage {
    var listed := Perform(st, GetSubscriptions, failures);
    if listed.fault.Some? then listed
    else match CheckSubscriptions(st.subscriptions, EntityType)
      case Malformed => Stage(listed.st, Some(TypeError))
      case Present => listed
      case Missing => Perform(listed.st, PostSubscription(SubscriptionPayload(cfg, EntityType)), failures)
  }

  /** The response to a request that got through every stage. */
  function Confirm(device: Body): Response {
    Response(200, Confirmation(ConfirmationPrefix + Render(Get(device, "id"))))
  }

  /**
   * The `try` block: validation, then the three stages in order, stopping at
   * the first thrown fault. Returns the downstream state reached and that
   * fault (None when every stage completed).
   */
  function Attempt(st: Snapshot, cfg: Config, body: Body, failures: Failures): Stage {
    var missing := MissingProperties(body);
    if |missing| > 0 then Stage(st, Some(MissingFields(MissingMessage(missing))))
    else RunStages(st, cfg, WithDefaults(body), failures)
  }

  /** The three stages for a validated, defaulted request. */
  function RunStages(st: Snapshot, cfg: Config, device: Body, failures: Failures): Stage {
    var g := GroupStage(st, cfg, failures);
    if g.fault.Some? then g else RegisterAndSubscribe(g.st, cfg, device, failures)
  }

  /** The device stage and, if it completes, the subscription stage. */
  function RegisterAndSubscribe(st: Snapshot, cfg: Config, device: Body, failures: Failures): Stage {
    var d := DeviceStage(st, device, failures);
    if d.fault.Some? then d else SubscriptionStage(d.st, cfg, failures)
  }

  /** The whole handler: the downstream state it leaves and the response it sends. */
  function Provision(st: Snapshot, cfg: Config, body: Body, failures: Failures): (Snapshot, Response) {
    var a := Attempt(st, cfg, body, failures);
    (a.st, if a.fault.None? then Confirm(WithDefaults(body)) else Respond(a.fault.value))
  }

  /** The registry and the broker as the handler sees them, changed call by call. */
  class Downstream {
    var groups: seq<ServiceGroup>
    var devices: seq<DeviceRecord>
    var subscriptions: seq<Subscription>
    var measurements: seq<Measurement>
    var log: seq<Call>

    function State(): Snapshot
      reads this
    {
      Snapshot(groups, devices, subscriptions, measurements, log)
    }

    constructor (initial: Snapshot)
      ensures State() == initial
    {
      groups := initial.groups;
      devices := initial.devices;
      subscriptions := initial.subscriptions;
      measurements := initial.measurements;
      log := initial.log;
    }

    /** Issue one call and wait for it. */
    method Send(c: Call, failures: Failures) returns (fault: Option<Fault>)
      modifies this
      ensures Stage(State(), fault) == Perform(old(State()), c, failures)
    {
      log := log + [c];
      if StepOf(c) in failures {
        fault := Some(Upstream(failures[StepOf(c)]));
        return;
      }
      fault := None;
      match c {
        case PostServices(doc) => groups := groups + doc.services;
        case PostDevices(doc) => devices := devices + doc.devices;
        case PostMeasurement(id, reading) => measurements := measurements + [Measurement(id, reading)];
        case PostSubscription(sub) => subscriptions := subscriptions + [sub];
        case _ =>
      }
    }

    method EnsureGroup(cfg: Config, failures: Failures) returns (fault: Option<Fault>)
      modifies this
      ensures Stage(State(), fault) == GroupStage(old(State()), cfg, failures)
    {
      var servicesData := groups;
      fault := Send(GetServices, failures);
      if fault.Some? {
        return;
      }
      if NeedsGroup(servicesData, EntityType) {
        fault := Send(PostServices(ServicesPayload(cfg, EntityType)), failures);
      }
    }

    method RegisterDevice(device: Body, failures: Failures) returns (fault: Option<Fault>)
      modifies this
      ensures Stage(State(), fault) == DeviceStage(old(State()), device, failures)
    {
      var devicesData := devices;
      fault := Send(GetDevices, failures);
      if fault.Some? {
        return;
      }
      var newDeviceId := NextDeviceId(DeviceIds(devicesData));
      fault := Send(PostDevices(DevicesPayload(newDeviceId, EntityType, Get(device, "id"))), failures);
      if fault.Some? {
        return;
      }
      fault := Send(PostMeasurement(newDeviceId, Reading(Get(device, "latitude"), Get(device, "longitude"))), failures);
    }

    method EnsureSubscription(cfg: Config, failures: Failures) returns (fault: Option<Fault>)
      modifies this
      ensures Stage(State(), fault) == SubscriptionStage(old(State()), cfg, failures)
    {
      var subscriptionsData := subscriptions;
      fault := Send(GetSubscriptions, failures);
      if fault.Some? {
        return;
      }
      var check := CheckSubscriptions(subscriptionsData, EntityType);
      if check == Malformed {
        fault := Some(TypeError);
      } else if check == Missing {
        fault := Send(PostSubscription(SubscriptionPayload(cfg, EntityType)), failures);
      }
    }

    /**
     * `router.post('/devices', ...)`: the body is checked and updated in
     * place, the stages run in order until one throws, and the `catch` block
     * turns the thrown value into the response.
     */
    method HandlePostDevices(cfg: Config, body: Body, failures: Failures) returns (response: Response)
      modifies this
      ensures (State(), response) == Provision(old(State()), cfg, body, failures)
    {
      var device := body;
      var fault: Option<Fault>;
      var missingProperties := MissingProperties(device);
      if |missingProperties| > 0 {
        fault := Some(MissingFields(MissingMessage(missingProperties)));
      } else {
        if !Truthy(Get(device, "id")) {
          device := device["id" := Str(Anonymous)];
        }
        device := device["entityType" := Str(EntityType)];
        fault := EnsureGroup(cfg, failures);
        if fault.None? {
          fault := RegisterDevice(device, failures);
        }
        if fault.None? {
          fault := EnsureSubscription(cfg, failures);
        }
      }
      if fault.None? {
        response := Confirm(device);
      } else {
        response := Respond(fault.value);
      }
    }
  }
}

/**
 * The request bodies the handler sends downstream, built by `services`,
 * `devices` and `subscription`, and the records the registry and the broker
 * list back (the same shapes). Field names follow the wire names in
 * camel case.
 */
module Payloads {
  import opened Wrappers
  import opened JsValue
  import DeviceId

  /** The deployment settings the builders read from the environment. */
  datatype Config = Config(
    apiKey: string,
    orionHost: string,
    orionPort: string,
    quantumLeapHost: string,
    quantumLeapPort: string)

  /** A device group (`entity_type`, `apikey`, `cbroker`, `resource`). */
  datatype ServiceGroup = ServiceGroup(apiKey: string, cbroker: string, entityType: string, resource: string)

  /** The body `{ services: [...] }`. */
  datatype ServicesDoc = ServicesDoc(services: seq<ServiceGroup>)

  /** An active attribute: wire object id, attribute name, type. */
  datatype Attribute = Attribute(objectId: string, name: string, attrType: string)

  /** A static attribute with the value it always carries. */
  datatype StaticAttribute = StaticAttribute(name: string, attrType: string, value: JsValue)

  /** A device record of the registry. */
  datatype DeviceRecord = DeviceRecord(
    deviceId: string,
    entityName: string,
    entityType: string,
    protocol: string,
    transport: string,
    attributes: seq<Attribute>,
    staticAttributes: seq<StaticAttribute>)

  /** The body `{ devices: [...] }`. */
  datatype DevicesDoc = DevicesDoc(devices: seq<DeviceRecord>)

  /** One entry of `subject.entities`; the type may be absent (a pattern-only selector). */
  datatype EntitySelector = EntitySelector(idPattern: string, entityType: Option<string>)

  datatype Notification = Notification(attrs: seq<string>, url: string)

  datatype Subject = Subject(conditionAttrs: seq<string>, entities: seq<EntitySelector>)

  /** A subscription of the broker. */
  datatype Subscription = Subscription(
    description: string,
    notification: Notification,
    subject: Subject,
    throttling: int)

  /** `entityTypes`: the attributes each supported entity type reports. */
  const EntityTypes: map<string, seq<string>> := map["Mobile" := ["latitude", "longitude"]]

  const IngestionResource: string := "/iot/json"
  const ReceivedIdName: string := "received_id"

  /** The broker entity a device feeds: `urn-ngsi:<type>:<device id>`. */
  function EntityName(entityType: string, deviceId: string): string {
    "urn-ngsi:" + entityType + ":" + deviceId
  }

  /** The `device_id`s of a device list, in the registry's order. */
  function DeviceIds(devices: seq<DeviceRecord>): (ids: seq<string>)
    ensures |ids| == |devices|
    ensures forall i :: 0 <= i < |devices| ==> ids[i] == devices[i].deviceId
  {
    if devices == [] then [] else [devices[0].deviceId] + DeviceIds(devices[1..])
  }

  /** `services(entityType)`: the group binding the entity type to the JSON ingestion route. */
  function ServicesPayload(cfg: Config, entityType: string): (doc: ServicesDoc)
    ensures |doc.services| == 1
    ensures doc.services[0].entityType == entityType
    ensures doc.services[0].apiKey == cfg.apiKey && doc.services[0].resource == IngestionResource
  {
    ServicesDoc([ServiceGroup(cfg.apiKey, "http://" + cfg.orionHost + ":" + cfg.orionPort, entityType, IngestionResource)])
  }

  /** `devices(newDeviceId, entityType, id)`: one device record. */
  function DevicesPayload(newId: string, entityType: string, id: JsValue): (doc: DevicesDoc)
    ensures |doc.devices| == 1
    ensures doc.devices[0].deviceId == newId && doc.devices[0].entityType == entityType
    ensures doc.devices[0].entityName == EntityName(entityType, newId)
    ensures doc.devices[0].staticAttributes == [StaticAttribute(ReceivedIdName, "String", id)]
  {
    DevicesDoc([DeviceRecord(
      newId,
      EntityName(entityType, newId),
      entityType,
      "PDI-IoTA-JSON",
      "HTTP",
      [Attribute("lat", "latitude", "Float"), Attribute("lon", "longitude", "Float")],
      [StaticAttribute(ReceivedIdName, "String", id)])])
  }

  /** The attribute names a device record declares, in order. */
  function AttributeNames(attrs: seq<Attribute>): (names: seq<string>)
    ensures |names| == |attrs|
  {
    if attrs == [] then [] else [attrs[0].name] + AttributeNames(attrs[1..])
  }

  /**
   * `subscription(entityType)`. The lookup `entityTypes[entityType]` fails for
   * an unknown type, so the type must be one of EntityTypes. The id pattern is
   * the template literal `^${entityType}\d+`, in which `\d` stands for `d`.
   */
  function SubscriptionPayload(cfg: Config, entityType: string): (s: Subscription)
    requires entityType in EntityTypes
    ensures s.notification.attrs == s.subject.conditionAttrs == EntityTypes[entityType]
    ensures s.throttling == 1
    ensures |s.subject.entities| == 1 && s.subject.entities[0].entityType == Some(entityType)
  {
    Subscription(
      "Notify updates from " + entityType + " devices",
      Notification(EntityTypes[entityType], "http://" + cfg.quantumLeapHost + ":" + cfg.quantumLeapPort + "/v2/notify"),
      Subject(EntityTypes[entityType], [EntitySelector("^" + entityType + "d+", Some(entityType))]),
      1)
  }

  /** Distinct device ids of one type feed distinct broker entities. */
  lemma EntityNameInjective(entityType: string, a: string, b: string)
    requires EntityName(entityType, a) == EntityName(entityType, b)
    ensures a == b
  {
    var p := "urn-ngsi:" + entityType + ":";
    assert EntityName(entityType, a) == p + a;
    assert EntityName(entityType, b) == p + b;
    assert a == (p + a)[|p|..];
    assert b == (p + b)[|p|..];
  }

  /**
   * The attributes a new device declares are exactly the attributes the
   * subscription for its type watches and forwards.
   */
  lemma DeviceSchemaMatchesSubscription(cfg: Config, newId: string, id: JsValue)
    ensures AttributeNames(DevicesPayload(newId, "Mobile", id).devices[0].attributes)
         == SubscriptionPayload(cfg, "Mobile").subject.conditionAttrs
         == SubscriptionPayload(cfg, "Mobile").notification.attrs
  {
    var attrs := DevicesPayload(newId, "Mobile", id).devices[0].attributes;
    assert attrs[1..][1..] == [];
  }

  /** The id pattern sent for the Mobile type is the literal text `^Mobiled+`, with no backslash. */
  lemma MobileIdPattern(cfg: Config)
    ensures SubscriptionPayload(cfg, "Mobile").subject.entities[0].idPattern == "^Mobiled+"
    ensures '\\' !in SubscriptionPayload(cfg, "Mobile").subject.entities[0].idPattern
  {
  }

  /**
   * `text` matches the regular expression `^<lit><c>+`: it starts with
   * `lit` followed by at least one `c`.
   */
  predicate MatchesLiteralThenRun(lit: string, c: char, text: string) {
    |text| > |lit| && text[..|lit|] == lit && text[|lit|] == c
  }

  /**
   * `^Mobiled+` matches neither a Mobile device id that carries a counter
   * nor the entity name built from it: right after `Mobile` an id has a
   * digit, not a `d`, and an entity name starts with `urn-ngsi:`.
   */
  lemma IdPatternMatchesNoAllocatedId(id: string)
    requires DeviceId.Prefix(id) == "Mobile" && DeviceId.Counter(id).Some?
    ensures !MatchesLiteralThenRun("Mobile", 'd', id)
    ensures !MatchesLiteralThenRun("Mobile", 'd', EntityName("Mobile", id))
  {
    var i := DeviceId.TrailingDigitsStart(id);
    assert |id[..i]| == |"Mobile"| == 6;
    assert id[i..][0] == id[6];
    assert DeviceId.IsDigit(id[6]);
    assert EntityName("Mobile", id)[0] == 'u';
  }
}

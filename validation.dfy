/**
 * The first stage of `POST /devices`: rejecting a body that lacks a
 * coordinate, building the 422 error message, and filling in the defaults
 * the rest of the handler relies on.
 */
module Validation {
  import opened JsValue

  /** The properties a request must carry, in the order they are checked. */
  const RequiredProperties: seq<string> := ["latitude", "longitude"]

  /** The caller id used when the request carries none. */
  const Anonymous: string := "anonymous"

  /** The entity type every request is forced to. */
  const EntityType: string := "Mobile"

  const MessagePrefix: string := "Missing properties: "

  /** `keys.filter(key => !body[key])`: the keys whose value is falsy, in order. */
  function FilterFalsy(keys: seq<string>, body: Body): (r: seq<string>)
    ensures forall k :: k in r <==> k in keys && !Truthy(Get(body, k))
    ensures |r| <= |keys|
    ensures r == [] <==> forall k :: k in keys ==> Truthy(Get(body, k))
  {
    if keys == [] then []
    else (if Truthy(Get(body, keys[0])) then [] else [keys[0]]) + FilterFalsy(keys[1..], body)
  }

  /** The required properties the body lacks: absent or falsy (so 0 and "" count as missing). */
  function MissingProperties(body: Body): (r: seq<string>)
    ensures forall k :: k in r <==> k in RequiredProperties && !Truthy(Get(body, k))
    ensures r == [] <==> Truthy(Get(body, "latitude")) && Truthy(Get(body, "longitude"))
  {
    FilterFalsy(RequiredProperties, body)
  }

  /** Exactly the falsy coordinates, latitude before longitude. */
  lemma MissingPropertiesExactly(body: Body)
    ensures MissingProperties(body)
         == (if Truthy(Get(body, "latitude")) then [] else ["latitude"])
          + (if Truthy(Get(body, "longitude")) then [] else ["longitude"])
  {
    var r := RequiredProperties;
    assert r[1..][1..] == [];
  }

  /** `Array.prototype.join(sep)` over strings (also what `toString` does, with ","). */
  function Join(names: seq<string>, sep: string): string {
    if |names| == 0 then ""
    else if |names| == 1 then names[0]
    else names[0] + sep + Join(names[1..], sep)
  }

  /** `s.replace(/,/g, ', ')`: every comma followed by a space. */
  function ReplaceCommas(s: string): (r: string)
    ensures |r| >= |s|
  {
    if s == "" then ""
    else (if s[0] == ',' then ", " else [s[0]]) + ReplaceCommas(s[1..])
  }

  /** The message of the 422 error for the given missing properties. */
  function MissingMessage(missing: seq<string>): (r: string)
    ensures (forall n :: n in missing ==> ',' !in n) ==> r == MessagePrefix + Join(missing, ", ")
  {
    var m := MessagePrefix + ReplaceCommas(Join(missing, ","));
    if forall n :: n in missing ==> ',' !in n then
      WidenedJoin(missing);
      m
    else
      m
  }

  lemma {:induction false} ReplaceCommasAppend(a: string, b: string)
    ensures ReplaceCommas(a + b) == ReplaceCommas(a) + ReplaceCommas(b)
    decreases |a|
  {
    if a != "" {
      assert (a + b)[1..] == a[1..] + b;
      ReplaceCommasAppend(a[1..], b);
    } else {
      assert a + b == b;
    }
  }

  lemma {:induction false} ReplaceCommasWithoutCommas(s: string)
    requires ',' !in s
    ensures ReplaceCommas(s) == s
    decreases |s|
  {
    if s != "" {
      assert s[0] in s;
      assert forall c :: c in s[1..] ==> c in s;
      ReplaceCommasWithoutCommas(s[1..]);
      assert [s[0]] + s[1..] == s;
    }
  }

  /**
   * Joining with "," and then widening every comma gives the names joined
   * with ", ", as long as no name contains a comma itself.
   */
  lemma {:induction false} WidenedJoin(names: seq<string>)
    requires forall n :: n in names ==> ',' !in n
    ensures ReplaceCommas(Join(names, ",")) == Join(names, ", ")
    decreases |names|
  {
    if |names| == 1 {
      ReplaceCommasWithoutCommas(names[0]);
    } else if |names| > 1 {
      assert names[0] in names;
      assert forall n :: n in names[1..] ==> n in names;
      ReplaceCommasAppend(names[0] + ",", Join(names[1..], ","));
      ReplaceCommasAppend(names[0], ",");
      ReplaceCommasWithoutCommas(names[0]);
      assert ReplaceCommas(",") == ", ";
      WidenedJoin(names[1..]);
    }
  }

  /** The 422 message lists the missing properties separated by ", ". */
  lemma MissingMessageLists(body: Body)
    ensures MissingMessage(MissingProperties(body)) == MessagePrefix + Join(MissingProperties(body), ", ")
  {
    var m := MissingProperties(body);
    forall n | n in m ensures ',' !in n {
      assert n in RequiredProperties;
    }
    WidenedJoin(m);
  }

  /** A body with neither coordinate is answered with both names. */
  lemma BothMissingMessage(body: Body)
    requires !Truthy(Get(body, "latitude")) && !Truthy(Get(body, "longitude"))
    ensures MissingMessage(MissingProperties(body)) == "Missing properties: latitude, longitude"
  {
    MissingPropertiesExactly(body);
    MissingMessageLists(body);
  }

  /**
   * The body after `if (!device.id) device.id = 'anonymous'` and
   * `device.entityType = 'Mobile'`.
   */
  function WithDefaults(body: Body): (r: Body)
    ensures Get(r, "id") == (if Truthy(Get(body, "id")) then Get(body, "id") else Str(Anonymous))
    ensures Truthy(Get(r, "id"))
    ensures Get(r, "entityType") == Str(EntityType)
    ensures forall k :: k != "id" && k != "entityType" ==> Get(r, k) == Get(body, k)
    ensures r.Keys == body.Keys + {"id", "entityType"}
  {
    var withId := if Truthy(Get(body, "id")) then body else body["id" := Str(Anonymous)];
    withId["entityType" := Str(EntityType)]
  }

  /** The caller id the handler carries forward: the request's own id, or "anonymous". */
  function CallerId(body: Body): JsValue {
    Get(WithDefaults(body), "id")
  }

  /**
   * The id the confirmation prints: the request's own id as a template
   * literal shows it, or "anonymous" when that id is falsy; a non-empty
   * string id is printed as it is.
   */
  lemma RenderedCallerId(body: Body)
    ensures Render(CallerId(body)) == (if Truthy(Get(body, "id")) then Render(Get(body, "id")) else Anonymous)
    ensures Get(body, "id").Str? && Get(body, "id").s != "" ==> Render(CallerId(body)) == Get(body, "id").s
  {
  }
}

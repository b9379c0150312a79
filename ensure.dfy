/**
 * The two read-then-decide checks of `POST /devices`: whether a device group
 * and whether a subscription for the entity type must be created.
 */
module Ensure {
  import opened Wrappers
  import opened Payloads

  /** `servicesData.filter(service => service.entity_type === entityType)`. */
  function GroupsOfType(groups: seq<ServiceGroup>, entityType: string): (r: seq<ServiceGroup>)
    ensures forall g :: g in r <==> g in groups && g.entityType == entityType
  {
    if groups == [] then []
    else (if groups[0].entityType == entityType then [groups[0]] else []) + GroupsOfType(groups[1..], entityType)
  }

  /** A group is created exactly when the filter above comes back empty. */
  function NeedsGroup(groups: seq<ServiceGroup>, entityType: string): (r: bool)
    ensures r <==> forall g :: g in groups ==> g.entityType != entityType
  {
    var found := GroupsOfType(groups, entityType);
    assert |found| > 0 ==> found[0] in found;
    |found| == 0
  }

  /** What scanning the listed subscriptions decides. */
  datatype SubscriptionCheck =
    | Missing    // no subscription's first entity has the type: create one
    | Present    // one does: create nothing
    | Malformed  // some subscription has no entities: `entities[0].type` throws

  /** `subscription.subject.entities[0].type`, defined when there is a first entity. */
  function FirstEntityType(s: Subscription): Option<string>
    requires |s.subject.entities| > 0
  {
    s.subject.entities[0].entityType
  }

  predicate HasFirstEntity(s: Subscription) {
    |s.subject.entities| > 0
  }

  /**
   * `subscriptions.filter(subscription => subscription.subject.entities[0].type === entityType)`;
   * None when the predicate throws on some element (the filter visits every one).
   */
  function SubscriptionsOfType(subs: seq<Subscription>, entityType: string): (r: Option<seq<Subscription>>)
    ensures r.None? <==> exists s :: s in subs && !HasFirstEntity(s)
    ensures r.Some? ==> forall s :: s in r.value <==> s in subs && FirstEntityType(s) == Some(entityType)
  {
    if subs == [] then Some([])
    else if !HasFirstEntity(subs[0]) then None
    else match SubscriptionsOfType(subs[1..], entityType)
      case None => None
      case Some(rest) => Some((if FirstEntityType(subs[0]) == Some(entityType) then [subs[0]] else []) + rest)
  }

  /** The subscription decision of the handler. */
  function CheckSubscriptions(subs: seq<Subscription>, entityType: string): (r: SubscriptionCheck)
    ensures r == Malformed <==> exists s :: s in subs && !HasFirstEntity(s)
    ensures r == Missing <==>
      (forall s :: s in subs ==> HasFirstEntity(s)) && forall s :: s in subs ==> FirstEntityType(s) != Some(entityType)
  {
    match SubscriptionsOfType(subs, entityType)
    case None => Malformed
    case Some(found) =>
      assert |found| > 0 ==> found[0] in found;
      if |found| == 0 then Missing else Present
  }

  /** After the group the handler posts is stored, no further group is needed: the next request creates none. */
  lemma CreatedGroupIsFound(cfg: Config, groups: seq<ServiceGroup>, entityType: string)
    ensures !NeedsGroup(groups + ServicesPayload(cfg, entityType).services, entityType)
  {
    var g := ServicesPayload(cfg, entityType).services[0];
    assert g in groups + ServicesPayload(cfg, entityType).services;
  }

  /** Adding groups never makes a group needed again. */
  lemma GroupStaysFound(groups: seq<ServiceGroup>, more: seq<ServiceGroup>, entityType: string)
    requires !NeedsGroup(groups, entityType)
    ensures !NeedsGroup(groups + more, entityType)
  {
    var g :| g in groups && g.entityType == entityType;
    assert g in groups + more;
  }

  /**
   * After the subscription the handler posts is stored (to a well-formed
   * list), the check finds it: the next request creates none.
   */
  lemma CreatedSubscriptionIsFound(cfg: Config, subs: seq<Subscription>)
    requires CheckSubscriptions(subs, "Mobile") != Malformed
    ensures CheckSubscriptions(subs + [SubscriptionPayload(cfg, "Mobile")], "Mobile") == Present
  {
    var all := subs + [SubscriptionPayload(cfg, "Mobile")];
    forall s | s in all ensures HasFirstEntity(s) {
      if s in subs {} else {}
    }
    assert SubscriptionPayload(cfg, "Mobile") in all;
  }

  /** Only the first entity counts: a Mobile selector in second place does not prevent a creation. */
  lemma OnlyFirstEntityCounts(cfg: Config)
    ensures var s := Subscription("", Notification([], ""), Subject([],
              [EntitySelector("", Some("Vehicle")), EntitySelector("", Some("Mobile"))]), 1);
      CheckSubscriptions([s], "Mobile") == Missing
  {
  }
}

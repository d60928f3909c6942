/**
 * The addresses the handler constructor derives: the entity path (a topic
 * subscription is addressed below its topic) and the management node
 * that management requests are sent to and answered from.
 */
module Addressing {
  import opened Common

  const SubscriptionsSegment := "/Subscriptions/"

  /** `MANAGEMENT_PATH_SUFFIX` of the library's constants. */
  const ManagementPathSuffix := "/$management"

  /** `_entity_path`: a subscription name that is `None` or empty adds nothing. */
  function EntityPath(entityName: string, subscriptionName: Option<string>): (path: string)
    ensures |path| >= |entityName| && path[..|entityName|] == entityName
    ensures !TruthyString(subscriptionName) ==> path == entityName
    ensures TruthyString(subscriptionName) ==>
      path[|entityName|..] == SubscriptionsSegment + subscriptionName.value
  {
    if TruthyString(subscriptionName) then entityName + SubscriptionsSegment + subscriptionName.value
    else entityName
  }

  /** `_mgmt_target`: the entity path followed by the management suffix. */
  function ManagementTarget(entityPath: string): (target: string)
    ensures |target| == |entityPath| + |ManagementPathSuffix|
    ensures target[..|entityPath|] == entityPath
    ensures target[|entityPath|..] == ManagementPathSuffix
  {
    entityPath + ManagementPathSuffix
  }

  /** Distinct subscriptions of one topic get distinct management nodes. */
  lemma SubscriptionsHaveDistinctTargets(entityName: string, sub1: string, sub2: string)
    requires sub1 != "" && sub2 != "" && sub1 != sub2
    ensures ManagementTarget(EntityPath(entityName, Some(sub1)))
         != ManagementTarget(EntityPath(entityName, Some(sub2)))
  {
    var k := |entityName| + |SubscriptionsSegment|;
    var p1, p2 := EntityPath(entityName, Some(sub1)), EntityPath(entityName, Some(sub2));
    var t1, t2 := ManagementTarget(p1), ManagementTarget(p2);
    // the subscription name can be read back from its management target
    assert p1[k..] == sub1 && p2[k..] == sub2;
    assert t1[k..|p1|] == sub1 && t2[k..|p2|] == sub2;
  }
}

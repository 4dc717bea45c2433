/**
 * The change records the processors return, one per schedule they rewrote
 * (the dictionaries built in lib/processors/autoscaling.py and
 * lib/processors/eventbridge.py).
 */
module Changes {
  import opened Wrappers

  datatype ResourceType = AutoScalingGroupScalingPolicy | EventBridgeRule

  /**
   * `actionName` is the `AdditionalDetails` of a scaling-policy change; an
   * EventBridge change has none.
   */
  datatype Change = Change(
    resourceType: ResourceType,
    resourceName: string,
    resourceArn: string,
    originalRecurrence: string,
    newRecurrence: string,
    localTime: string,
    localTimezone: string,
    actionName: Option<string>)

  /** Python truthiness of a tag lookup: present and not the empty string. */
  predicate Truthy(v: Option<string>) {
    v.Some? && v.value != ""
  }
}

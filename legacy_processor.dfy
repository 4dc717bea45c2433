/**
 * The older Auto Scaling group processor (lib/processor.py): the same two
 * loops as the prefixed processor, with the tag keys fixed to constants.
 */
module LegacyProcessor {
  import opened Wrappers
  import opened Tags
  import opened TagKeys
  import opened Changes
  import opened Recurrence
  import opened AutoScaling

  /** `ENABLED_TAG`. */
  const EnabledTag: string := "scheduled-event-adjuster:enabled"
  /** `LOCAL_TIMEZONE_TAG`. */
  const LocalTimezoneTag: string := "scheduled-event-adjuster:local-timezone"
  /** `LOCAL_TIME_TAG_PREFIX`: the action's name follows it. */
  const LocalTimeTagPrefix: string := "scheduled-event-adjuster:local-time:"

  /** The three constants are the keys the prefixed processor derives from `scheduled-event-adjuster`. */
  lemma LegacyKeysAreDefaultPrefixed()
    ensures AsgTagKeys(EnabledTag, LocalTimezoneTag, LocalTimeTagPrefix) == KeysFor(ResourceProcessor(DefaultPrefix))
  {
    var p := ResourceProcessor(DefaultPrefix);
    assert p.EnabledTag() == EnabledTag;
    assert p.LocalTimezoneTag() == LocalTimezoneTag;
    assert p.LocalTimeTag() + ":" == LocalTimeTagPrefix;
  }

  class AutoScalingGroupProcessor {
    const asgService: AutoScalingService
    const recurrenceCalculator: RecurrenceCalculator
    /** `_process_asg` as a function of the group, for the fixed tags, this service and this calculator. */
    ghost const groupOutcome: AutoScalingGroup -> Outcome

    constructor (asgService: AutoScalingService, recurrenceCalculator: RecurrenceCalculator)
      requires recurrenceCalculator.Valid()
      ensures this.asgService == asgService && this.recurrenceCalculator == recurrenceCalculator
      ensures Valid()
    {
      this.asgService := asgService;
      this.recurrenceCalculator := recurrenceCalculator;
      groupOutcome := (g: AutoScalingGroup) =>
        ProcessAsgSpec(AsgTagKeys(EnabledTag, LocalTimezoneTag, LocalTimeTagPrefix), asgService.fleet, g,
                       recurrenceCalculator.decide);
    }

    function Keys(): AsgTagKeys {
      AsgTagKeys(EnabledTag, LocalTimezoneTag, LocalTimeTagPrefix)
    }

    /** The calculator still answers as `decide` says, and `groupOutcome` is `ProcessAsgSpec` for the fixed tags. */
    ghost predicate Valid()
      reads recurrenceCalculator, recurrenceCalculator.timeSource
    {
      && recurrenceCalculator.Valid()
      && forall g: AutoScalingGroup {:trigger ProcessAsgSpec(Keys(), asgService.fleet, g, recurrenceCalculator.decide)} ::
           groupOutcome(g) == ProcessAsgSpec(Keys(), asgService.fleet, g, recurrenceCalculator.decide)
    }

    /** `process_resources`: the changes of every group, concatenated in group order. */
    method ProcessResources() returns (r: Result<seq<Change>, ProcessError>)
      requires Valid()
      modifies asgService
      ensures var o := ProcessAllSpec(Keys(), asgService.fleet, asgService.fleet.groups, recurrenceCalculator.decide);
        && r == o.result && asgService.calls == old(asgService.calls) + o.calls
        && asgService.listings == old(asgService.listings) + o.listings
    {
      r := Ok([]);
      var changes: seq<Change> := [];
      var groups := asgService.GetAsgs();
      var i := 0;
      while i < |groups|
        invariant 0 <= i <= |groups| && r == Ok([])
        invariant RunOf(groupOutcome, groups[..i]).result == Ok(changes)
        invariant asgService.calls == old(asgService.calls) + RunOf(groupOutcome, groups[..i]).calls
        invariant asgService.listings == old(asgService.listings) + RunOf(groupOutcome, groups[..i]).listings
      {
        ghost var prev := RunOf(groupOutcome, groups[..i]);
        RunOfNext(groupOutcome, groups, i);
        var groupChanges := ProcessAsg(groups[i]);
        assert asgService.calls == old(asgService.calls) + (prev.calls + groupOutcome(groups[i]).calls);
        assert asgService.listings == old(asgService.listings) + (prev.listings + groupOutcome(groups[i]).listings);
        if groupChanges.Err? {
          RunOfErrorSticky(groupOutcome, groups, i + 1);
          assert groups[..|groups|] == groups;
          i := |groups|;
          r := groupChanges;
          break;
        }
        changes := changes + groupChanges.value;
        i := i + 1;
      }
      assert groups[..i] == groups;
      RunOfAgrees(groupOutcome, Keys(), asgService.fleet, groups, recurrenceCalculator.decide);
      if r.Err? {
        return;
      }
      r := Ok(changes);
    }

    /** `_process_asg`. */
    method ProcessAsg(asg: AutoScalingGroup) returns (r: Result<seq<Change>, ProcessError>)
      requires Valid()
      modifies asgService
      ensures var o := groupOutcome(asg);
        && r == o.result && asgService.calls == old(asgService.calls) + o.calls
        && asgService.listings == old(asgService.listings) + o.listings
    {
      assert groupOutcome(asg) == ProcessAsgSpec(Keys(), asgService.fleet, asg, recurrenceCalculator.decide);
      if GetTagByKey(asg.tags, Keys().enabled) == None {
        return Ok([]);
      }
      var localTimezone := GetTagByKey(asg.tags, Keys().timezone);
      if !Truthy(localTimezone) {
        return Ok([]);
      }
      var actions := asgService.GetAsgScheduledActions(asg.name);
      var staged := StageScheduledActions(asg, localTimezone.value, actions);
      if staged.Err? {
        return Err(staged.error);
      }
      var updates := staged.value.updates;
      if |updates| > 0 {
        var failed := asgService.UpdateAsgScheduledActions(asg.name, updates);
        if failed > 0 {
          return Err(ActionsFailedToUpdate(failed));
        }
      }
      r := Ok(staged.value.changes);
    }

    /**
     * The action loop of `_process_asg`: the updates to send and the change
     * records to report, or the error that ends the loop.
     */
    method StageScheduledActions(asg: AutoScalingGroup, timezone: string, actions: seq<ScheduledAction>)
      returns (r: Result<Staged, ProcessError>)
      requires recurrenceCalculator.Valid()
      ensures r == StageActions(Keys(), asg, timezone, actions, recurrenceCalculator.decide)
    {
      ghost var decide := recurrenceCalculator.decide;
      var updates: seq<ActionUpdate> := [];
      var result: seq<Change> := [];
      var i := 0;
      while i < |actions|
        invariant 0 <= i <= |actions|
        invariant StageActions(Keys(), asg, timezone, actions[..i], decide) == Ok(Staged(updates, result))
      {
        StageStep(Keys(), asg, timezone, actions, i, decide, Staged(updates, result));
        var staged := StageScheduledAction(asg, timezone, actions[i]);
        if staged.Err? {
          StageErrorSticky(Keys(), asg, timezone, actions, i + 1, decide);
          return Err(staged.error);
        }
        if staged.value.Some? {
          updates := updates + [staged.value.value.0];
          result := result + [staged.value.value.1];
        }
        i := i + 1;
      }
      assert actions[..i] == actions;
      r := Ok(Staged(updates, result));
    }

    /** One pass of the action loop: the update and change record for `action`, if it needs one. */
    method StageScheduledAction(asg: AutoScalingGroup, timezone: string, action: ScheduledAction)
      returns (r: Result<Option<(ActionUpdate, Change)>, ProcessError>)
      requires recurrenceCalculator.Valid()
      ensures r == StageAction(Keys(), asg, timezone, action, recurrenceCalculator.decide)
    {
      if action.recurrence.None? {
        return Err(MissingRecurrence(action.name));
      }
      var current := action.recurrence.value;
      var localTimeKey := Keys().ActionTimeKey(action.name);
      var localTime := GetTagByKey(asg.tags, localTimeKey);
      if !Truthy(localTime) {
        return Ok(None);
      }
      var correct := recurrenceCalculator.CalculateRecurrence(current, localTime.value, timezone, None);
      if correct.Err? {
        return Err(CalculationFailed(correct.error));
      }
      if correct.value == current {
        return Ok(None);
      }
      if action.desiredCapacity.None? {
        return Err(MissingDesiredCapacity(action.name));
      }
      r := Ok(Some((ActionUpdate(action.name, correct.value, action.desiredCapacity.value),
                    Change(AutoScalingGroupScalingPolicy, asg.name, asg.arn, current, correct.value,
                           localTime.value, timezone, Some(action.name)))));
    }
  }
}

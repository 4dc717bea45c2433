/**
 * The Auto Scaling group processor (lib/processors/autoscaling.py): for every
 * group tagged as enabled and with a timezone, it recomputes the recurrence of
 * each scheduled action that has a local time tag, sends the changed ones to
 * the service in one batch, and reports a change record for each.
 *
 * An exception in the source is an `Err` here: it ends the whole run, and the
 * update calls made before it stay made.
 */
module AutoScaling {
  import opened Wrappers
  import opened Tags
  import opened TagKeys
  import opened Changes
  import opened Recurrence

  datatype AutoScalingGroup = AutoScalingGroup(name: string, arn: string, tags: seq<Tag>)

  /** A scheduled action as the service lists it; `Recurrence` and `DesiredCapacity` may be absent. */
  datatype ScheduledAction = ScheduledAction(name: string, recurrence: Option<string>, desiredCapacity: Option<int>)

  /** One entry of a `batch_put_scheduled_update_group_action` request. */
  datatype ActionUpdate = ActionUpdate(name: string, recurrence: string, desiredCapacity: int)

  /** One call of `update_asg_scheduled_actions`. */
  datatype UpdateCall = UpdateCall(groupName: string, updates: seq<ActionUpdate>)

  datatype ProcessError =
    | CalculationFailed(cause: CalcError)   // calculate_recurrence raised
    | MissingRecurrence(action: string)     // KeyError on action['Recurrence']
    | MissingDesiredCapacity(action: string)  // KeyError on action['DesiredCapacity']
    | ActionsFailedToUpdate(count: nat)     // the batch update reported failed entries

  /**
   * The Auto Scaling service as the processor sees it: the groups, the
   * scheduled actions of each group, and how many entries of a batch update
   * the service reports as failed.
   */
  datatype Fleet = Fleet(
    groups: seq<AutoScalingGroup>,
    actionsOf: string -> seq<ScheduledAction>,
    failedUpdates: (string, seq<ActionUpdate>) -> nat)

  /** The updates and the change records staged so far for one group. */
  datatype Staged = Staged(updates: seq<ActionUpdate>, changes: seq<Change>)

  /**
   * What processing returns, the update calls it made on the way, and the
   * groups whose scheduled actions it listed (`get_asg_scheduled_actions`).
   */
  datatype Outcome = Outcome(result: Result<seq<Change>, ProcessError>, calls: seq<UpdateCall>, listings: seq<string>)

  /**
   * Updates and change records go in pairs: the same action, the same new
   * recurrence, and a new recurrence that differs from the original.
   */
  ghost predicate Aligned(st: Staged) {
    && |st.updates| == |st.changes|
    && forall i :: 0 <= i < |st.updates| ==>
         && st.changes[i].actionName == Some(st.updates[i].name)
         && st.changes[i].newRecurrence == st.updates[i].recurrence
         && st.changes[i].originalRecurrence != st.changes[i].newRecurrence
  }

  // ----- Specification -----

  /**
   * One pass of the action loop: None when the action is skipped or already
   * right, otherwise the update to stage and its change record.
   */
  function StageAction(keys: AsgTagKeys, asg: AutoScalingGroup, timezone: string,
                       action: ScheduledAction, decide: Decider)
    : (r: Result<Option<(ActionUpdate, Change)>, ProcessError>)
    ensures r.Ok? && r.value.Some? ==>
      var (u, c) := r.value.value;
      && action.recurrence.Some? && action.desiredCapacity.Some?
      && u == ActionUpdate(action.name, c.newRecurrence, action.desiredCapacity.value)
      && c.originalRecurrence == action.recurrence.value != c.newRecurrence
      && decide(action.recurrence.value, c.localTime, timezone) == Ok(c.newRecurrence)
      && GetTagByKey(asg.tags, keys.ActionTimeKey(action.name)) == Some(c.localTime) && c.localTime != ""
      && c == Change(AutoScalingGroupScalingPolicy, asg.name, asg.arn, c.originalRecurrence, c.newRecurrence,
                     c.localTime, timezone, Some(action.name))
  {
    match action.recurrence
    case None => Err(MissingRecurrence(action.name))
    case Some(current) =>
      var localTime := GetTagByKey(asg.tags, keys.ActionTimeKey(action.name));
      if !Truthy(localTime) then Ok(None)
      else
        match decide(current, localTime.value, timezone)
        case Err(e) => Err(CalculationFailed(e))
        case Ok(correct) =>
          if correct == current then Ok(None)
          else
            match action.desiredCapacity
            case None => Err(MissingDesiredCapacity(action.name))
            case Some(capacity) =>
              Ok(Some((ActionUpdate(action.name, correct, capacity),
                       Change(AutoScalingGroupScalingPolicy, asg.name, asg.arn, current, correct,
                              localTime.value, timezone, Some(action.name)))))
  }

  /** The action loop over `actions`, in order; the first error ends it. */
  function StageActions(keys: AsgTagKeys, asg: AutoScalingGroup, timezone: string,
                        actions: seq<ScheduledAction>, decide: Decider): Result<Staged, ProcessError>
    decreases |actions|
  {
    if actions == [] then Ok(Staged([], []))
    else
      match StageActions(keys, asg, timezone, actions[..|actions| - 1], decide)
      case Err(e) => Err(e)
      case Ok(st) =>
        match StageAction(keys, asg, timezone, actions[|actions| - 1], decide)
        case Err(e) => Err(e)
        case Ok(None) => Ok(st)
        case Ok(Some(pair)) => Ok(Staged(st.updates + [pair.0], st.changes + [pair.1]))
  }

  /** `_process_asg` past its two tag checks: stage the actions, then send the batch if there is one. */
  function UpdateGroup(keys: AsgTagKeys, fleet: Fleet, asg: AutoScalingGroup, timezone: string,
                       decide: Decider): Outcome
  {
    match StageActions(keys, asg, timezone, fleet.actionsOf(asg.name), decide)
    case Err(e) => Outcome(Err(e), [], [asg.name])
    case Ok(st) =>
      if |st.updates| == 0 then Outcome(Ok(st.changes), [], [asg.name])
      else
        var failed := fleet.failedUpdates(asg.name, st.updates);
        Outcome(if failed > 0 then Err(ActionsFailedToUpdate(failed)) else Ok(st.changes),
                [UpdateCall(asg.name, st.updates)], [asg.name])
  }

  /** `_process_asg`. */
  function ProcessAsgSpec(keys: AsgTagKeys, fleet: Fleet, asg: AutoScalingGroup, decide: Decider): Outcome {
    if GetTagByKey(asg.tags, keys.enabled).None? then Outcome(Ok([]), [], [])
    else
      var timezone := GetTagByKey(asg.tags, keys.timezone);
      if !Truthy(timezone) then Outcome(Ok([]), [], [])
      else UpdateGroup(keys, fleet, asg, timezone.value, decide)
  }

  /** The outcome of running `first` and then, unless it failed, `second`. */
  function Then(first: Outcome, second: Outcome): Outcome {
    if first.result.Err? then first
    else
      Outcome(match second.result
              case Err(e) => Err(e)
              case Ok(cs) => Ok(first.result.value + cs),
              first.calls + second.calls,
              first.listings + second.listings)
  }

  /** The groups run in order, each with outcome `outcomeOf`, stopping at the first failure. */
  function RunOf(outcomeOf: AutoScalingGroup -> Outcome, groups: seq<AutoScalingGroup>): Outcome
    decreases |groups|
  {
    if groups == [] then Outcome(Ok([]), [], [])
    else Then(RunOf(outcomeOf, groups[..|groups| - 1]), outcomeOf(groups[|groups| - 1]))
  }

  /** `process_resources` over `groups`: the per-group changes concatenated in order. */
  function ProcessAllSpec(keys: AsgTagKeys, fleet: Fleet, groups: seq<AutoScalingGroup>, decide: Decider): Outcome {
    RunOf((g: AutoScalingGroup) => ProcessAsgSpec(keys, fleet, g, decide), groups)
  }

  /** The names of the groups that carry the enabled tag and a non-empty timezone, in group order. */
  function TaggedNames(keys: AsgTagKeys, groups: seq<AutoScalingGroup>): seq<string>
    decreases |groups|
  {
    if groups == [] then []
    else
      var g := groups[|groups| - 1];
      TaggedNames(keys, groups[..|groups| - 1])
        + if GetTagByKey(g.tags, keys.enabled).Some? && Truthy(GetTagByKey(g.tags, keys.timezone)) then [g.name] else []
  }

  // ----- Lemmas -----

  /** The action loop over `a + b` is the loop over `a` followed by the loop over `b`. */
  lemma {:induction false} StageActionsConcat(keys: AsgTagKeys, asg: AutoScalingGroup, timezone: string,
                                              a: seq<ScheduledAction>, b: seq<ScheduledAction>, decide: Decider)
    ensures StageActions(keys, asg, timezone, a + b, decide)
         == match StageActions(keys, asg, timezone, a, decide)
            case Err(e) => Err(e)
            case Ok(x) =>
              match StageActions(keys, asg, timezone, b, decide)
              case Err(e) => Err(e)
              case Ok(y) => Ok(Staged(x.updates + y.updates, x.changes + y.changes))
    decreases |b|
  {
    if b == [] {
      assert a + b == a;
      var x := StageActions(keys, asg, timezone, a, decide);
      if x.Ok? {
        assert x.value.updates + [] == x.value.updates && x.value.changes + [] == x.value.changes;
      }
    } else {
      var b' := b[..|b| - 1];
      assert (a + b)[..|a + b| - 1] == a + b';
      assert (a + b)[|a + b| - 1] == b[|b| - 1];
      StageActionsConcat(keys, asg, timezone, a, b', decide);
      var x := StageActions(keys, asg, timezone, a, decide);
      var y := StageActions(keys, asg, timezone, b', decide);
      if x.Ok? && y.Ok? {
        assert x.value.updates + (y.value.updates + []) == x.value.updates + y.value.updates;
        var last := b[|b| - 1];
        match StageAction(keys, asg, timezone, last, decide)
        case Err(_) =>
        case Ok(None) =>
        case Ok(Some(pair)) =>
          assert x.value.updates + y.value.updates + [pair.0] == x.value.updates + (y.value.updates + [pair.0]);
          assert x.value.changes + y.value.changes + [pair.1] == x.value.changes + (y.value.changes + [pair.1]);
      }
    }
  }

  /** The action loop fails exactly when some action fails. */
  lemma StageActionsFailIff(keys: AsgTagKeys, asg: AutoScalingGroup, timezone: string,
                            actions: seq<ScheduledAction>, decide: Decider)
    ensures StageActions(keys, asg, timezone, actions, decide).Err?
        <==> exists j :: 0 <= j < |actions| && StageAction(keys, asg, timezone, actions[j], decide).Err?
  {
    if StageActions(keys, asg, timezone, actions, decide).Err? {
      var j := FailingAction(keys, asg, timezone, actions, decide);
    } else {
      forall j | 0 <= j < |actions| ensures !StageAction(keys, asg, timezone, actions[j], decide).Err? {
        if StageAction(keys, asg, timezone, actions[j], decide).Err? {
          FailingActionFails(keys, asg, timezone, actions, j, decide);
        }
      }
    }
  }

  /** A failed action loop has an action that failed. */
  lemma {:induction false} FailingAction(keys: AsgTagKeys, asg: AutoScalingGroup, timezone: string,
                                         actions: seq<ScheduledAction>, decide: Decider) returns (j: int)
    requires StageActions(keys, asg, timezone, actions, decide).Err?
    ensures 0 <= j < |actions| && StageAction(keys, asg, timezone, actions[j], decide).Err?
    decreases |actions|
  {
    var front := actions[..|actions| - 1];
    if StageActions(keys, asg, timezone, front, decide).Err? {
      j := FailingAction(keys, asg, timezone, front, decide);
      assert actions[j] == front[j];
    } else {
      j := |actions| - 1;
    }
  }

  /** An action that fails makes the whole action loop fail. */
  lemma {:induction false} FailingActionFails(keys: AsgTagKeys, asg: AutoScalingGroup, timezone: string,
                                              actions: seq<ScheduledAction>, j: int, decide: Decider)
    requires 0 <= j < |actions| && StageAction(keys, asg, timezone, actions[j], decide).Err?
    ensures StageActions(keys, asg, timezone, actions, decide).Err?
    decreases |actions|
  {
    var front := actions[..|actions| - 1];
    if j < |actions| - 1 {
      assert actions[j] == front[j];
      FailingActionFails(keys, asg, timezone, front, j, decide);
    }
  }

  /** The staged updates and change records pair up, at most one pair per action. */
  lemma {:induction false} StagedIsAligned(keys: AsgTagKeys, asg: AutoScalingGroup, timezone: string,
                                           actions: seq<ScheduledAction>, decide: Decider)
    requires StageActions(keys, asg, timezone, actions, decide).Ok?
    ensures var st := StageActions(keys, asg, timezone, actions, decide).value;
      Aligned(st) && |st.updates| <= |actions|
    decreases |actions|
  {
    if actions != [] {
      StagedIsAligned(keys, asg, timezone, actions[..|actions| - 1], decide);
    }
  }

  /**
   * On success every action succeeded, and every pair an action stages is
   * among the staged updates and change records.
   */
  lemma {:induction false} StagedFromActions(keys: AsgTagKeys, asg: AutoScalingGroup, timezone: string,
                                             actions: seq<ScheduledAction>, decide: Decider)
    requires StageActions(keys, asg, timezone, actions, decide).Ok?
    ensures forall j :: 0 <= j < |actions| ==> StageAction(keys, asg, timezone, actions[j], decide).Ok?
    ensures var st := StageActions(keys, asg, timezone, actions, decide).value;
      forall j :: 0 <= j < |actions| && StageAction(keys, asg, timezone, actions[j], decide).value.Some? ==>
        var pair := StageAction(keys, asg, timezone, actions[j], decide).value.value;
        pair.0 in st.updates && pair.1 in st.changes
    decreases |actions|
  {
    if actions != [] {
      var front := actions[..|actions| - 1];
      var last := actions[|actions| - 1];
      StagedFromActions(keys, asg, timezone, front, decide);
      var sf := StageActions(keys, asg, timezone, front, decide).value;
      var st := StageActions(keys, asg, timezone, actions, decide).value;
      assert sf.updates <= st.updates && sf.changes <= st.changes;
      forall j | 0 <= j < |actions|
        ensures StageAction(keys, asg, timezone, actions[j], decide).Ok?
        ensures StageAction(keys, asg, timezone, actions[j], decide).value.Some? ==>
          var pair := StageAction(keys, asg, timezone, actions[j], decide).value.value;
          pair.0 in st.updates && pair.1 in st.changes
      {
        if j < |front| {
          assert actions[j] == front[j];
        }
      }
    }
  }

  /**
   * An action with a recurrence, a local time, an answer from the calculator
   * and a desired capacity stages an update exactly when the answer differs
   * from its recurrence.
   */
  lemma StagedExactlyWhenChanged(keys: AsgTagKeys, asg: AutoScalingGroup, timezone: string,
                                 action: ScheduledAction, decide: Decider)
    requires action.recurrence.Some? && action.desiredCapacity.Some?
    requires Truthy(GetTagByKey(asg.tags, keys.ActionTimeKey(action.name)))
    requires decide(action.recurrence.value, GetTagByKey(asg.tags, keys.ActionTimeKey(action.name)).value, timezone).Ok?
    ensures StageAction(keys, asg, timezone, action, decide).Ok?
    ensures StageAction(keys, asg, timezone, action, decide).value.Some?
        <==> decide(action.recurrence.value, GetTagByKey(asg.tags, keys.ActionTimeKey(action.name)).value, timezone).value
             != action.recurrence.value
  {
  }

  /** An action without a local time tag, or with an empty one, is skipped once its recurrence is read. */
  lemma UntimedActionSkipped(keys: AsgTagKeys, asg: AutoScalingGroup, timezone: string,
                             action: ScheduledAction, decide: Decider)
    requires action.recurrence.Some?
    requires GetTagByKey(asg.tags, keys.ActionTimeKey(action.name)) in {None, Some("")}
    ensures StageAction(keys, asg, timezone, action, decide) == Ok(None)
  {
  }

  /**
   * Without the enabled tag the group yields nothing and makes no service
   * call: its scheduled actions are not even listed.
   */
  lemma NotEnabledSkipped(keys: AsgTagKeys, fleet: Fleet, asg: AutoScalingGroup, decide: Decider)
    requires forall i :: 0 <= i < |asg.tags| ==> asg.tags[i].key != keys.enabled
    ensures ProcessAsgSpec(keys, fleet, asg, decide) == Outcome(Ok([]), [], [])
  {
    NoneExactlyWhenAbsent(asg.tags, keys.enabled);
  }

  /**
   * Without a timezone, or with an empty one, the group yields nothing and
   * makes no service call: its scheduled actions are not even listed.
   */
  lemma NoTimezoneSkipped(keys: AsgTagKeys, fleet: Fleet, asg: AutoScalingGroup, decide: Decider)
    requires GetTagByKey(asg.tags, keys.timezone) in {None, Some("")}
    ensures ProcessAsgSpec(keys, fleet, asg, decide) == Outcome(Ok([]), [], [])
  {
  }

  /**
   * The enabled tag counts with any value, the empty one included: with a
   * timezone, the group's actions are processed.
   */
  lemma EnabledWithAnyValue(keys: AsgTagKeys, fleet: Fleet, asg: AutoScalingGroup, decide: Decider, i: int)
    requires FirstWithKey(asg.tags, keys.enabled, i)
    requires Truthy(GetTagByKey(asg.tags, keys.timezone))
    ensures ProcessAsgSpec(keys, fleet, asg, decide)
         == UpdateGroup(keys, fleet, asg, GetTagByKey(asg.tags, keys.timezone).value, decide)
  {
    FirstMatchWins(asg.tags, keys.enabled, i);
  }

  /**
   * The scheduled actions of a group are listed, once, exactly when it carries
   * the enabled tag and a non-empty timezone.
   */
  lemma ListsActionsExactlyWhenTagged(keys: AsgTagKeys, fleet: Fleet, asg: AutoScalingGroup, decide: Decider)
    ensures ProcessAsgSpec(keys, fleet, asg, decide).listings
         == if GetTagByKey(asg.tags, keys.enabled).Some? && Truthy(GetTagByKey(asg.tags, keys.timezone))
            then [asg.name] else []
  {
  }

  /** A run that succeeds has listed the actions of exactly its tagged groups, in group order. */
  lemma {:induction false} ListingsOfSuccessfulRun(keys: AsgTagKeys, fleet: Fleet, groups: seq<AutoScalingGroup>,
                                                   decide: Decider)
    requires ProcessAllSpec(keys, fleet, groups, decide).result.Ok?
    ensures ProcessAllSpec(keys, fleet, groups, decide).listings == TaggedNames(keys, groups)
    decreases |groups|
  {
    if groups != [] {
      var n := |groups| - 1;
      ProcessAllStep(keys, fleet, groups, n, decide);
      assert groups[..n + 1] == groups;
      ListingsOfSuccessfulRun(keys, fleet, groups[..n], decide);
      ListsActionsExactlyWhenTagged(keys, fleet, groups[n], decide);
    }
  }

  /**
   * A group makes at most one update call, for itself and with a non-empty
   * batch, and none when it reports no change; a batch with failed entries
   * raises an error naming their count.
   */
  lemma AtMostOneUpdateCall(keys: AsgTagKeys, fleet: Fleet, asg: AutoScalingGroup, decide: Decider)
    ensures var o := ProcessAsgSpec(keys, fleet, asg, decide);
      && |o.calls| <= 1
      && (o.result == Ok([]) ==> o.calls == [])
      && (|o.calls| == 1 ==>
            && o.listings == [asg.name]
            && o.calls[0].groupName == asg.name && |o.calls[0].updates| > 0
            && var failed := fleet.failedUpdates(asg.name, o.calls[0].updates);
            if failed > 0 then o.result == Err(ActionsFailedToUpdate(failed))
            else o.result.Ok? && |o.result.value| == |o.calls[0].updates|)
  {
    if GetTagByKey(asg.tags, keys.enabled).Some? && Truthy(GetTagByKey(asg.tags, keys.timezone)) {
      var timezone := GetTagByKey(asg.tags, keys.timezone).value;
      if StageActions(keys, asg, timezone, fleet.actionsOf(asg.name), decide).Ok? {
        StagedIsAligned(keys, asg, timezone, fleet.actionsOf(asg.name), decide);
      }
    }
  }

  /** `process_resources` over `a + b` is the run over `a` followed, unless it failed, by the run over `b`. */
  lemma {:induction false} RunOfConcat(outcomeOf: AutoScalingGroup -> Outcome,
                                       a: seq<AutoScalingGroup>, b: seq<AutoScalingGroup>)
    ensures RunOf(outcomeOf, a + b) == Then(RunOf(outcomeOf, a), RunOf(outcomeOf, b))
    decreases |b|
  {
    if b == [] {
      assert a + b == a;
      var x := RunOf(outcomeOf, a);
      if x.result.Ok? {
        assert x.result.value + [] == x.result.value;
        assert x.calls + [] == x.calls;
        assert x.listings + [] == x.listings;
      }
    } else {
      var b' := b[..|b| - 1];
      assert (a + b)[..|a + b| - 1] == a + b';
      assert (a + b)[|a + b| - 1] == b[|b| - 1];
      RunOfConcat(outcomeOf, a, b');
      ThenAssociative(RunOf(outcomeOf, a), RunOf(outcomeOf, b'), outcomeOf(b[|b| - 1]));
    }
  }

  /** The run over `a + b` is the run over `a`, then (unless it failed) the run over `b`. */
  lemma ProcessAllConcat(keys: AsgTagKeys, fleet: Fleet, a: seq<AutoScalingGroup>,
                         b: seq<AutoScalingGroup>, decide: Decider)
    ensures ProcessAllSpec(keys, fleet, a + b, decide)
         == Then(ProcessAllSpec(keys, fleet, a, decide), ProcessAllSpec(keys, fleet, b, decide))
  {
    RunOfConcat((g: AutoScalingGroup) => ProcessAsgSpec(keys, fleet, g, decide), a, b);
  }

  lemma ThenAssociative(x: Outcome, y: Outcome, z: Outcome)
    ensures Then(Then(x, y), z) == Then(x, Then(y, z))
  {
    if x.result.Ok? && y.result.Ok? && z.result.Ok? {
      assert x.result.value + y.result.value + z.result.value == x.result.value + (y.result.value + z.result.value);
    }
    assert x.calls + y.calls + z.calls == x.calls + (y.calls + z.calls);
    assert x.listings + y.listings + z.listings == x.listings + (y.listings + z.listings);
  }

  /** Successful runs report the changes of each group in group order. */
  lemma ProcessAllOfOne(keys: AsgTagKeys, fleet: Fleet, first: seq<AutoScalingGroup>, g: AutoScalingGroup,
                        decide: Decider)
    requires ProcessAllSpec(keys, fleet, first, decide).result.Ok?
    requires ProcessAsgSpec(keys, fleet, g, decide).result.Ok?
    ensures ProcessAllSpec(keys, fleet, first + [g], decide).result
         == Ok(ProcessAllSpec(keys, fleet, first, decide).result.value + ProcessAsgSpec(keys, fleet, g, decide).result.value)
  {
    assert (first + [g])[..|first|] == first;
  }

  /** One more action of the loop. */
  lemma StageStep(keys: AsgTagKeys, asg: AutoScalingGroup, timezone: string,
                  actions: seq<ScheduledAction>, i: int, decide: Decider, st: Staged)
    requires 0 <= i < |actions| && StageActions(keys, asg, timezone, actions[..i], decide) == Ok(st)
    ensures StageActions(keys, asg, timezone, actions[..i + 1], decide)
         == match StageAction(keys, asg, timezone, actions[i], decide)
            case Err(e) => Err(e)
            case Ok(None) => Ok(st)
            case Ok(Some(pair)) => Ok(Staged(st.updates + [pair.0], st.changes + [pair.1]))
  {
    assert actions[..i + 1][..i] == actions[..i];
  }

  /** An error in the first `i` actions is the error of the whole loop. */
  lemma StageErrorSticky(keys: AsgTagKeys, asg: AutoScalingGroup, timezone: string,
                         actions: seq<ScheduledAction>, i: int, decide: Decider)
    requires 0 <= i <= |actions| && StageActions(keys, asg, timezone, actions[..i], decide).Err?
    ensures StageActions(keys, asg, timezone, actions, decide) == StageActions(keys, asg, timezone, actions[..i], decide)
  {
    assert actions[..i] + actions[i..] == actions;
    StageActionsConcat(keys, asg, timezone, actions[..i], actions[i..], decide);
  }

  /** The action loop over a single action. */
  lemma StageActionsOfOne(keys: AsgTagKeys, asg: AutoScalingGroup, timezone: string,
                          action: ScheduledAction, decide: Decider)
    ensures StageActions(keys, asg, timezone, [action], decide)
         == match StageAction(keys, asg, timezone, action, decide)
            case Err(e) => Err(e)
            case Ok(None) => Ok(Staged([], []))
            case Ok(Some(pair)) => Ok(Staged([pair.0], [pair.1]))
  {
    assert [action][..0] == [];
    assert StageActions(keys, asg, timezone, [], decide) == Ok(Staged([], []));
    match StageAction(keys, asg, timezone, action, decide)
    case Err(_) =>
    case Ok(None) =>
    case Ok(Some(pair)) =>
      assert [] + [pair.0] == [pair.0] && [] + [pair.1] == [pair.1];
  }

  /** The run over a single group is that group's outcome. */
  lemma ProcessAllOfOneGroup(keys: AsgTagKeys, fleet: Fleet, g: AutoScalingGroup, decide: Decider)
    ensures ProcessAllSpec(keys, fleet, [g], decide) == ProcessAsgSpec(keys, fleet, g, decide)
  {
    var outcomeOf := (h: AutoScalingGroup) => ProcessAsgSpec(keys, fleet, h, decide);
    var o := ProcessAsgSpec(keys, fleet, g, decide);
    assert [g][..0] == [];
    assert RunOf(outcomeOf, [g]) == Then(Outcome(Ok([]), [], []), o);
    assert [] + o.calls == o.calls && [] + o.listings == o.listings;
    if o.result.Ok? {
      assert [] + o.result.value == o.result.value;
    }
  }

  /** One more group of the run. */
  lemma ProcessAllStep(keys: AsgTagKeys, fleet: Fleet, groups: seq<AutoScalingGroup>, i: int, decide: Decider)
    requires 0 <= i < |groups|
    ensures ProcessAllSpec(keys, fleet, groups[..i + 1], decide)
         == Then(ProcessAllSpec(keys, fleet, groups[..i], decide), ProcessAsgSpec(keys, fleet, groups[i], decide))
  {
    assert groups[..i + 1][..i] == groups[..i];
  }

  /** A run is determined by the outcomes of its own groups. */
  lemma {:induction false} RunOfAgrees(outcomeOf: AutoScalingGroup -> Outcome, keys: AsgTagKeys, fleet: Fleet,
                                       groups: seq<AutoScalingGroup>, decide: Decider)
    requires forall g: AutoScalingGroup {:trigger ProcessAsgSpec(keys, fleet, g, decide)} ::
      outcomeOf(g) == ProcessAsgSpec(keys, fleet, g, decide)
    ensures RunOf(outcomeOf, groups) == ProcessAllSpec(keys, fleet, groups, decide)
    decreases |groups|
  {
    if groups != [] {
      var n := |groups| - 1;
      RunOfAgrees(outcomeOf, keys, fleet, groups[..n], decide);
      assert outcomeOf(groups[n]) == ProcessAsgSpec(keys, fleet, groups[n], decide);
    }
  }

  /** One more group after a successful prefix: its calls and listings are appended, and its changes or its error. */
  lemma RunOfNext(outcomeOf: AutoScalingGroup -> Outcome, groups: seq<AutoScalingGroup>, i: int)
    requires 0 <= i < |groups| && RunOf(outcomeOf, groups[..i]).result.Ok?
    ensures var prev := RunOf(outcomeOf, groups[..i]);
      var one := outcomeOf(groups[i]);
      var next := RunOf(outcomeOf, groups[..i + 1]);
      && next.calls == prev.calls + one.calls
      && next.listings == prev.listings + one.listings
      && (one.result.Err? ==> next.result == one.result)
      && (one.result.Ok? ==> next.result == Ok(prev.result.value + one.result.value))
  {
    assert groups[..i + 1][..i] == groups[..i];
  }

  /** An error in the first `i` groups is the outcome of the whole run. */
  lemma RunOfErrorSticky(outcomeOf: AutoScalingGroup -> Outcome, groups: seq<AutoScalingGroup>, i: int)
    requires 0 <= i <= |groups| && RunOf(outcomeOf, groups[..i]).result.Err?
    ensures RunOf(outcomeOf, groups) == RunOf(outcomeOf, groups[..i])
  {
    assert groups[..i] + groups[i..] == groups;
    RunOfConcat(outcomeOf, groups[..i], groups[i..]);
    ThenAfterError(RunOf(outcomeOf, groups[..i]), RunOf(outcomeOf, groups[i..]));
  }

  lemma ThenAfterError(x: Outcome, y: Outcome)
    requires x.result.Err?
    ensures Then(x, y) == x
  {
  }

  // tests/unit/processors/test_autoscaling.py:10-76 and 142-181: one group
  // tagged with prefix `foo:bar`, one action, and a calculator that answers
  // `NewRecurrence` (or the original) for exactly the recurrence, local time
  // and timezone the processor is expected to pass, in that order.

  lemma ExampleKeys(keys: AsgTagKeys)
    requires keys == KeysFor(ResourceProcessor("foo:bar"))
    ensures keys.enabled == "foo:bar:enabled"
    ensures keys.timezone == "foo:bar:local-timezone"
    ensures keys.ActionTimeKey("ActionOne") == "foo:bar:local-time:ActionOne"
  {
  }

  lemma ExampleLookups(tags: seq<Tag>)
    requires tags == [Tag("foo:bar:enabled", ""), Tag("foo:bar:local-timezone", "Europe/Madrid"),
                      Tag("foo:bar:local-time:ActionOne", "10:00")]
    ensures GetTagByKey(tags, "foo:bar:enabled") == Some("")
    ensures GetTagByKey(tags, "foo:bar:local-timezone") == Some("Europe/Madrid")
    ensures GetTagByKey(tags, "foo:bar:local-time:ActionOne") == Some("10:00")
  {
    assert GetTagByKey(tags, "foo:bar:enabled") == Some("") by {
      assert FirstWithKey(tags, "foo:bar:enabled", 0);
      FirstMatchWins(tags, "foo:bar:enabled", 0);
    }
    assert GetTagByKey(tags, "foo:bar:local-timezone") == Some("Europe/Madrid") by {
      assert tags[0].key != "foo:bar:local-timezone" by {
        assert |tags[0].key| != |"foo:bar:local-timezone"|;
      }
      assert FirstWithKey(tags, "foo:bar:local-timezone", 1);
      FirstMatchWins(tags, "foo:bar:local-timezone", 1);
    }
    assert tags[0].key != "foo:bar:local-time:ActionOne" by {
      assert |tags[0].key| != |"foo:bar:local-time:ActionOne"|;
    }
    assert tags[1].key != "foo:bar:local-time:ActionOne" by {
      assert |tags[1].key| != |"foo:bar:local-time:ActionOne"|;
    }
    assert FirstWithKey(tags, "foo:bar:local-time:ActionOne", 2);
    FirstMatchWins(tags, "foo:bar:local-time:ActionOne", 2);
  }

  /** The tags of the example group, as the processor with prefix `foo:bar` reads them. */
  lemma ExampleTags(tags: seq<Tag>, keys: AsgTagKeys)
    requires keys == KeysFor(ResourceProcessor("foo:bar"))
    requires tags == [Tag("foo:bar:enabled", ""), Tag("foo:bar:local-timezone", "Europe/Madrid"),
                      Tag("foo:bar:local-time:ActionOne", "10:00")]
    ensures GetTagByKey(tags, keys.enabled) == Some("")
    ensures GetTagByKey(tags, keys.timezone) == Some("Europe/Madrid")
    ensures GetTagByKey(tags, keys.ActionTimeKey("ActionOne")) == Some("10:00")
  {
    ExampleKeys(keys);
    ExampleLookups(tags);
  }

  /** The action loop of the example group: the one action is staged exactly when its recurrence changes. */
  lemma ExampleStaging(keys: AsgTagKeys, asg: AutoScalingGroup, decide: Decider, correct: string)
    requires keys == KeysFor(ResourceProcessor("foo:bar"))
    requires asg == AutoScalingGroup("MyAsg", "MyAsgARN",
      [Tag("foo:bar:enabled", ""), Tag("foo:bar:local-timezone", "Europe/Madrid"),
       Tag("foo:bar:local-time:ActionOne", "10:00")])
    requires decide("OriginalRecurrence", "10:00", "Europe/Madrid") == Ok(correct)
    ensures StageActions(keys, asg, "Europe/Madrid",
                         [ScheduledAction("ActionOne", Some("OriginalRecurrence"), Some(123))], decide)
         == if correct == "OriginalRecurrence" then Ok(Staged([], []))
            else Ok(Staged([ActionUpdate("ActionOne", correct, 123)],
                           [Change(AutoScalingGroupScalingPolicy, "MyAsg", "MyAsgARN", "OriginalRecurrence",
                                   correct, "10:00", "Europe/Madrid", Some("ActionOne"))]))
  {
    ExampleTags(asg.tags, keys);
    StageActionsOfOne(keys, asg, "Europe/Madrid",
                      ScheduledAction("ActionOne", Some("OriginalRecurrence"), Some(123)), decide);
  }

  lemma ExampleDifferentRecurrence(keys: AsgTagKeys, fleet: Fleet, decide: Decider)
    requires keys == KeysFor(ResourceProcessor("foo:bar"))
    requires fleet.groups == [AutoScalingGroup("MyAsg", "MyAsgARN",
      [Tag("foo:bar:enabled", ""), Tag("foo:bar:local-timezone", "Europe/Madrid"),
       Tag("foo:bar:local-time:ActionOne", "10:00")])]
    requires fleet.actionsOf("MyAsg") == [ScheduledAction("ActionOne", Some("OriginalRecurrence"), Some(123))]
    requires fleet.failedUpdates("MyAsg", [ActionUpdate("ActionOne", "NewRecurrence", 123)]) == 0
    requires decide("OriginalRecurrence", "10:00", "Europe/Madrid") == Ok("NewRecurrence")
    ensures ProcessAllSpec(keys, fleet, fleet.groups, decide)
         == Outcome(Ok([Change(AutoScalingGroupScalingPolicy, "MyAsg", "MyAsgARN", "OriginalRecurrence",
                               "NewRecurrence", "10:00", "Europe/Madrid", Some("ActionOne"))]),
                    [UpdateCall("MyAsg", [ActionUpdate("ActionOne", "NewRecurrence", 123)])], ["MyAsg"])
  {
    var asg := fleet.groups[0];
    ExampleTags(asg.tags, keys);
    ExampleStaging(keys, asg, decide, "NewRecurrence");
    ProcessAllOfOneGroup(keys, fleet, asg, decide);
  }

  lemma ExampleSameRecurrence(keys: AsgTagKeys, fleet: Fleet, decide: Decider)
    requires keys == KeysFor(ResourceProcessor("foo:bar"))
    requires fleet.groups == [AutoScalingGroup("MyAsg", "MyAsgARN",
      [Tag("foo:bar:enabled", ""), Tag("foo:bar:local-timezone", "Europe/Madrid"),
       Tag("foo:bar:local-time:ActionOne", "10:00")])]
    requires fleet.actionsOf("MyAsg") == [ScheduledAction("ActionOne", Some("OriginalRecurrence"), Some(123))]
    requires decide("OriginalRecurrence", "10:00", "Europe/Madrid") == Ok("OriginalRecurrence")
    ensures ProcessAllSpec(keys, fleet, fleet.groups, decide) == Outcome(Ok([]), [], ["MyAsg"])
  {
    var asg := fleet.groups[0];
    ExampleTags(asg.tags, keys);
    ExampleStaging(keys, asg, decide, "OriginalRecurrence");
    ProcessAllOfOneGroup(keys, fleet, asg, decide);
  }

  // tests/unit/processors/test_autoscaling.py:183-216: the group lacks the
  // enabled tag, or has only that one, and the listing of its actions (which
  // those tests leave unmocked) is never called.

  lemma ExampleWithoutEnabledTag(keys: AsgTagKeys, fleet: Fleet, decide: Decider)
    requires keys == KeysFor(ResourceProcessor("foo:bar"))
    requires fleet.groups == [AutoScalingGroup("MyAsg", "MyAsgARN", [])]
    ensures ProcessAllSpec(keys, fleet, fleet.groups, decide) == Outcome(Ok([]), [], [])
  {
    NotEnabledSkipped(keys, fleet, fleet.groups[0], decide);
    ProcessAllOfOneGroup(keys, fleet, fleet.groups[0], decide);
  }

  lemma ExampleWithoutTimezoneTag(keys: AsgTagKeys, fleet: Fleet, decide: Decider)
    requires keys == KeysFor(ResourceProcessor("foo:bar"))
    requires fleet.groups == [AutoScalingGroup("MyAsg", "MyAsgARN", [Tag("foo:bar:enabled", "")])]
    ensures ProcessAllSpec(keys, fleet, fleet.groups, decide) == Outcome(Ok([]), [], [])
  {
    var tags := fleet.groups[0].tags;
    ExampleKeys(keys);
    assert tags[0].key != keys.timezone by {
      assert |tags[0].key| != |keys.timezone|;
    }
    NoneExactlyWhenAbsent(tags, keys.timezone);
    NoTimezoneSkipped(keys, fleet, fleet.groups[0], decide);
    ProcessAllOfOneGroup(keys, fleet, fleet.groups[0], decide);
  }

  // ----- The service and the processor -----

  /**
   * The Auto Scaling client wrapper (lib/services.py), recording the update
   * calls made and the groups whose actions were listed.
   */
  class AutoScalingService {
    const fleet: Fleet
    var calls: seq<UpdateCall>
    var listings: seq<string>

    constructor (fleet: Fleet)
      ensures this.fleet == fleet && calls == [] && listings == []
    {
      this.fleet := fleet;
      calls := [];
      listings := [];
    }

    method GetAsgs() returns (groups: seq<AutoScalingGroup>)
      ensures groups == fleet.groups
    {
      groups := fleet.groups;
    }

    method GetAsgScheduledActions(name: string) returns (actions: seq<ScheduledAction>)
      modifies this
      ensures actions == fleet.actionsOf(name)
      ensures listings == old(listings) + [name] && calls == old(calls)
    {
      listings := listings + [name];
      actions := fleet.actionsOf(name);
    }

    /** Sends one batch; the answer is the number of entries the service reports as failed. */
    method UpdateAsgScheduledActions(name: string, updates: seq<ActionUpdate>) returns (failed: nat)
      modifies this
      ensures calls == old(calls) + [UpdateCall(name, updates)] && listings == old(listings)
      ensures failed == fleet.failedUpdates(name, updates)
    {
      calls := calls + [UpdateCall(name, updates)];
      failed := fleet.failedUpdates(name, updates);
    }
  }

  class AutoScalingGroupProcessor {
    const base: ResourceProcessor
    const asgService: AutoScalingService
    const recurrenceCalculator: RecurrenceCalculator
    /** `_process_asg` as a function of the group, for this processor's tags, service and calculator. */
    ghost const groupOutcome: AutoScalingGroup -> Outcome

    constructor (tagPrefix: string, asgService: AutoScalingService, recurrenceCalculator: RecurrenceCalculator)
      requires recurrenceCalculator.Valid()
      ensures base == ResourceProcessor(tagPrefix)
      ensures this.asgService == asgService && this.recurrenceCalculator == recurrenceCalculator
      ensures Valid()
    {
      base := ResourceProcessor(tagPrefix);
      this.asgService := asgService;
      this.recurrenceCalculator := recurrenceCalculator;
      groupOutcome := (g: AutoScalingGroup) =>
        ProcessAsgSpec(KeysFor(ResourceProcessor(tagPrefix)), asgService.fleet, g, recurrenceCalculator.decide);
    }

    function Keys(): AsgTagKeys {
      KeysFor(base)
    }

    /** The calculator still answers as `decide` says, and `groupOutcome` is `ProcessAsgSpec` for this processor. */
    ghost predicate Valid()
      reads recurrenceCalculator, recurrenceCalculator.timeSource
    {
      && recurrenceCalculator.Valid()
      && forall g: AutoScalingGroup {:trigger ProcessAsgSpec(Keys(), asgService.fleet, g, recurrenceCalculator.decide)} ::
           groupOutcome(g) == ProcessAsgSpec(Keys(), asgService.fleet, g, recurrenceCalculator.decide)
    }

    /** `process_resources`: the changes of every group, concatenated in group order. */
    method ProcessResources() returns (r: Result<seq<Change>, ProcessError>)
      requires Valid()
      modifies asgService
      ensures var o := ProcessAllSpec(Keys(), asgService.fleet, asgService.fleet.groups, recurrenceCalculator.decide);
        && r == o.result && asgService.calls == old(asgService.calls) + o.calls
        && asgService.listings == old(asgService.listings) + o.listings
    {
      r := Ok([]);
      var changes: seq<Change> := [];
      var groups := asgService.GetAsgs();
      var i := 0;
      while i < |groups|
        invariant 0 <= i <= |groups| && r == Ok([])
        invariant RunOf(groupOutcome, groups[..i]).result == Ok(changes)
        invariant asgService.calls == old(asgService.calls) + RunOf(groupOutcome, groups[..i]).calls
        invariant asgService.listings == old(asgService.listings) + RunOf(groupOutcome, groups[..i]).listings
      {
        ghost var prev := RunOf(groupOutcome, groups[..i]);
        RunOfNext(groupOutcome, groups, i);
        var groupChanges := ProcessAsg(groups[i]);
        assert asgService.calls == old(asgService.calls) + (prev.calls + groupOutcome(groups[i]).calls);
        assert asgService.listings == old(asgService.listings) + (prev.listings + groupOutcome(groups[i]).listings);
        if groupChanges.Err? {
          RunOfErrorSticky(groupOutcome, groups, i + 1);
          assert groups[..|groups|] == groups;
          i := |groups|;
          r := groupChanges;
          break;
        }
        changes := changes + groupChanges.value;
        i := i + 1;
      }
      assert groups[..i] == groups;
      RunOfAgrees(groupOutcome, Keys(), asgService.fleet, groups, recurrenceCalculator.decide);
      if r.Err? {
        return;
      }
      r := Ok(changes);
    }

    /** `_process_asg`. */
    method ProcessAsg(asg: AutoScalingGroup) returns (r: Result<seq<Change>, ProcessError>)
      requires Valid()
      modifies asgService
      ensures var o := groupOutcome(asg);
        && r == o.result && asgService.calls == old(asgService.calls) + o.calls
        && asgService.listings == old(asgService.listings) + o.listings
    {
      assert groupOutcome(asg) == ProcessAsgSpec(Keys(), asgService.fleet, asg, recurrenceCalculator.decide);
      if GetTagByKey(asg.tags, Keys().enabled) == None {
        return Ok([]);
      }
      var localTimezone := GetTagByKey(asg.tags, Keys().timezone);
      if !Truthy(localTimezone) {
        return Ok([]);
      }
      var actions := asgService.GetAsgScheduledActions(asg.name);
      var staged := StageScheduledActions(asg, localTimezone.value, actions);
      if staged.Err? {
        return Err(staged.error);
      }
      var updates := staged.value.updates;
      if |updates| > 0 {
        var failed := asgService.UpdateAsgScheduledActions(asg.name, updates);
        if failed > 0 {
          return Err(ActionsFailedToUpdate(failed));
        }
      }
      r := Ok(staged.value.changes);
    }

    /**
     * The action loop of `_process_asg`: the updates to send and the change
     * records to report, or the error that ends the loop.
     */
    method StageScheduledActions(asg: AutoScalingGroup, timezone: string, actions: seq<ScheduledAction>)
      returns (r: Result<Staged, ProcessError>)
      requires recurrenceCalculator.Valid()
      ensures r == StageActions(Keys(), asg, timezone, actions, recurrenceCalculator.decide)
    {
      ghost var decide := recurrenceCalculator.decide;
      var updates: seq<ActionUpdate> := [];
      var result: seq<Change> := [];
      var i := 0;
      while i < |actions|
        invariant 0 <= i <= |actions|
        invariant StageActions(Keys(), asg, timezone, actions[..i], decide) == Ok(Staged(updates, result))
      {
        StageStep(Keys(), asg, timezone, actions, i, decide, Staged(updates, result));
        var staged := StageScheduledAction(asg, timezone, actions[i]);
        if staged.Err? {
          StageErrorSticky(Keys(), asg, timezone, actions, i + 1, decide);
          return Err(staged.error);
        }
        if staged.value.Some? {
          updates := updates + [staged.value.value.0];
          result := result + [staged.value.value.1];
        }
        i := i + 1;
      }
      assert actions[..i] == actions;
      r := Ok(Staged(updates, result));
    }

    /** One pass of the action loop: the update and change record for `action`, if it needs one. */
    method StageScheduledAction(asg: AutoScalingGroup, timezone: string, action: ScheduledAction)
      returns (r: Result<Option<(ActionUpdate, Change)>, ProcessError>)
      requires recurrenceCalculator.Valid()
      ensures r == StageAction(Keys(), asg, timezone, action, recurrenceCalculator.decide)
    {
      if action.recurrence.None? {
        return Err(MissingRecurrence(action.name));
      }
      var current := action.recurrence.value;
      var localTimeKey := Keys().ActionTimeKey(action.name);
      var localTime := GetTagByKey(asg.tags, localTimeKey);
      if !Truthy(localTime) {
        return Ok(None);
      }
      var correct := recurrenceCalculator.CalculateRecurrence(current, localTime.value, timezone, None);
      if correct.Err? {
        return Err(CalculationFailed(correct.error));
      }
      if correct.value == current {
        return Ok(None);
      }
      if action.desiredCapacity.None? {
        return Err(MissingDesiredCapacity(action.name));
      }
      r := Ok(Some((ActionUpdate(action.name, correct.value, action.desiredCapacity.value),
                    Change(AutoScalingGroupScalingPolicy, asg.name, asg.arn, current, correct.value,
                           localTime.value, timezone, Some(action.name)))));
    }
  }
}

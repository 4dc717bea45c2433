/**
 * The EventBridge processor (lib/processors/eventbridge.py): for every
 * scheduled rule tagged as enabled, with a timezone and a local time, it
 * recomputes the cron expression inside `cron(...)` and rewrites the rule's
 * schedule when it changed. Any exception while processing one rule is caught:
 * that rule records no change and the next rule is processed.
 */
module EventBridge {
  import opened Wrappers
  import opened Tags
  import opened TagKeys
  import opened Changes
  import opened Recurrence

  /** A rule as listed; `Name` may be missing from the listing. */
  datatype Rule = Rule(name: Option<string>, arn: string, scheduleExpression: string)

  /** One call of `update_rule_schedule`. */
  datatype RuleWrite = RuleWrite(name: string, scheduleExpression: string)

  /**
   * The event bus as the processor sees it: the scheduled rules, the tags of
   * each rule (None where `get_rule_tags` raises), and which schedule updates
   * the service rejects with an exception.
   */
  datatype Bus = Bus(
    rules: seq<Rule>,
    tagsOf: string -> Option<seq<Tag>>,
    updateFails: (string, string) -> bool)

  /**
   * The change (if any) one rule reports, the update calls made for it, and
   * the arns whose tags were asked for (`get_rule_tags`).
   */
  datatype RuleOutcome = RuleOutcome(change: Option<Change>, writes: seq<RuleWrite>, tagReads: seq<string>)

  /** What a run over several rules reports, the update calls it made, and the arns whose tags it asked for. */
  datatype RunOutcome = RunOutcome(changes: seq<Change>, writes: seq<RuleWrite>, tagReads: seq<string>)

  /** `ENABLED_TAG`. */
  const EnabledTag: string := "scheduled-event-adjuster:enabled"
  /** `LOCAL_TIMEZONE_TAG`. */
  const LocalTimezoneTag: string := "scheduled-event-adjuster:local-timezone"
  /** `LOCAL_TIME_TAG`: one local time for the whole rule. */
  const LocalTimeTag: string := "scheduled-event-adjuster:local-time"

  /** `expression[5:][:-1]`: drop `cron(` and the closing parenthesis, whatever they are. */
  function Unwrap(expression: string): string {
    if |expression| <= 5 then "" else expression[5..|expression| - 1]
  }

  /** `'cron(' + recurrence + ')'`. */
  function Wrap(recurrence: string): string {
    "cron(" + recurrence + ")"
  }

  // ----- Specification -----

  /** A rule left alone before anything was asked of the service. */
  const Skipped: RuleOutcome := RuleOutcome(None, [], [])

  /** A rule left alone once its tags were asked for. */
  function SkippedAfterRead(arn: string): RuleOutcome {
    RuleOutcome(None, [], [arn])
  }

  /** One pass of the rule loop, the `try` body and its `except` together. */
  function ProcessRuleSpec(bus: Bus, rule: Rule, decide: Decider): RuleOutcome {
    match rule.name
    case None => Skipped        // KeyError on rule['Name'], caught
    case Some(name) =>
      match bus.tagsOf(rule.arn)
      case None => SkippedAfterRead(rule.arn)      // get_rule_tags raised, caught
      case Some(tags) =>
        if GetTagByKey(tags, EnabledTag).None? then SkippedAfterRead(rule.arn)
        else
          var timezone := GetTagByKey(tags, LocalTimezoneTag);
          var localTime := GetTagByKey(tags, LocalTimeTag);
          if !Truthy(timezone) || !Truthy(localTime) then SkippedAfterRead(rule.arn)
          else
            var current := Unwrap(rule.scheduleExpression);
            match decide(current, localTime.value, timezone.value)
            case Err(_) => SkippedAfterRead(rule.arn)  // the calculator raised, caught
            case Ok(recurrence) =>
              if recurrence == current then SkippedAfterRead(rule.arn)
              else
                var write := RuleWrite(name, Wrap(recurrence));
                if bus.updateFails(name, Wrap(recurrence)) then RuleOutcome(None, [write], [rule.arn])
                else
                  RuleOutcome(Some(Change(EventBridgeRule, name, rule.arn, current, recurrence,
                                          localTime.value, timezone.value, None)),
                              [write], [rule.arn])
  }

  function ChangesOf(o: RuleOutcome): seq<Change> {
    if o.change.Some? then [o.change.value] else []
  }

  /** The run over `rules`, in order, when each rule on its own has the outcome `outcomeOf`. */
  function RunOf(outcomeOf: Rule -> RuleOutcome, rules: seq<Rule>): RunOutcome
    decreases |rules|
  {
    if rules == [] then RunOutcome([], [], [])
    else
      var before := RunOf(outcomeOf, rules[..|rules| - 1]);
      var last := outcomeOf(rules[|rules| - 1]);
      RunOutcome(before.changes + ChangesOf(last), before.writes + last.writes, before.tagReads + last.tagReads)
  }

  /** `process_resources` over `rules`: every rule is processed on its own, in order. */
  function ProcessRulesSpec(bus: Bus, rules: seq<Rule>, decide: Decider): RunOutcome {
    RunOf((rule: Rule) => ProcessRuleSpec(bus, rule, decide), rules)
  }

  /** The arns of the rules listed with a name, in rule order. */
  function NamedArns(rules: seq<Rule>): seq<string>
    decreases |rules|
  {
    if rules == [] then []
    else
      var rule := rules[|rules| - 1];
      NamedArns(rules[..|rules| - 1]) + if rule.name.Some? then [rule.arn] else []
  }

  // ----- Lemmas -----

  /** The unwrapped text of a wrapped recurrence is the recurrence. */
  lemma UnwrapWrap(recurrence: string)
    ensures Unwrap(Wrap(recurrence)) == recurrence
  {
    assert Wrap(recurrence)[5..|Wrap(recurrence)| - 1] == recurrence;
  }

  /** A `cron(...)` expression is the wrapping of its unwrapped text. */
  lemma WrapUnwrap(expression: string)
    requires |expression| >= 6 && expression[..5] == "cron(" && expression[|expression| - 1] == ')'
    ensures Wrap(Unwrap(expression)) == expression
  {
    assert expression == expression[..5] + expression[5..|expression| - 1] + [expression[|expression| - 1]];
  }

  /** The constants are the keys a prefixed processor derives from `scheduled-event-adjuster`. */
  lemma RuleKeysAreDefaultPrefixed()
    ensures EnabledTag == ResourceProcessor(DefaultPrefix).EnabledTag()
    ensures LocalTimezoneTag == ResourceProcessor(DefaultPrefix).LocalTimezoneTag()
    ensures LocalTimeTag == ResourceProcessor(DefaultPrefix).LocalTimeTag()
  {
  }

  /**
   * A rule makes at most one update call, and only when the calculator wants a
   * different recurrence; it reports a change exactly when that call
   * succeeded, and the change names the rule, both recurrences unwrapped, and
   * the tags it read.
   */
  lemma RuleChangeAfterWrite(bus: Bus, rule: Rule, decide: Decider)
    ensures var o := ProcessRuleSpec(bus, rule, decide);
      && |o.writes| <= 1
      && (|o.writes| == 1 ==>
            && rule.name == Some(o.writes[0].name)
            && var current := Unwrap(rule.scheduleExpression);
            && var recurrence := Unwrap(o.writes[0].scheduleExpression);
            && o.writes[0].scheduleExpression == Wrap(recurrence)
            && recurrence != current
            && (o.change.Some? <==> !bus.updateFails(o.writes[0].name, o.writes[0].scheduleExpression))
            && (o.change.Some? ==>
                  && var tags := bus.tagsOf(rule.arn).value;
                  && o.change.value == Change(EventBridgeRule, rule.name.value, rule.arn, current, recurrence,
                                              GetTagByKey(tags, LocalTimeTag).value,
                                              GetTagByKey(tags, LocalTimezoneTag).value, None)
                  && decide(current, o.change.value.localTime, o.change.value.localTimezone) == Ok(recurrence)))
      && (|o.writes| == 0 ==> o.change.None?)
      && o.tagReads == if rule.name.Some? then [rule.arn] else []
  {
    var o := ProcessRuleSpec(bus, rule, decide);
    if |o.writes| == 1 {
      var current := Unwrap(rule.scheduleExpression);
      var tags := bus.tagsOf(rule.arn).value;
      var recurrence := decide(current, GetTagByKey(tags, LocalTimeTag).value,
                               GetTagByKey(tags, LocalTimezoneTag).value).value;
      UnwrapWrap(recurrence);
    }
  }

  /**
   * A named, tagged rule whose recurrence the calculator changes is written
   * once, as the wrapped new recurrence, and reports a change exactly when
   * that write succeeds.
   */
  lemma RewrittenWhenChanged(bus: Bus, rule: Rule, decide: Decider, tags: seq<Tag>, recurrence: string)
    requires rule.name.Some? && bus.tagsOf(rule.arn) == Some(tags)
    requires GetTagByKey(tags, EnabledTag).Some?
    requires Truthy(GetTagByKey(tags, LocalTimezoneTag)) && Truthy(GetTagByKey(tags, LocalTimeTag))
    requires decide(Unwrap(rule.scheduleExpression), GetTagByKey(tags, LocalTimeTag).value,
                    GetTagByKey(tags, LocalTimezoneTag).value) == Ok(recurrence)
    requires recurrence != Unwrap(rule.scheduleExpression)
    ensures ProcessRuleSpec(bus, rule, decide).writes == [RuleWrite(rule.name.value, Wrap(recurrence))]
    ensures ProcessRuleSpec(bus, rule, decide).change.Some? <==> !bus.updateFails(rule.name.value, Wrap(recurrence))
  {
  }

  /**
   * A rule without the enabled tag, a timezone or a local time is left alone:
   * no write and no change, only the tags of a named rule asked for.
   */
  lemma UntaggedRuleSkipped(bus: Bus, rule: Rule, decide: Decider, tags: seq<Tag>)
    requires bus.tagsOf(rule.arn) == Some(tags)
    requires GetTagByKey(tags, EnabledTag).None? || !Truthy(GetTagByKey(tags, LocalTimezoneTag))
          || !Truthy(GetTagByKey(tags, LocalTimeTag))
    ensures ProcessRuleSpec(bus, rule, decide) == if rule.name.Some? then SkippedAfterRead(rule.arn) else Skipped
  {
  }

  /** When the calculator keeps the recurrence, nothing is written and nothing reported. */
  lemma SameRecurrenceNoWrite(bus: Bus, rule: Rule, decide: Decider, tags: seq<Tag>)
    requires bus.tagsOf(rule.arn) == Some(tags)
    requires Truthy(GetTagByKey(tags, LocalTimezoneTag)) && Truthy(GetTagByKey(tags, LocalTimeTag))
    requires decide(Unwrap(rule.scheduleExpression), GetTagByKey(tags, LocalTimeTag).value,
                    GetTagByKey(tags, LocalTimezoneTag).value) == Ok(Unwrap(rule.scheduleExpression))
    ensures ProcessRuleSpec(bus, rule, decide) == if rule.name.Some? then SkippedAfterRead(rule.arn) else Skipped
  {
  }

  lemma {:induction false} RunOfConcat(outcomeOf: Rule -> RuleOutcome, a: seq<Rule>, b: seq<Rule>)
    ensures RunOf(outcomeOf, a + b)
         == RunOutcome(RunOf(outcomeOf, a).changes + RunOf(outcomeOf, b).changes,
                       RunOf(outcomeOf, a).writes + RunOf(outcomeOf, b).writes,
                       RunOf(outcomeOf, a).tagReads + RunOf(outcomeOf, b).tagReads)
    decreases |b|
  {
    var x := RunOf(outcomeOf, a);
    if b == [] {
      assert a + b == a;
      assert x.changes + [] == x.changes && x.writes + [] == x.writes && x.tagReads + [] == x.tagReads;
    } else {
      var b' := b[..|b| - 1];
      var last := outcomeOf(b[|b| - 1]);
      assert (a + b)[..|a + b| - 1] == a + b';
      assert (a + b)[|a + b| - 1] == b[|b| - 1];
      var before := RunOf(outcomeOf, a + b');
      assert RunOf(outcomeOf, a + b)
          == RunOutcome(before.changes + ChangesOf(last), before.writes + last.writes, before.tagReads + last.tagReads);
      RunOfConcat(outcomeOf, a, b');
      var y := RunOf(outcomeOf, b');
      assert RunOf(outcomeOf, b)
          == RunOutcome(y.changes + ChangesOf(last), y.writes + last.writes, y.tagReads + last.tagReads);
      assert x.changes + y.changes + ChangesOf(last) == x.changes + (y.changes + ChangesOf(last));
      assert x.writes + y.writes + last.writes == x.writes + (y.writes + last.writes);
      assert x.tagReads + y.tagReads + last.tagReads == x.tagReads + (y.tagReads + last.tagReads);
    }
  }

  /**
   * Rules are processed independently: the run over `a + b` reports the
   * changes and makes the calls of the run over `a`, then those of the run over
   * `b`. A failing rule costs only its own change.
   */
  lemma ProcessRulesConcat(bus: Bus, a: seq<Rule>, b: seq<Rule>, decide: Decider)
    ensures ProcessRulesSpec(bus, a + b, decide)
         == RunOutcome(ProcessRulesSpec(bus, a, decide).changes + ProcessRulesSpec(bus, b, decide).changes,
                       ProcessRulesSpec(bus, a, decide).writes + ProcessRulesSpec(bus, b, decide).writes,
                       ProcessRulesSpec(bus, a, decide).tagReads + ProcessRulesSpec(bus, b, decide).tagReads)
  {
    RunOfConcat((rule: Rule) => ProcessRuleSpec(bus, rule, decide), a, b);
  }

  /** One more rule of the run. */
  lemma ProcessRulesStep(bus: Bus, rules: seq<Rule>, i: int, decide: Decider)
    requires 0 <= i < |rules|
    ensures var next := ProcessRulesSpec(bus, rules[..i + 1], decide);
      var before := ProcessRulesSpec(bus, rules[..i], decide);
      var step := ProcessRuleSpec(bus, rules[i], decide);
      && next.changes == before.changes + ChangesOf(step)
      && next.writes == before.writes + step.writes
      && next.tagReads == before.tagReads + step.tagReads
  {
    assert rules[..i + 1][..i] == rules[..i];
  }

  /**
   * The run asks for the tags of exactly the rules listed with a name, in rule
   * order, whatever befalls each of them afterwards.
   */
  lemma {:induction false} TagReadsOfRun(bus: Bus, rules: seq<Rule>, decide: Decider)
    ensures ProcessRulesSpec(bus, rules, decide).tagReads == NamedArns(rules)
    decreases |rules|
  {
    if rules != [] {
      var n := |rules| - 1;
      ProcessRulesStep(bus, rules, n, decide);
      assert rules[..n + 1] == rules;
      TagReadsOfRun(bus, rules[..n], decide);
      RuleChangeAfterWrite(bus, rules[n], decide);
    }
  }

  /** A rule listed without a name is skipped before its tags are read. */
  lemma NamelessRuleSkipped(bus: Bus, rule: Rule, decide: Decider)
    requires rule.name.None?
    ensures ProcessRuleSpec(bus, rule, decide) == Skipped
  {
  }

  /** A skipped rule leaves the run as it was. */
  lemma ProcessRulesSkipStep(bus: Bus, rules: seq<Rule>, i: int, decide: Decider)
    requires 0 <= i < |rules|
    requires ProcessRuleSpec(bus, rules[i], decide) == Skipped
    ensures ProcessRulesSpec(bus, rules[..i + 1], decide) == ProcessRulesSpec(bus, rules[..i], decide)
  {
    ProcessRulesStep(bus, rules, i, decide);
    var x := ProcessRulesSpec(bus, rules[..i], decide);
    assert x.changes + [] == x.changes && x.writes + [] == x.writes && x.tagReads + [] == x.tagReads;
  }

  lemma AppendAssociative<T>(a: seq<T>, b: seq<T>, c: seq<T>)
    ensures a + b + c == a + (b + c)
  {
  }

  // ----- Examples -----

  function ExampleTags(): seq<Tag> {
    [Tag("scheduled-event-adjuster:enabled", ""),
     Tag("scheduled-event-adjuster:local-timezone", "Europe/Madrid"),
     Tag("scheduled-event-adjuster:local-time", "10:00")]
  }

  /** The three tags of the example rule are found under the rule keys. */
  lemma ExampleLookups(tags: seq<Tag>)
    requires tags == ExampleTags()
    ensures GetTagByKey(tags, EnabledTag) == Some("")
    ensures GetTagByKey(tags, LocalTimezoneTag) == Some("Europe/Madrid")
    ensures GetTagByKey(tags, LocalTimeTag) == Some("10:00")
  {
    assert GetTagByKey(tags, EnabledTag) == Some("") by {
      assert FirstWithKey(tags, EnabledTag, 0);
      FirstMatchWins(tags, EnabledTag, 0);
    }
    assert GetTagByKey(tags, LocalTimezoneTag) == Some("Europe/Madrid") by {
      assert tags[0].key != LocalTimezoneTag by {
        assert |tags[0].key| != |LocalTimezoneTag|;
      }
      assert FirstWithKey(tags, LocalTimezoneTag, 1);
      FirstMatchWins(tags, LocalTimezoneTag, 1);
    }
    assert tags[0].key != LocalTimeTag by {
      assert |tags[0].key| != |LocalTimeTag|;
    }
    assert tags[1].key != LocalTimeTag by {
      assert |tags[1].key| != |LocalTimeTag|;
    }
    assert FirstWithKey(tags, LocalTimeTag, 2);
    FirstMatchWins(tags, LocalTimeTag, 2);
  }

  /** A run over one rule is that rule's outcome. */
  lemma ProcessRulesOfOne(bus: Bus, rule: Rule, decide: Decider)
    ensures ProcessRulesSpec(bus, [rule], decide)
         == RunOutcome(ChangesOf(ProcessRuleSpec(bus, rule, decide)), ProcessRuleSpec(bus, rule, decide).writes,
                       ProcessRuleSpec(bus, rule, decide).tagReads)
  {
    var outcomeOf := (r: Rule) => ProcessRuleSpec(bus, r, decide);
    var o := ProcessRuleSpec(bus, rule, decide);
    assert [rule][..0] == [];
    assert RunOf(outcomeOf, [rule]) == RunOutcome([] + ChangesOf(o), [] + o.writes, [] + o.tagReads);
    assert [] + ChangesOf(o) == ChangesOf(o) && [] + o.writes == o.writes && [] + o.tagReads == o.tagReads;
  }

  /**
   * A rule on `cron(foo)` whose calculator answers `bar` is written as
   * `cron(bar)` and reported with both recurrences unwrapped; if the write
   * raises, the same call is made and nothing is reported.
   */
  lemma ExampleDifferentRecurrence(bus: Bus, decide: Decider)
    requires bus.rules == [Rule(Some("ruleName"), "ruleArn", "cron(foo)")]
    requires bus.tagsOf("ruleArn") == Some(ExampleTags())
    requires decide("foo", "10:00", "Europe/Madrid") == Ok("bar")
    ensures ProcessRulesSpec(bus, bus.rules, decide)
         == RunOutcome(if bus.updateFails("ruleName", "cron(bar)") then []
                       else [Change(EventBridgeRule, "ruleName", "ruleArn", "foo", "bar", "10:00", "Europe/Madrid", None)],
                       [RuleWrite("ruleName", "cron(bar)")], ["ruleArn"])
  {
    assert Unwrap("cron(foo)") == "foo" && Wrap("bar") == "cron(bar)";
    ExampleLookups(ExampleTags());
    var write := RuleWrite("ruleName", "cron(bar)");
    assert ProcessRuleSpec(bus, bus.rules[0], decide)
        == if bus.updateFails("ruleName", "cron(bar)") then RuleOutcome(None, [write], ["ruleArn"])
           else RuleOutcome(Some(Change(EventBridgeRule, "ruleName", "ruleArn", "foo", "bar", "10:00",
                                        "Europe/Madrid", None)), [write], ["ruleArn"]);
    ProcessRulesOfOne(bus, bus.rules[0], decide);
  }

  /**
   * tests/unit/processors/test_eventbridge.py:59-120 list a rule without a
   * `Name` and expect its tags to be asked for; in the code the missing name
   * raises first, so nothing at all is asked of the service.
   */
  lemma ExampleNamelessRule(bus: Bus, decide: Decider)
    requires bus.rules == [Rule(None, "ruleArn", "cron(foo)")]
    ensures ProcessRulesSpec(bus, bus.rules, decide) == RunOutcome([], [], [])
  {
    NamelessRuleSkipped(bus, bus.rules[0], decide);
    ProcessRulesOfOne(bus, bus.rules[0], decide);
  }

  // ----- The service and the processor -----

  /** The EventBridge client wrapper, recording every schedule update and every tag request asked of it. */
  class EventBridgeService {
    const bus: Bus
    var writes: seq<RuleWrite>
    var tagReads: seq<string>

    constructor (bus: Bus)
      ensures this.bus == bus && writes == [] && tagReads == []
    {
      this.bus := bus;
      writes := [];
      tagReads := [];
    }

    method GetScheduledRules() returns (rules: seq<Rule>)
      ensures rules == bus.rules
    {
      rules := bus.rules;
    }

    /** None stands for the exception the client raises. */
    method GetRuleTags(arn: string) returns (tags: Option<seq<Tag>>)
      modifies this
      ensures tags == bus.tagsOf(arn)
      ensures tagReads == old(tagReads) + [arn] && writes == old(writes)
    {
      tagReads := tagReads + [arn];
      tags := bus.tagsOf(arn);
    }

    /** The call is recorded whether or not it succeeds; false stands for the exception. */
    method UpdateRuleSchedule(name: string, expression: string) returns (ok: bool)
      modifies this
      ensures writes == old(writes) + [RuleWrite(name, expression)] && tagReads == old(tagReads)
      ensures ok == !bus.updateFails(name, expression)
    {
      writes := writes + [RuleWrite(name, expression)];
      ok := !bus.updateFails(name, expression);
    }
  }

  class EventBridgeProcessor {
    const eventbridgeService: EventBridgeService
    const recurrenceCalculator: RecurrenceCalculator

    constructor (eventbridgeService: EventBridgeService, recurrenceCalculator: RecurrenceCalculator)
      ensures this.eventbridgeService == eventbridgeService
      ensures this.recurrenceCalculator == recurrenceCalculator
    {
      this.eventbridgeService := eventbridgeService;
      this.recurrenceCalculator := recurrenceCalculator;
    }

    method ProcessResources() returns (changes: seq<Change>)
      requires recurrenceCalculator.Valid()
      modifies eventbridgeService
      ensures var o := ProcessRulesSpec(eventbridgeService.bus, eventbridgeService.bus.rules, recurrenceCalculator.decide);
        && changes == o.changes && eventbridgeService.writes == old(eventbridgeService.writes) + o.writes
        && eventbridgeService.tagReads == old(eventbridgeService.tagReads) + o.tagReads
    {
      changes := [];
      var rules := eventbridgeService.GetScheduledRules();
      ghost var bus := eventbridgeService.bus;
      ghost var decide := recurrenceCalculator.decide;
      ghost var run := RunOutcome([], [], []);
      var i := 0;
      while i < |rules|
        invariant 0 <= i <= |rules| && rules == bus.rules
        invariant run == ProcessRulesSpec(bus, rules[..i], decide)
        invariant changes == run.changes
        invariant eventbridgeService.writes == old(eventbridgeService.writes) + run.writes
        invariant eventbridgeService.tagReads == old(eventbridgeService.tagReads) + run.tagReads
      {
        ProcessRulesStep(bus, rules, i, decide);
        ghost var step := ProcessRuleSpec(bus, rules[i], decide);
        var change := ProcessRule(rules[i]);
        if change.Some? {
          changes := changes + [change.value];
        }
        AppendAssociative(old(eventbridgeService.writes), run.writes, step.writes);
        AppendAssociative(old(eventbridgeService.tagReads), run.tagReads, step.tagReads);
        run := RunOutcome(run.changes + ChangesOf(step), run.writes + step.writes, run.tagReads + step.tagReads);
        i := i + 1;
      }
      assert rules[..i] == rules;
    }

    /** One pass of the loop of `process_resources`: the `try` block and its `except`. */
    method ProcessRule(rule: Rule) returns (change: Option<Change>)
      requires recurrenceCalculator.Valid()
      modifies eventbridgeService
      ensures var o := ProcessRuleSpec(eventbridgeService.bus, rule, recurrenceCalculator.decide);
        && change == o.change && eventbridgeService.writes == old(eventbridgeService.writes) + o.writes
        && eventbridgeService.tagReads == old(eventbridgeService.tagReads) + o.tagReads
    {
      change := None;
      if rule.name.None? {
        return;
      }
      var tags := eventbridgeService.GetRuleTags(rule.arn);
      if tags.None? || GetTagByKey(tags.value, EnabledTag) == None {
        return;
      }
      var localTimezone := GetTagByKey(tags.value, LocalTimezoneTag);
      var localTime := GetTagByKey(tags.value, LocalTimeTag);
      if !Truthy(localTimezone) || !Truthy(localTime) {
        return;
      }
      var current := Unwrap(rule.scheduleExpression);
      var recurrence := recurrenceCalculator.CalculateRecurrence(current, localTime.value, localTimezone.value, None);
      if recurrence.Err? || recurrence.value == current {
        return;
      }
      var ok := eventbridgeService.UpdateRuleSchedule(rule.name.value, Wrap(recurrence.value));
      if ok {
        change := Some(Change(EventBridgeRule, rule.name.value, rule.arn, current, recurrence.value,
                              localTime.value, localTimezone.value, None));
      }
    }
  }
}

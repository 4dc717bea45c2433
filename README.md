# Scheduled event adjuster, modelled in Dafny

The scheduled event adjuster keeps AWS schedules on local time across
daylight-saving changes. Auto Scaling scheduled actions and EventBridge
rules fire on UTC cron expressions. The adjuster reads tags on each resource:
an enabled flag, a timezone, and the local time the event should fire at.
It asks whether the next UTC firing still lands on that local time. If it
does not, it rewrites the minute and hour fields of the cron expression and
reports one change record per rewritten schedule.

This project models the core of that program and proves properties of the
model:

- `cron.dfy` (module `Cron`): `parse_cron_expression`, checked against an
  independent tokenizer. `Split` takes a string apart into alternating
  tokens and gaps, and `Interleave` puts them back together. The parser is
  proved sound and complete with respect to that pair.
- `time_text.dfy` (module `TimeText`): the text formats the calculator
  touches. These are the `^\d+$` field check, `str()` of an integer,
  `strftime('%H:%M')`, and the `HH:MM` local time read from a tag.
- `recurrence.dfy` (module `Recurrence`):
  - `Calculate` is `calculate_recurrence` as a pure function of the clock
    reading and of a `World`. The world holds the cron library's next-firing
    computation and the timezone database's UTC offset at an instant.
  - The classes `TimeSource` and `RecurrenceCalculator` hold the injected
    clock. `CalculateRecurrence` reads the clock and delegates to `Calculate`.
- `tags.dfy` (module `Tags`): `get_tag_by_key`.
- `tag_keys.dfy` (module `TagKeys`): the tag keys `ResourceProcessor` builds
  from a prefix.
- `changes.dfy` (module `Changes`): the change records, and Python
  truthiness of a tag lookup.
- `autoscaling.dfy` (module `AutoScaling`): the prefixed Auto Scaling group
  processor.
  - `StageAction`, `StageActions`, `ProcessAsgSpec` and `ProcessAllSpec`
    specify the two loops.
  - The class `AutoScalingGroupProcessor` runs them imperatively against an
    `AutoScalingService`. The service records every batch update sent, and
    every group whose scheduled actions were listed.
  - An exception is an `Err` result. It ends the run, and update calls
    already made stay recorded.
- `legacy_processor.dfy` (module `LegacyProcessor`): the older processor. It
  has the same loops, with the tag keys fixed to constants. Its methods are
  proved against the same specification functions. `processor.py:45-81`
  repeats the action loop of `processors/autoscaling.py:42-75` line for line.
  So `StageScheduledActions` and `StageScheduledAction` are deliberately the
  same methods as in `AutoScaling`, under the fixed keys.
- `eventbridge.dfy` (module `EventBridge`): the EventBridge rule processor.
  - It strips `cron(` and `)`, and wraps the new recurrence again.
  - Each rule is isolated in its own `try`/`except`: a failing rule records
    nothing and the loop goes on.
  - `ProcessRuleSpec` and `ProcessRulesSpec` specify the loop. The class
    `EventBridgeProcessor` runs it against an `EventBridgeService`. The
    service records every schedule write, and every arn whose tags were
    asked for.

Instants are whole minutes since the Unix epoch. Offsets are minutes east of
UTC. The foreign libraries, the cloud services and the clock are inputs:

- `World.nextRun` stands for `crontab`;
- `World.utcOffset` stands for `pytz`;
- `Fleet` and `Bus` give the listings, tags and failure answers of the two
  services;
- `TimeSource.now` is the clock reading.

Where the code and its documentation or tests disagree, the model follows
the code:

- `recurrence.py:43-45` says an expression that is not selective on the hour
  is returned unchanged. In the code, the hour field must be all digits
  first (`recurrence.py:72-73`), so `*` raises `NotImplementedError`, and the
  early return at `recurrence.py:79-81` is never reached.
  `Recurrence.UnsupportedHoursExactly` proves this.
- Four tests of `tests/unit/processors/test_eventbridge.py` list a rule
  without a `Name`, `{'Arn': 'ruleArn'}`, and assert `get_rule_tags` was
  called once with `ruleArn`. These are the tests at lines 59-75, 77-89,
  91-103 and 105-120, with the assertions at lines 74, 88, 102 and 119. In
  the code, `rule['Name']` at `eventbridge.py:25` raises `KeyError` before
  `get_rule_tags` at line 27. The `except` swallows that error, so the rule
  is skipped and no tags are asked for. `EventBridge.NamelessRuleSkipped`
  states this, and `EventBridge.ExampleNamelessRule` states it for the
  tests' rule.
- `recurrence.py:43-45` says a start time more than a day in the future is
  skipped. The condition at `recurrence.py:87` counts whole days and asks for more
  than one, so only a start at least two whole days ahead is skipped; a start
  36 hours ahead is not. `Recurrence.StartsTooLateExactly` states the code's
  rule.
- The rest of a parsed expression is the input's tail verbatim, with only
  outer whitespace stripped. The gaps between the tail's fields are not
  normalised to single spaces.

The unit tests of the calculator are stated for any expression that parses
to the test's fields. This keeps the verifier from evaluating the recursive
splitter on a literal. The test's own string parses to those fields by
`Cron.ParseDaily`.

## Model

| member | source | states |
|---|---|---|
| Cron.TokenRun | adjust_schedule_function/lib/recurrence.py:9 | the measured token run holds no whitespace and ends at whitespace or at the end (`[^\s]+` is greedy) |
| Cron.GapRun | adjust_schedule_function/lib/recurrence.py:9 | the measured gap run is all whitespace and ends at a non-space character or at the end (`\s+` is greedy) |
| Cron.SplitSound | adjust_schedule_function/lib/recurrence.py:9 | what the splitter finds are tokens with a gap between each two, and together they make up the input |
| Cron.SplitStep | adjust_schedule_function/lib/recurrence.py:9 | a token, then a gap, then a soundly split rest, is split soundly |
| Cron.SplitInterleave | adjust_schedule_function/lib/recurrence.py:9 | the split of well-formed tokens and gaps is exactly those tokens and gaps, so the match groups are unique |
| Cron.SplitCons | adjust_schedule_function/lib/recurrence.py:9 | a token and a gap in front of a string add one token and one gap to its split |
| Cron.SplitToken | adjust_schedule_function/lib/recurrence.py:9 | a single token splits into itself |
| Cron.InterleaveEnds | adjust_schedule_function/lib/recurrence.py:9 | a string built from tokens and gaps begins and ends with a non-space character |
| Cron.TokenLengthOf | adjust_schedule_function/lib/recurrence.py:9 | a token followed by whitespace or the end is measured as the whole token |
| Cron.GapLengthOf | adjust_schedule_function/lib/recurrence.py:9 | a gap followed by a non-space character or the end is measured as the whole gap |
| Cron.StripGapThen | adjust_schedule_function/lib/recurrence.py:18 | `strip()` of a gap followed by a token-bounded string gives that string |
| Cron.RestIsTail | adjust_schedule_function/lib/recurrence.py:15-19 | group 3 stripped is the tokens from the third one on, with their gaps verbatim |
| Cron.ParseSound | adjust_schedule_function/lib/recurrence.py:8-19 | a successful parse comes from 5 or 6 well-formed tokens; minute and hour are the first two, and rest is the verbatim tail |
| Cron.ParsedFieldsAreTokens | adjust_schedule_function/lib/recurrence.py:9-17 | minute and hour are non-empty and hold no whitespace |
| Cron.DropFinalNewlineOf | adjust_schedule_function/lib/recurrence.py:9 | `$` also matches before one final newline; a string ending in a token loses only that newline |
| Cron.ParseInterleave | adjust_schedule_function/lib/recurrence.py:8-19 | any 5 or 6 tokens with any gaps, and at most one final newline, parse to token 1, token 2 and the verbatim tail |
| Cron.ParseOfSplit | adjust_schedule_function/lib/recurrence.py:10-19 | once the split is known with 5 or 6 tokens, the parse gives its first two tokens and the stripped rest |
| Cron.ParseRejectsFieldCount | adjust_schedule_function/lib/recurrence.py:12-13 | fewer than 5 or more than 6 fields never parse |
| Cron.ParseRejectsOuterSpace | adjust_schedule_function/lib/recurrence.py:9-13 | an expression that parses neither begins nor ends with whitespace, apart from one final newline |
| Cron.Stars | tests/unit/test_recurrence.py:10-18 | the `* * ...` tails of the test cases are well-formed runs of `*` tokens one space apart |
| Cron.ParseExampleSixFields | tests/unit/test_recurrence.py:10 | `30 15 * * * *` parses to `30`, `15`, `* * * *` |
| Cron.ParseExampleFiveFields | tests/unit/test_recurrence.py:11 | `30 15 * * *` parses to `30`, `15`, `* * *` |
| Cron.ParseExampleFourFields | tests/unit/test_recurrence.py:17 | `30 15 * *` is refused |
| Cron.ParseExampleSevenFields | tests/unit/test_recurrence.py:18 | `30 15 * * * * *` is refused |
| Cron.ParseExampleOneField | tests/unit/test_recurrence.py:19 | `foo` is refused |
| Cron.ParseExampleEmpty | adjust_schedule_function/lib/recurrence.py:9-13 | the empty string is refused |
| Cron.ParseTimeFieldsOver | adjust_schedule_function/lib/recurrence.py:8-19 | a minute token and an hour token written in front of a 3- or 4-field tail parse back to themselves and that tail |
| Cron.PrependTimeFields | adjust_schedule_function/lib/recurrence.py:122-124 | writing `m h tail` adds the two tokens and two single-space gaps in front of the tail's split |
| Cron.ParseDaily | tests/unit/test_recurrence.py:41-48 | a daily expression `m h * * *` parses to its minute, its hour and `* * *` |
| TimeText.Show | adjust_schedule_function/lib/recurrence.py:122-123 | `str(n)` writes decimal digits without a leading zero, denoting `n` |
| TimeText.DigitChar | adjust_schedule_function/lib/recurrence.py:122-123 | a digit below ten is written as a decimal digit character |
| TimeText.ParseFormatHHMM | adjust_schedule_function/lib/recurrence.py:105-115 | every minute of the day is read back from its `%H:%M` text |
| TimeText.FormatParseHHMM | adjust_schedule_function/lib/recurrence.py:109-115 | a local time that parses is already in the form `%H:%M` writes, and is below 24 hours |
| Recurrence.TimeSource.constructor | adjust_schedule_function/lib/recurrence.py:22-25 | the time source shows the given instant |
| Recurrence.TimeSource.GetCurrentUtcDatetime | adjust_schedule_function/lib/recurrence.py:24-25 | the reading is the current instant of the source |
| Recurrence.RecurrenceCalculator.constructor | adjust_schedule_function/lib/recurrence.py:31-35 | the given time source is kept; without one, a fresh source reading the system clock is made |
| Recurrence.RecurrenceCalculator.CalculateRecurrence | adjust_schedule_function/lib/recurrence.py:37-126 | the answer is the calculation at the clock's current reading; without a start time, it is the processors' decision function |
| Recurrence.CorrectedLandsOnWantedTime | adjust_schedule_function/lib/recurrence.py:114-116 | the replaced local time, taken back to UTC, shows the wanted time on the same local calendar day |
| Recurrence.UtcFieldsOfInstant | adjust_schedule_function/lib/recurrence.py:122-123 | the UTC minute is below 60 and the hour below 24, and together they give the instant's time of day |
| Recurrence.RebuildParses | adjust_schedule_function/lib/recurrence.py:122-124 | a rebuilt expression parses back to the new minute, the new hour and the untouched tail |
| Recurrence.RewriteBranch | adjust_schedule_function/lib/recurrence.py:66-126 | a changed answer comes only from a parsed expression with decimal fields, a near start, a known next run and offset, a parsable expected time and a local time that differs, and it is the corrected UTC minute and hour over the original tail |
| Recurrence.CorrectedFieldsShowWanted | adjust_schedule_function/lib/recurrence.py:114-124 | the new UTC minute and hour, read on the local clock, are the expected time |
| Recurrence.ShownFieldsShowLocalTime | adjust_schedule_function/lib/recurrence.py:122-124 | fields written by `str()` denote their numbers and show the wanted local time |
| Recurrence.RebuildShape | adjust_schedule_function/lib/recurrence.py:114-124 | the rewritten expression parses, keeps the tail, has minute below 60 and hour below 24, and shows the expected local time |
| Recurrence.CorrectionShape | adjust_schedule_function/lib/recurrence.py:114-126 | every rewrite keeps every field but minute and hour, has 0 <= m <= 59 and 0 <= h <= 23, and fires at the expected local time under the next run's offset |
| Recurrence.LocalTimeOfTimeOfDay | adjust_schedule_function/lib/recurrence.py:104-105 | the local clock reading depends only on the UTC time of day |
| Recurrence.FiringShowsLocalTime | adjust_schedule_function/lib/recurrence.py:104-109 | an expression firing at an instant, whose fields show the wanted local time, fires at that local time |
| Recurrence.CorrectExpressionKept | adjust_schedule_function/lib/recurrence.py:109-111 | an expression that already fires at the expected local time is returned exactly as given |
| Recurrence.CalculateIdempotent | adjust_schedule_function/lib/recurrence.py:109-126 | run again on its own answer, under the same clock and offset, the calculator keeps the answer, provided the cron library's next run of the answer falls at the time its fields name |
| Recurrence.UnsupportedHoursExactly | adjust_schedule_function/lib/recurrence.py:72-81 | the hour is refused exactly when it holds a non-digit, `*` included, so the `*` branch is unreachable |
| Recurrence.NoLaterUnsupported | adjust_schedule_function/lib/recurrence.py:72-126 | past the hour check, no error is an unsupported-hours error |
| Recurrence.UnsupportedMinutesExactly | adjust_schedule_function/lib/recurrence.py:74-75 | with a decimal hour, the minute is refused exactly when it holds a non-digit |
| Recurrence.StartsTooLateExactly | adjust_schedule_function/lib/recurrence.py:87 | `(start - now).days > 1` holds exactly when the start is at least two whole days ahead |
| Recurrence.DistantStartKept | adjust_schedule_function/lib/recurrence.py:87-89 | a supported expression with a start two days away or more is returned unchanged, whatever the world |
| Recurrence.RewriteOf | adjust_schedule_function/lib/recurrence.py:113-126 | the rewrite branch, once every earlier test passes, gives the corrected UTC minute and hour over the tail |
| Recurrence.KeepOf | adjust_schedule_function/lib/recurrence.py:109-111 | matching local times keep the expression |
| Recurrence.HalfPastMidnightClock | tests/unit/test_recurrence.py:41-42 | 00:30Z is 01:30 in Madrid in January, and 11:00 there is written back as `0 10 * * *` |
| Recurrence.QuarterPastEightClock | tests/unit/test_recurrence.py:43 | 08:15Z is 09:15 in Madrid in January, and 23:30 there is written back as `30 22 * * *` |
| Recurrence.MadridCorrectsHalfPastMidnight | tests/unit/test_recurrence.py:41-42 | `30 0 * * *` aimed at 11:00 Madrid becomes `0 10 * * *`, with or without a past start |
| Recurrence.MadridCorrectsQuarterPastEight | tests/unit/test_recurrence.py:43 | `15 8 * * *` aimed at 23:30 Madrid becomes `30 22 * * *` |
| Recurrence.MadridKeepsTenOClock | tests/unit/test_recurrence.py:45 | `0 10 * * *` aimed at 11:00 Madrid is kept |
| Recurrence.MadridKeepsHalfPastTen | tests/unit/test_recurrence.py:46 | `30 22 * * *` aimed at 23:30 Madrid is kept |
| Recurrence.MadridKeepsDistantStart | tests/unit/test_recurrence.py:48 | `0 15 * * *` with a start two days away is kept, whatever the world |
| Recurrence.HourRangesAndListsRefused | tests/unit/test_recurrence.py:73-87 | `0 6-9 * * *` and `0 6,7 * * *` raise the multiple-hours error |
| Recurrence.MinuteRangesAndListsRefused | tests/unit/test_recurrence.py:73-87 | `0-3 0 * * *` and `0,1 0 * * *` raise the multiple-minutes error |
| Recurrence.DailyRefused | adjust_schedule_function/lib/recurrence.py:72-75 | a daily expression with a non-digit in the hour raises the multiple-hours error; with a decimal hour and a non-digit in the minute, the multiple-minutes error |
| Tags.Matching | adjust_schedule_function/lib/utils.py:5 | the filter keeps exactly the tags with the key, and no more tags than it was given |
| Tags.MatchingConcat | adjust_schedule_function/lib/utils.py:5 | filtering a concatenation concatenates the filtered parts |
| Tags.FirstMatchWins | adjust_schedule_function/lib/utils.py:5-7 | the lookup returns the value of the first tag, in list order, with the key |
| Tags.FoundIsFirst | adjust_schedule_function/lib/utils.py:5-7 | a value found is the value of the first tag with the key |
| Tags.NoneExactlyWhenAbsent | adjust_schedule_function/lib/utils.py:6-8 | the lookup gives None exactly when no tag has the key |
| Tags.EmptyValueIsPresent | adjust_schedule_function/lib/utils.py:6-7 | a present tag with the empty value yields the empty string, not None |
| Tags.OtherKeysIrrelevant | adjust_schedule_function/lib/utils.py:5 | adding or removing a tag with another key leaves the lookup unchanged |
| Tags.LookupExample | tests/unit/test_utils.py:8-12 | `foo` is found with `bar`, and `nope` is not found |
| TagKeys.KeysArePrefixedAndDistinct | adjust_schedule_function/lib/processors/base.py:8-23 | each key is the prefix, a colon and its own name (`enabled`, `local-timezone`, `local-time`), and the three are pairwise distinct |
| TagKeys.PrefixDeterminesKeys | adjust_schedule_function/lib/processors/base.py:8-23 | two processors that share one base key of the same kind (enabled, timezone or local time) have the same prefix |
| TagKeys.CrossKindKeysDiffer | adjust_schedule_function/lib/processors/base.py:8-23 | an enabled key never equals a timezone or local-time key, and a timezone key never equals a local-time key, whatever the two prefixes |
| TagKeys.ActionKeyMeetsOtherPrefix | adjust_schedule_function/lib/processors/autoscaling.py:46 | an action's local-time key can equal a base key of another prefix: action `foo:enabled` under `x` gives the enabled key of `x:local-time:foo` |
| TagKeys.ActionTimeKeysAreSeparate | adjust_schedule_function/lib/processors/autoscaling.py:46 | an action's local-time key is neither the enabled nor the timezone key, and different actions get different keys |
| AutoScaling.StageAction | adjust_schedule_function/lib/processors/autoscaling.py:43-75 | a staged pair has the action's name, the new recurrence and the unchanged capacity; the new recurrence differs from the original and is the calculator's answer to (recurrence, local time, timezone); the local time is the non-empty tag value; the record names the group and the action |
| AutoScaling.StagedExactlyWhenChanged | adjust_schedule_function/lib/processors/autoscaling.py:54-64 | an action with a local time is staged exactly when the calculated recurrence differs from the current one |
| AutoScaling.UntimedActionSkipped | adjust_schedule_function/lib/processors/autoscaling.py:44-50 | an action whose local-time tag is absent or empty is skipped |
| AutoScaling.StageActionsConcat | adjust_schedule_function/lib/processors/autoscaling.py:42-75 | the action loop over `a + b` is the loop over `a`, then the loop over `b` |
| AutoScaling.StageActionsFailIff | adjust_schedule_function/lib/processors/autoscaling.py:42-75 | the action loop fails exactly when some action fails |
| AutoScaling.FailingAction | adjust_schedule_function/lib/processors/autoscaling.py:42-75 | a failed action loop names an action whose own staging failed |
| AutoScaling.FailingActionFails | adjust_schedule_function/lib/processors/autoscaling.py:42-75 | one failing action makes the whole action loop fail, wherever it sits in the list |
| AutoScaling.StagedIsAligned | adjust_schedule_function/lib/processors/autoscaling.py:57-75 | updates and change records have equal length and pair up index by index, at most one pair per action |
| AutoScaling.StagedFromActions | adjust_schedule_function/lib/processors/autoscaling.py:42-75 | on success every action succeeds, and every pair an action stages is among the staged lists |
| AutoScaling.NotEnabledSkipped | adjust_schedule_function/lib/processors/autoscaling.py:28-39 | without the enabled tag, a group yields nothing and makes no service call: no update, and no listing of its actions |
| AutoScaling.NoTimezoneSkipped | adjust_schedule_function/lib/processors/autoscaling.py:33-39 | with a missing or empty timezone, a group yields nothing and makes no service call: no update, and no listing of its actions |
| AutoScaling.ListsActionsExactlyWhenTagged | adjust_schedule_function/lib/processors/autoscaling.py:28-39 | a group's scheduled actions are listed, once, exactly when it has the enabled tag and a non-empty timezone |
| AutoScaling.ListingsOfSuccessfulRun | adjust_schedule_function/lib/processors/autoscaling.py:13-39 | a run that succeeds has listed the actions of exactly its tagged groups, in group order |
| AutoScaling.EnabledWithAnyValue | adjust_schedule_function/lib/processors/autoscaling.py:28-37 | an enabled tag with any value, the empty one included, lets the group's actions be processed |
| AutoScaling.AtMostOneUpdateCall | adjust_schedule_function/lib/processors/autoscaling.py:39-88 | at most one update call per group, made only after its actions were listed, with a non-empty batch and none when nothing changed; failed entries raise an error naming their count; otherwise one change per update |
| AutoScaling.RunOfConcat | adjust_schedule_function/lib/processors/autoscaling.py:16-18 | a run over `a + b` is the run over `a`, then (unless it failed) the run over `b` |
| AutoScaling.ProcessAllConcat | adjust_schedule_function/lib/processors/autoscaling.py:13-20 | `process_resources` over `a + b` concatenates the changes and calls of the two runs, stopping at a failure |
| AutoScaling.ThenAssociative | adjust_schedule_function/lib/processors/autoscaling.py:18 | sequencing group outcomes is associative |
| AutoScaling.ProcessAllOfOne | adjust_schedule_function/lib/processors/autoscaling.py:16-18 | successful runs report each group's changes after the earlier groups' changes |
| AutoScaling.StageStep | adjust_schedule_function/lib/processors/autoscaling.py:42-75 | one more pass of the action loop appends that action's pair, or stops at its error |
| AutoScaling.StageErrorSticky | adjust_schedule_function/lib/processors/autoscaling.py:42-75 | an error in the first actions is the error of the whole loop |
| AutoScaling.StageActionsOfOne | adjust_schedule_function/lib/processors/autoscaling.py:42-75 | the loop over a single action is that action's result |
| AutoScaling.ProcessAllOfOneGroup | adjust_schedule_function/lib/processors/autoscaling.py:13-20 | a run over a single group is that group's outcome |
| AutoScaling.ProcessAllStep | adjust_schedule_function/lib/processors/autoscaling.py:16-18 | one more group of the run sequences that group's outcome after the earlier ones |
| AutoScaling.RunOfAgrees | adjust_schedule_function/lib/processors/autoscaling.py:13-20 | a run is determined by the outcomes of its own groups |
| AutoScaling.RunOfNext | adjust_schedule_function/lib/processors/autoscaling.py:16-18 | after a successful prefix, one more group appends its calls and its changes or its error |
| AutoScaling.RunOfErrorSticky | adjust_schedule_function/lib/processors/autoscaling.py:16-18 | an error in the first groups ends the whole run |
| AutoScaling.ThenAfterError | adjust_schedule_function/lib/processors/autoscaling.py:16-18 | nothing runs after a failure |
| AutoScaling.ExampleKeys | tests/unit/processors/test_autoscaling.py:10-41 | the prefix `foo:bar` gives the keys the test tags use |
| AutoScaling.ExampleLookups | tests/unit/processors/test_autoscaling.py:15-28 | the test group's three tags are found |
| AutoScaling.ExampleTags | tests/unit/processors/test_autoscaling.py:10-41 | the processor with prefix `foo:bar` finds the enabled flag, `Europe/Madrid` and `10:00` |
| AutoScaling.ExampleStaging | tests/unit/processors/test_autoscaling.py:10-181 | the test action is staged with its new recurrence and capacity 123 exactly when the calculator changes it |
| AutoScaling.ExampleDifferentRecurrence | tests/unit/processors/test_autoscaling.py:10-74 | one update call with `NewRecurrence` and capacity 123, and one change naming group, ARN, both recurrences, local time, timezone and action |
| AutoScaling.ExampleSameRecurrence | tests/unit/processors/test_autoscaling.py:142-181 | an unchanged recurrence makes no update call and reports nothing |
| AutoScaling.ExampleWithoutEnabledTag | tests/unit/processors/test_autoscaling.py:183-197 | a group with no tags reports nothing, and neither lists its actions nor updates them |
| AutoScaling.ExampleWithoutTimezoneTag | tests/unit/processors/test_autoscaling.py:199-213 | a group with only the enabled tag reports nothing, and neither lists its actions nor updates them |
| AutoScaling.AutoScalingService.constructor | adjust_schedule_function/lib/services.py:5-9 | the service starts with no update calls and no listings recorded |
| AutoScaling.AutoScalingService.GetAsgs | adjust_schedule_function/lib/processors/autoscaling.py:16 | the groups are the fleet's groups |
| AutoScaling.AutoScalingService.GetAsgScheduledActions | adjust_schedule_function/lib/processors/autoscaling.py:39 | the actions are the fleet's actions of the group, and the listing is recorded |
| AutoScaling.AutoScalingService.UpdateAsgScheduledActions | adjust_schedule_function/lib/processors/autoscaling.py:81-84 | the call is recorded, and the answer is the fleet's count of failed entries |
| AutoScaling.AutoScalingGroupProcessor.constructor | adjust_schedule_function/lib/processors/autoscaling.py:8-11 | the processor keeps the prefix, the service and the calculator |
| AutoScaling.AutoScalingGroupProcessor.ProcessResources | adjust_schedule_function/lib/processors/autoscaling.py:13-20 | the result, the recorded update calls and the recorded listings are those of the group-by-group run over the service's groups |
| AutoScaling.AutoScalingGroupProcessor.ProcessAsg | adjust_schedule_function/lib/processors/autoscaling.py:22-88 | the result, the new update calls and the new listings are the group's outcome under this processor's keys and calculator |
| AutoScaling.AutoScalingGroupProcessor.StageScheduledActions | adjust_schedule_function/lib/processors/autoscaling.py:40-75 | the loop yields the staged updates and records of the action-loop specification, or its first error |
| AutoScaling.AutoScalingGroupProcessor.StageScheduledAction | adjust_schedule_function/lib/processors/autoscaling.py:43-75 | one pass yields the pass of the specification for that action |
| LegacyProcessor.LegacyKeysAreDefaultPrefixed | adjust_schedule_function/lib/processor.py:5-12 | the three constants are the keys the prefixed processor builds from `scheduled-event-adjuster` |
| LegacyProcessor.AutoScalingGroupProcessor.constructor | adjust_schedule_function/lib/processor.py:14-16 | the processor keeps the service and the calculator |
| LegacyProcessor.AutoScalingGroupProcessor.ProcessResources | adjust_schedule_function/lib/processor.py:18-25 | the result, the recorded update calls and the recorded listings are those of the group-by-group run under the fixed keys |
| LegacyProcessor.AutoScalingGroupProcessor.ProcessAsg | adjust_schedule_function/lib/processor.py:27-94 | the result, the new update calls and the new listings are the group's outcome under the fixed keys |
| LegacyProcessor.AutoScalingGroupProcessor.StageScheduledActions | adjust_schedule_function/lib/processor.py:45-81 | the loop yields the staged updates and records of the action-loop specification, or its first error |
| LegacyProcessor.AutoScalingGroupProcessor.StageScheduledAction | adjust_schedule_function/lib/processor.py:48-81 | one pass yields the pass of the specification for that action |
| EventBridge.UnwrapWrap | adjust_schedule_function/lib/processors/eventbridge.py:51-59 | stripping `cron(` and `)` from a wrapped recurrence gives the recurrence back |
| EventBridge.WrapUnwrap | adjust_schedule_function/lib/processors/eventbridge.py:51-59 | a `cron(...)` expression is the wrapping of its stripped text |
| EventBridge.RuleKeysAreDefaultPrefixed | adjust_schedule_function/lib/processors/eventbridge.py:5-12 | the constants are the keys of prefix `scheduled-event-adjuster` |
| EventBridge.RewrittenWhenChanged | adjust_schedule_function/lib/processors/eventbridge.py:29-71 | a named rule with the enabled tag, a timezone, a local time and a changed calculated recurrence is written once as `cron(new)`, and reports a change exactly when the write succeeds |
| EventBridge.RuleChangeAfterWrite | adjust_schedule_function/lib/processors/eventbridge.py:24-71 | the "only when" direction, whose converse is `RewrittenWhenChanged`: at most one write per rule, only for a different recurrence and wrapped in `cron(...)`; a change is recorded exactly when the write succeeds, and names the rule, both unwrapped recurrences, the local time and the timezone; the rule's tags are asked for exactly when it has a name |
| EventBridge.UntaggedRuleSkipped | adjust_schedule_function/lib/processors/eventbridge.py:29-45 | a rule without the enabled tag, or with a falsy timezone or local time, is left alone: no write and no change, only its tags asked for |
| EventBridge.SameRecurrenceNoWrite | adjust_schedule_function/lib/processors/eventbridge.py:56 | an unchanged recurrence writes nothing and records nothing, once the tags were asked for |
| EventBridge.RunOfConcat | adjust_schedule_function/lib/processors/eventbridge.py:23-71 | a run over `a + b` reports and writes what the run over `a` does, then what the run over `b` does |
| EventBridge.ProcessRulesConcat | adjust_schedule_function/lib/processors/eventbridge.py:23-71 | rules are processed independently: a failing rule costs only its own change and the loop goes on |
| EventBridge.ProcessRulesStep | adjust_schedule_function/lib/processors/eventbridge.py:23-71 | one more rule appends its change, its writes and its tag requests |
| EventBridge.TagReadsOfRun | adjust_schedule_function/lib/processors/eventbridge.py:23-27 | a run asks for the tags of exactly the rules listed with a name, in rule order |
| EventBridge.NamelessRuleSkipped | adjust_schedule_function/lib/processors/eventbridge.py:24-27 | a rule listed without a name is skipped with no change, no write, and no request for its tags |
| EventBridge.ProcessRulesSkipStep | adjust_schedule_function/lib/processors/eventbridge.py:23-71 | a rule skipped before anything is asked of the service leaves the run as it was |
| EventBridge.ExampleLookups | tests/unit/processors/test_eventbridge.py:9-13 | the test rule's enabled flag, `Europe/Madrid` and `10:00` are found |
| EventBridge.ProcessRulesOfOne | adjust_schedule_function/lib/processors/eventbridge.py:18-73 | a run over a single rule is that rule's outcome |
| EventBridge.ExampleDifferentRecurrence | tests/unit/processors/test_eventbridge.py:7-57 | `cron(foo)` answered with `bar` is written as `cron(bar)` and recorded with both recurrences unwrapped, after one request for the tags of `ruleArn`; if the write raises, the same write is made and nothing is recorded |
| EventBridge.ExampleNamelessRule | tests/unit/processors/test_eventbridge.py:59-120 | the tests' rule without a name reports nothing, writes nothing and asks for no tags |
| EventBridge.EventBridgeService.constructor | adjust_schedule_function/lib/services.py:36-40 | the service starts with no writes and no tag requests recorded |
| EventBridge.EventBridgeService.GetScheduledRules | adjust_schedule_function/lib/processors/eventbridge.py:21 | the rules are the bus's rules |
| EventBridge.EventBridgeService.GetRuleTags | adjust_schedule_function/lib/processors/eventbridge.py:27 | the tags are the bus's tags of the rule, None where the call raises, and the request is recorded |
| EventBridge.EventBridgeService.UpdateRuleSchedule | adjust_schedule_function/lib/processors/eventbridge.py:58-59 | the write is recorded, and it succeeds exactly when the bus accepts it |
| EventBridge.EventBridgeProcessor.constructor | adjust_schedule_function/lib/processors/eventbridge.py:14-16 | the processor keeps the service and the calculator |
| EventBridge.EventBridgeProcessor.ProcessResources | adjust_schedule_function/lib/processors/eventbridge.py:18-73 | the changes, the recorded writes and the recorded tag requests are those of the rule-by-rule run over the listed rules |
| EventBridge.EventBridgeProcessor.ProcessRule | adjust_schedule_function/lib/processors/eventbridge.py:24-71 | one pass, the `try` body and its `except`, gives the rule's specified change, writes and tag requests |

## Left out

- The `crontab` next-run computation (`recurrence.py:101-103`) is an input, `World.nextRun`. The model takes the next firing instant directly. It does not model the library counting from its own clock while the result is added to the injected one.
- The `pytz` conversions (`recurrence.py:104`, `recurrence.py:116`) are an input, `World.utcOffset`. The corrected local time keeps the next run's offset, as `replace` keeps the tzinfo of `local_next_run`.
- The extra second added to the `timedelta` (`recurrence.py:102`) is left out. Instants are whole minutes, so seconds and floating-point precision are not modelled.
- `dateutil`'s parsing of the expected time (`recurrence.py:114-115`) is modelled as a strict `HH:MM` parse. Other spellings that `dateutil` accepts are treated as a parse failure.
- `\d` is modelled as the ASCII digits. Python's regex also accepts other Unicode decimal digits.
- `None` and `False` inputs to `parse_cron_expression` (`tests/unit/test_recurrence.py:20-21`) cannot be stated: the model's input is always a string.
- All `print` logging is left out.
- `TimeSource.get_current_utc_datetime` reads the system clock. In the model the reading is the `now` field. The processors' decision function is taken at construction, and their contracts hold while that clock reading is unchanged (`RecurrenceCalculator.Valid`).
- `lib/autoscaling.py`, `lib/events.py` and `adjust_schedule/app.py` are not part of this model. `lib/services.py` is modelled only by the stand-in classes `AutoScalingService` and `EventBridgeService`. They give the listings and answers the processors consume, and record the calls made. The boto3 pagination and the filter of rules by `ScheduleExpression` (`services.py:53`) are not modelled. The service calls made outside a `try` never raise in the model. These are `get_asgs`, `get_asg_scheduled_actions` and `update_asg_scheduled_actions` (`processors/autoscaling.py:16`, `39`, `81`), and `get_scheduled_rules` (`processors/eventbridge.py:21`). In the source, an exception from one of them escapes `process_resources`; `Fleet` and `Bus` cannot express it.
- The fields `Arn` and `ScheduleExpression` of a rule, and `AutoScalingGroupName`, `AutoScalingGroupARN`, `Tags` and `ScheduledActionName` of a group or action, are always present in the model. So the `KeyError`s their lookups could raise are not modelled; the AWS listings always include these fields. The absent `Name` of a rule, and the absent `Recurrence` and `DesiredCapacity` of an action, are modelled.
- `tests/unit/test_processor.py` and `tests/unit/test_autoscaling.py` target an older `process_asg` interface, so the legacy processor has no example lemmas.
- The text of the exceptions is not modelled. Each exception is a constructor of an error datatype; the count in `ActionsFailedToUpdate` is kept.

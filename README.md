# EC2 scheduler decision core, modelled in Dafny

The EC2 scheduler runs as an AWS Lambda function about once an hour. In every
region it lists the instances and looks at each tag whose key starts with the
configured custom tag name. The tag value is `start;stop;timezone;days`, with
fields optional from the right. It is resolved against the fleet defaults, and
the instance goes on the region's start list or stop list when:

- its trigger time lies between `nowMax` (59 minutes ago) and `now`, both
  "HHMM" strings compared as strings;
- today is an active day;
- it is in the right state: stopped for a start, running for a stop.

Each non-empty list then becomes one batch `start()` or `stop()` call. When
CloudWatch metrics are enabled, the handler also posts the instance's current
state and each decision as metric points.

This model covers that decision core, from `lambda_handler`. The clock, the
inventory and the failures of the cloud calls are inputs. The batch calls and
the metric points are outputs.

Files, one module per component:

- `text.dfy` — `Text`: Python's `str.split`, `str.lower` and string order
  (`LexLe`), with the lemmas the rest needs (split/join round trip, total order).
- `window.dfy` — `Window`: the window test `InWindow`, and the "%H%M"
  rendering of a minute of the day (`Hhmm`, `NowMax`). It shows that rendered
  times sort like minutes, and that the window is empty in the first 59
  minutes after midnight.
- `days.dfy` — `Days`: the days interpreter. `ActiveDay` is the specification
  and `DaysInterpreter` is the handler's token loop, proved equal to it.
  `DayExamples` holds worked day lists.
- `tag_parser.dfy` — `TagParser`: the fleet `Defaults`, the resolved
  `Schedule`, the closed-form `Resolve`, and `ParseTag`, the handler's
  step-by-step reassignment proved equal to `Resolve`.
- `scheduler.dfy` — `Scheduler`: instances, tags, regions, the decision rule
  `Wants`, and the per-tag, per-instance, per-region and whole-run
  specification functions (`TagStep`, `TagsDecisions`, `InstancesDecisions`,
  `BatchCalls`, `RegionRun`, `Run`). The tag loop and the instance loop share
  one fold, `Concat`, whose ordering and membership lemmas are proved once.
  The loop methods `HandleTag` (with its blocks `PostState` and `Decide`),
  `HandleInstance`, `ScheduleRegion` and `LambdaHandler` are proved to compute
  exactly these functions. `SchedulerExamples` holds a worked decision.

Modelling choices:

- The clock is read inside the region loop, so every `RegionInput` carries its
  own `Clock`.
- A region whose instance listing raises has `inventory == None` and is
  skipped.
- `startCallFails` models a batch `start()` that raises. The region's `stop()`
  is then never reached.
- `Run` is a function of its inputs, so two runs on the same inputs make the
  same decisions.

The handler's code decides these points, which are easy to misread:

- Fields are not trimmed.
- The keyword `default`/`true` in field 0 resets only the start time. The stop
  time keeps the default stop time unless field 1 is present.
- A missing field 1 copies the start time into the stop time only when field 0
  is not the keyword.
- A default `daysActive` is never lower-cased before the `all`/`weekdays`
  test.
- The timezone is parsed and never used.
- A metric call that raised would abort the rest of its region, because the
  handler's `try` covers the whole region.

## Model

| member | source | states |
|---|---|---|
| `Text.Split` | lambda/ec2-scheduler/ec2-scheduler.py:87 | `split` always yields at least one piece and no piece contains the separator |
| `Text.SplitThenJoin` | lambda/ec2-scheduler/ec2-scheduler.py:87 | joining the pieces of a split with the separator gives back the tag value |
| `Text.JoinThenSplit` | lambda/ec2-scheduler/ec2-scheduler.py:87 | splitting a join of separator-free fields gives back exactly those fields |
| `Text.Lower` | lambda/ec2-scheduler/ec2-scheduler.py:108 | `lower()` keeps the length, leaves no upper-case letter and keeps every other character |
| `Text.LowerIdempotent` | lambda/ec2-scheduler/ec2-scheduler.py:116-118 | lower-casing an already lower-cased field changes nothing |
| `Text.SplitLower` | lambda/ec2-scheduler/ec2-scheduler.py:131-132 | splitting a lower-cased string on a non-letter separator gives exactly the lower-cased pieces |
| `Text.LexLeTransitive` | lambda/ec2-scheduler/ec2-scheduler.py:136-137 | Python's string `<=` used by the window test is transitive |
| `Text.LexLeTotal` | lambda/ec2-scheduler/ec2-scheduler.py:136-137 | any two strings are comparable under string `<=` |
| `Text.LexLeAntisymmetric` | lambda/ec2-scheduler/ec2-scheduler.py:136-137 | two strings each `<=` the other are equal |
| `Window.WindowNonEmptyOnlyIfOrdered` | lambda/ec2-scheduler/ec2-scheduler.py:136-137 | a time can be in the window only if `nowMax <= now` as strings |
| `Window.HhmmOrder` | lambda/ec2-scheduler/ec2-scheduler.py:66-68 | "%H%M" renderings sort exactly as the minutes of the day they stand for |
| `Window.WindowOrderedIffPastLookBack` | lambda/ec2-scheduler/ec2-scheduler.py:66-68 | `nowMax <= now` holds exactly from 00:59 on; before that the 59-minute subtraction wraps to "23xx" |
| `Window.RenderedWindow` | lambda/ec2-scheduler/ec2-scheduler.py:136-137 | from 00:59 on, a rendered time is in the window iff it is 0 to 59 minutes before now |
| `Window.NothingDueBeforeLookBack` | lambda/ec2-scheduler/ec2-scheduler.py:66-68 | in the first 59 minutes of the day no string at all is in the window |
| `Days.DaysInterpreter` | lambda/ec2-scheduler/ec2-scheduler.py:120-133 | the token loop's flag equals `ActiveDay`: "all" every day, "weekdays" Monday to Friday, otherwise some lower-cased token equals today |
| `Days.TagDaysAlreadyLower` | lambda/ec2-scheduler/ec2-scheduler.py:117-133 | for a day list taken from the tag, already lower-cased at assignment, the per-token `lower()` is redundant: the day is active iff some token already equals today's name |
| `Days.TokenOrderIrrelevant` | lambda/ec2-scheduler/ec2-scheduler.py:129-133 | two day lists holding the same tokens, in any order and with any repetitions, give the same verdict |
| `Days.ListActive` | lambda/ec2-scheduler/ec2-scheduler.py:129-133 | a list written from comma-free tokens is active iff one token, lower-cased, is today's name |
| `Days.SingleToken` | lambda/ec2-scheduler/ec2-scheduler.py:129-133 | a comma-free non-keyword value is active iff its lower-cased form is today's name |
| `Days.MatchingTokenIsBare` | lambda/ec2-scheduler/ec2-scheduler.py:130-133 | a token that matches a day name is exactly three letters, so padded tokens never match |
| `DayExamples.ExplicitList` | lambda/ec2-scheduler/ec2-scheduler.py:129-133 | "mon,wed,fri" is active exactly on Monday, Wednesday and Friday |
| `DayExamples.ExplicitListAnyCase` | lambda/ec2-scheduler/ec2-scheduler.py:129-133 | "FRI,Mon,wed" is active on the same three days: tokens are case-insensitive and order-free |
| `DayExamples.PaddedTokenIgnored` | lambda/ec2-scheduler/ec2-scheduler.py:130-133 | "mon,wed" is active on Wednesday and "mon, wed" is not |
| `DayExamples.UpperCaseKeywordsMatchNoDay` | lambda/ec2-scheduler/ec2-scheduler.py:123-133 | a default of "ALL" or "Weekdays", never lower-cased, is active on no day |
| `TagParser.ParseTag` | lambda/ec2-scheduler/ec2-scheduler.py:87-118 | the default-then-overwrite parse equals the closed-form `Resolve` of the split tag value |
| `TagParser.ExtraFieldsIgnored` | lambda/ec2-scheduler/ec2-scheduler.py:107-118 | fields after the fourth change nothing |
| `TagParser.SingleTimeIsSymmetric` | lambda/ec2-scheduler/ec2-scheduler.py:107-112 | a single non-keyword field is both start and stop time; timezone and days keep their defaults |
| `TagParser.KeywordKeepsDefaultStop` | lambda/ec2-scheduler/ec2-scheduler.py:107-109 | "default"/"true" alone gives the default start and the default stop time, never the start copied into stop |
| `TagParser.KeywordWithStop` | lambda/ec2-scheduler/ec2-scheduler.py:107-114 | keyword plus field 1 gives the default start time and field 1 as stop time |
| `TagParser.EmptyValue` | lambda/ec2-scheduler/ec2-scheduler.py:87-112 | an empty tag value is one empty field: start = stop = "" and the other variables keep their defaults |
| `TagParser.FullTagRoundTrip` | lambda/ec2-scheduler/ec2-scheduler.py:107-118 | a tag written from four fields resolves to exactly those fields, timezone and days lower-cased |
| `Scheduler.KeyMatchesIsPrefix` | lambda/ec2-scheduler/ec2-scheduler.py:85 | the clamped slice comparison holds iff the custom tag name is a prefix of the key |
| `Scheduler.TagStepShape` | lambda/ec2-scheduler/ec2-scheduler.py:99-149 | one tag adds nothing unless its key matches; at most the instance's own id per list, exactly when the rule asks, never on both lists; at most two 0/1 metric points, none when metrics are off |
| `Scheduler.TagStepIds` | lambda/ec2-scheduler/ec2-scheduler.py:136-149 | one tag puts the instance's id on a list iff the rule asks for that action |
| `Scheduler.TagsIdsMembership` | lambda/ec2-scheduler/ec2-scheduler.py:84-149 | an id is on a list built from an instance's tags iff it is the instance's id and some tag asks for the action |
| `Scheduler.ListMembership` | lambda/ec2-scheduler/ec2-scheduler.py:82-149 | an id is on a region's start (stop) list iff some instance with that id has a matching tag whose start (stop) time is in the window on an active day while stopped (running) |
| `Scheduler.InstanceListsFollowState` | lambda/ec2-scheduler/ec2-scheduler.py:136-149 | an instance lands on the start list only when stopped, on the stop list only when running, never on both |
| `Scheduler.UnmatchedInstanceInvisible` | lambda/ec2-scheduler/ec2-scheduler.py:83-85 | an instance without tags or without a matching key adds no id and no metric point |
| `Scheduler.UnmatchedInstanceChangesNothing` | lambda/ec2-scheduler/ec2-scheduler.py:82-85 | inserting such an instance anywhere in a region leaves its lists and metric log unchanged |
| `Scheduler.ListsNeedOrderedWindow` | lambda/ec2-scheduler/ec2-scheduler.py:136-146 | a region's start or stop list is non-empty only if `nowMax <= now` as strings |
| `Scheduler.IdleInFirstHour` | lambda/ec2-scheduler/ec2-scheduler.py:66-68 | a run in the first 59 minutes of the day leaves both lists empty, whatever the tags |
| `Scheduler.NoMetricsWhenDisabled` | lambda/ec2-scheduler/ec2-scheduler.py:100-104 | unless `CloudWatchMetrics` lower-cases to "enabled", no metric point is produced |
| `Scheduler.TimeZoneIgnored` | lambda/ec2-scheduler/ec2-scheduler.py:115-116 | replacing the timezone field never changes a start or stop decision |
| `Scheduler.BatchCalls` | lambda/ec2-scheduler/ec2-scheduler.py:156-167 | a start call is issued iff the start list is non-empty; a stop call iff the stop list is non-empty and no start call raised before it; every call carries its whole non-empty list; each call is made at most once, the start call before the stop call |
| `Scheduler.IssueCalls` | lambda/ec2-scheduler/ec2-scheduler.py:156-167 | the end-of-region block issues exactly the calls `BatchCalls` prescribes for the region's two lists |
| `Scheduler.StateOf` | lambda/ec2-scheduler/ec2-scheduler.py:96 | the state name reads as `Running` iff it is "running", `Stopped` iff "stopped", and `Other` never carries either name |
| `Scheduler.RunAppend` | lambda/ec2-scheduler/ec2-scheduler.py:60-171 | the regions' calls and metric points are concatenated in region order |
| `Scheduler.FailedRegionSkipped` | lambda/ec2-scheduler/ec2-scheduler.py:169-171 | a region whose listing raises is skipped and leaves every other region's outputs unchanged |
| `Scheduler.PostState` | lambda/ec2-scheduler/ec2-scheduler.py:99-104 | a matching tag posts the instance's current state (1 running, 0 stopped, nothing otherwise) only when metrics are enabled |
| `Scheduler.Decide` | lambda/ec2-scheduler/ec2-scheduler.py:135-149 | the id goes on the start list iff the start time is in the window on an active day while stopped, on the stop list likewise for the stop time while running, each with its 1/0 point when metrics are enabled |
| `Scheduler.HandleTag` | lambda/ec2-scheduler/ec2-scheduler.py:85-149 | the tag loop's body appends exactly what `TagStep` prescribes, in the handler's order |
| `Scheduler.HandleInstance` | lambda/ec2-scheduler/ec2-scheduler.py:83-149 | the loop over an instance's tags appends the instance's contribution |
| `Scheduler.ScheduleRegion` | lambda/ec2-scheduler/ec2-scheduler.py:72-154 | the region's instance loop builds exactly the start list, stop list and metric log of `InstancesDecisions` |
| `Scheduler.LambdaHandler` | lambda/ec2-scheduler/ec2-scheduler.py:60-171 | the region loop produces exactly the batch calls and metric points of `Run` |
| `SchedulerExamples.SingleTimeTag` | lambda/ec2-scheduler/ec2-scheduler.py:107-149 | tag "0800" at 08:30 on an active day starts a stopped and stops a running instance; at 10:00 it does neither |

## Left out

- boto3 clients, `describe_stacks`, `describe_regions`, `instances.all()` and the batch `start()`/`stop()` calls are foreign I/O. They are inputs (`RegionInput`) and outputs (`BatchCall`).
- The stack-name extraction from the function ARN, and reading the CloudFormation outputs, are configuration glue. The defaults are a `Defaults` record. A missing output key, which aborts the whole run, is not modelled.
- `putCloudWatchMetric` is a network call. Its points are recorded as `Metric` values.
- Reading the clock (`datetime.now()`, `today()`, `strftime`) is done by the caller. `now`, `nowMax` and `nowDay` are a `Clock` per region. `Window.NowMax` models the 59-minute subtraction on a minute of the day, assuming `now` and `nowMax` fall in the same read.
- `runningStateList` and `stoppedStateList` are appended and never read, so they are not modelled. Neither are the instance type, the unused dictionaries, the timestamp, the unused imports and the logging.
- Scheduler.LambdaHandler: a listing that raises is modelled only as failing before the first instance. A metric call that raises midway through a region is not modelled, and neither is a listing that raises partway.
- Text.Lower: lower-cases ASCII letters only. Python's `lower()` also maps non-ASCII letters.
- Text.LexLeTransitive: orders characters by code point, like Python's unicode comparison. Byte strings with non-ASCII content are not distinguished.

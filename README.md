# Loki callback for Ansible, modelled in Dafny

The Ansible `loki` callback plugin (`CallbackModule` in `loki.py`) watches the events the automation engine emits. These are the start of a playbook, a play or a task; a host's result for a task; a file diff; the absence of matching hosts; and the end-of-run statistics. For each event it hands one or more log records to a Loki logger. Each record has a severity, a message and a flat tag map. The tags come from the run context: playbook path, run timestamp, current play and current task. Event-specific tags are merged on top, and the right-hand side wins, as with Python's dict `|`. When an event category is listed in `enabled_dumps`, a DEBUG "dump" record carrying the serialised engine object follows the primary record.

This project models that pipeline:

- `Records` (`records.dfy`): log levels with Python's numeric severities, the verbosity-to-level choice, tag values, records and the tag merge.
- `DefaultTags` (`default_tags.dfy`): Python's `str.split(":")`, the `key:value` check that the tuple unpacking performs, and the loop that builds the default-tag dict.
- `Stats` (`stats.dfy`): the nested loops of the statistics handler. The handler walks the nine metrics, sums each one and fills a zero-defaulted per-host table in dict insertion order. These loops are proved against specification functions, with lemmas about those functions.
- `Loki` (`loki.dfy`):
  - `CallbackModule` is a class. Its fields are the run context and `records`, the sequence of records handed to the logger in order. Every handler says exactly how it changes both.
  - Alongside the class are the pure parts: path joining, dump gating, tag construction, message formatting and the shape of the records each handler emits.
- `Scenarios` (`scenarios.dfy`): lemmas that fix the model's results on small concrete inputs.

The engine's objects are reduced to the few values the handlers read. `TaskResult` holds the result's task name, the payload's `msg`, the payload's `diff` list and the serialised payload.

The model follows the code where a reader might expect otherwise:

- The handlers read `self.playbook`, `self.run_timestamp`, `self.current_play` and `self.current_task` without a default. The constructor never sets them, so an event out of order raises `AttributeError` rather than omitting the tag. The model keeps the context as `Option` fields, and each handler requires the fields it reads.
- The "task ok" record names `result.task_name`, not the current task (loki.py:188).
- The statistics handler indexes `stats.__dict__[metric]` for every metric (loki.py:340). A missing metric is therefore an error rather than an empty dict, and `OnStats` requires every metric.
- A default tag must contain exactly one `:`. Python's tuple unpacking also fails on two or more colons, not only on a missing one.
- `v2_runner_on_failed` and `v2_on_file_diff` index the result's `msg` and `diff` directly (loki.py:219, loki.py:308), so they raise `KeyError` when either is absent. `OnRunnerFailed` requires `msg` and `OnFileDiff` requires `diff`.
- With no dumps configured, `_dump_enabled` returns the falsy option value itself (`None` or an empty list). It is only ever used as a condition, so the model returns a boolean.

## Model

| member | source | states |
|---|---|---|
| Records.ThresholdFor | loki.py:113-118 | WARNING and ERROR always pass; INFO passes iff verbosity is not 0; DEBUG passes iff verbosity is neither 0 nor 1 |
| Records.MergeRightWins | loki.py:352-355 | the dict union operator: the keys are the union of both sides, the right side's value wins, and the left side's value stays for keys only it has |
| DefaultTags.Split | loki.py:100 | `str.split` yields one more part than the separator occurs, and no part contains the separator |
| DefaultTags.JoinSplit | loki.py:100 | joining the parts of a split with the separator gives back the original string |
| DefaultTags.SplitJoin | loki.py:100 | splitting a join of separator-free parts gives back the parts |
| DefaultTags.SplitTag | loki.py:100 | the `(tag, value)` unpacking succeeds iff the entry has exactly one colon |
| DefaultTags.SplitTagParts | loki.py:100 | on success the entry is key, colon, value, and neither half has a colon |
| DefaultTags.SplitTagOfJoin | loki.py:100 | every `key:value` with colon-free halves unpacks to exactly that key and value |
| DefaultTags.TagsOfKeys | loki.py:97-101 | a key is in the parsed dict iff some entry has that key |
| DefaultTags.TagsOfLastWins | loki.py:99-101 | a key maps to the value of the last entry with that key: later duplicates overwrite earlier ones |
| DefaultTags.TagsOfPair | loki.py:97-101 | two well-formed entries give both bindings, the second winning on a shared key |
| DefaultTags.ParseDefaultTags | loki.py:97-101 | the loop succeeds iff every entry unpacks; on success the result is the dict the entries build; on failure the error names the first malformed entry |
| Stats.AllMetricsDistinct | loki.py:83 | the nine metric names are pairwise different |
| Stats.ZeroRow | loki.py:343-345 | a fresh host row holds exactly the nine metrics, all zero |
| Stats.WalkMetric | loki.py:339-346 | one outer iteration: the metric's total, the host order extended by the metric's new hosts, and every row updated with this metric's counts |
| Stats.AggregateStats | loki.py:336-347 | the nested loops produce the per-metric sums, the hosts in first-appearance order and the zero-defaulted host table |
| Stats.LookupUnseen | loki.py:343-346 | a host not reported under a metric keeps the zero it was given |
| Stats.HostOrderMembers | loki.py:340-346 | a host gets a row iff it is reported under at least one metric |
| Stats.HostsUpToDistinct | loki.py:342-343 | no host is inserted twice |
| Stats.HostsUpToPrefix | loki.py:338-343 | hosts met while walking the earlier metrics stay first, in the order they were met |
| Stats.SumLookupsIsSum | loki.py:339-341 | over a host list holding each host once, summing the hosts' counts gives the metric's total |
| Stats.SummaryIsColumnTotal | loki.py:336-347 | each metric's summary value equals the total of that metric's column over all host rows |
| Loki.PathJoinShape | loki.py:128 | the POSIX `os.path.join` of two parts ends with the name; an absolute name replaces the base; otherwise it is the base and the name, with one `/` between them unless the base is empty or already ends in one |
| Loki.DumpEnabled | loki.py:123-124 | a dump category is enabled iff it is in the configured list, so never when the list is empty |
| Loki.ContextTagShapes | loki.py:130-169 | run tags hold exactly playbook and run timestamp; play tags add the play; task tags add play and task; each is the previous merged with the new key |
| Loki.DumpRecordsAt | loki.py:320-333 | one DEBUG dump per diff entry, in order, each with the primary tags plus `dump` |
| Loki.EmitShape | loki.py:134-138 | the primary record comes first, followed by exactly one DEBUG dump per payload when the category is enabled and none otherwise, with the primary tags plus `dump` |
| Loki.EmitOne | loki.py:198-210 | with one payload, the primary record is followed by exactly one dump when enabled and by none otherwise |
| Loki.FailedMessageParts | loki.py:216-220 | the failure message begins with "Task " and the task's name and ends with the engine's message |
| Loki.HostRecordsAt | loki.py:358-368 | one host record per host, in host order, each for that host's row |
| Loki.StatsRecordsShape | loki.py:348-368 | the stats records are one INFO summary record and then one DEBUG record per host in first-appearance order, each tagged with its row |
| Loki.MetricsAreNotRunTags | loki.py:83 | no metric is named `playbook`, `run_timestamp` or `stats_type`, so merging the counts cannot overwrite those tags |
| Loki.StatsTagsShape | loki.py:351-355 | stats tags over a complete row hold exactly playbook, run timestamp, `stats_type` and the nine metrics, each with its value |
| Loki.SummaryTags | loki.py:348-357 | the summary record's metric tags are the per-metric totals, with `stats_type` "summary" |
| Loki.HostRowTags | loki.py:358-368 | a host record's metric tags are that host's counts, zero where it was not reported, with `stats_type` "host" |
| Loki.CallbackModule.constructor | loki.py:85-121 | empty context and no records; the parsed default tags, the level threshold for the verbosity and the enabled dumps are kept |
| Loki.NewCallback | loki.py:97-121 | initialisation succeeds iff every default tag is well formed; the callback then starts with the parsed tags, the verbosity's threshold, an empty context and no records |
| Loki.CallbackModule.OnPlaybookStart | loki.py:127-138 | sets the joined playbook path and the timestamp, leaves play and task alone, and appends the INFO "Starting playbook" record with run tags plus the optional dump |
| Loki.CallbackModule.OnPlayStart | loki.py:140-157 | sets only the current play and appends the INFO "Starting play" record with play tags plus the optional dump |
| Loki.CallbackModule.OnTaskStart | loki.py:159-184 | sets only the current task and appends the INFO "Starting task" record with task tags plus the optional dump |
| Loki.CallbackModule.LogRunner | loki.py:198-210 | appends a per-host record with task tags, followed by the runner dump when enabled; the context is unchanged |
| Loki.CallbackModule.OnRunnerOk | loki.py:186-210 | appends a DEBUG record naming the result's own task, plus the optional runner dump |
| Loki.CallbackModule.OnRunnerFailed | loki.py:212-242 | appends a WARNING record when errors were ignored and an ERROR record otherwise, with the failure message, plus the optional runner dump |
| Loki.CallbackModule.OnRunnerSkipped | loki.py:244-268 | appends an INFO "was skipped" record, plus the optional runner dump |
| Loki.CallbackModule.OnUnreachable | loki.py:270-294 | appends an ERROR record naming the host and the current task, plus the optional runner dump |
| Loki.CallbackModule.OnNoHostsMatched | loki.py:296-305 | appends exactly one ERROR record with only the run tags, and no dump |
| Loki.CallbackModule.OnFileDiff | loki.py:307-333 | appends the INFO diff record and then, when diff dumps are enabled, one DEBUG dump per diff entry in order |
| Loki.CallbackModule.LogStats | loki.py:348-368 | appends the summary record, then one host record per host in the given order |
| Loki.CallbackModule.OnStats | loki.py:335-368 | appends exactly the stats records of the aggregation, whatever dumps are enabled, and changes no context field |
| Scenarios.PlaybookPathScenario | loki.py:128 | `/p` and `site.yml` join to `/p/site.yml`, as do `/p/` and `site.yml`; an absolute file name is kept as is |
| Scenarios.IgnoredFailureScenario | loki.py:216-220 | task `deploy`, ignored errors and message `timeout` give "Task deploy was not successful, but errors were ignored: timeout" |
| Scenarios.FailureScenario | loki.py:216-220 | without ignored errors the message is "Task deploy was not successful: timeout" |
| Scenarios.DefaultTagsScenario | loki.py:97-101 | `["env:prod", "team:infra"]` parses to env → prod, team → infra |
| Scenarios.MalformedTagScenario | loki.py:100 | `env` (no colon) and `a:b:c` (two colons) are malformed |
| Scenarios.DumpScenario | loki.py:123-124 | with only runner dumps enabled, a runner event gets its dump record and a diff event gets none |
| Scenarios.VerbosityScenario | loki.py:113-118 | verbosity 0, 1 and 3 select WARNING, INFO and DEBUG |
| Scenarios.SummaryOkScenario | loki.py:338-347 | ok {h1: 3, h2: 1} sums to 4 |
| Scenarios.SummaryFailuresScenario | loki.py:338-347 | failures {h1: 0, h2: 2} sums to 2 |
| Scenarios.HostOkScenario | loki.py:340-346 | the host rows carry ok 3 for h1 and 1 for h2 |
| Scenarios.HostFailuresScenario | loki.py:340-346 | the host rows carry failures 0 for h1 and 2 for h2 |

## Left out

- Transport: the `logging_loki.LokiHandler`, the logger object and its handler registration (loki.py:103-112) are HTTP delivery and global logger plumbing. `records` is every record handed to the logger, before the logger's level filter and before the handler adds the default tags and the `level` tag.
- Level filtering: `ThresholdFor` and `Passes` state which records a logger set from the verbosity would let through. No handler applies the filter, because the callback itself never does.
- Serialisation: `jsonpickle.encode`, `_dump_results`, `_serialize_diff` and `_get_diff` are library and engine-base-class code. Their outputs are opaque string parameters: `dumped`, the entries of `TaskResult.diff` and `diffText`.
- The clock: `datetime.datetime.now().isoformat()` (loki.py:129) is the `now` parameter of `OnPlaybookStart`.
- Option plumbing: `set_options`, `get_option` and `set_option`, the documentation string, the auth tuple and the tenant header (loki.py:87-95, 120-121) have no behaviour to prove. `NewCallback` takes the default-tag list, the verbosity and the dump list directly.
- Engine objects: `playbook._basedir`, `play.name`, `task.name`, `result._result` and the engine's `CallbackBase` are reduced to the strings the handlers read. The unused `is_conditional` argument of the task-start callback is dropped.
- Formatting of non-string values: Python's `%s` of a non-string task name, host or `msg` is not modelled; these are strings in the model.
- Stats.SummaryIsColumnTotal: requires each metric's counts to name every host at most once. A Python dict guarantees this, while the model's item sequence does not. For a repeated host the handler keeps the last count in the table but adds every count to the summary.

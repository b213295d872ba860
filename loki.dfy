/**
 * The Loki callback: it follows the engine's events, keeps the current
 * playbook, run timestamp, play and task, and for each event hands one
 * primary record, and optionally verbose "dump" records, to its logger.
 */
module Loki {
  import opened Wrappers
  import opened Records
  import opened Stats
  import opened DefaultTags

  /** `os.path.join(base, name)` for two POSIX components. */
  function PathJoin(base: string, name: string): string
  {
    if |name| > 0 && name[0] == '/' then name
    else if |base| == 0 || base[|base| - 1] == '/' then base + name
    else base + "/" + name
  }

  /**
   * The joined path ends with the name; an absolute name replaces the base,
   * otherwise the path starts with the base, separated by one '/' unless
   * the base is empty or already ends in one.
   */
  lemma PathJoinShape(base: string, name: string)
    ensures var p := PathJoin(base, name);
            && |p| >= |name| && p[|p| - |name|..] == name
            && (|name| > 0 && name[0] == '/' ==> p == name)
            && (!(|name| > 0 && name[0] == '/') ==> |base| <= |p| && p[..|base|] == base)
            && (!(|name| > 0 && name[0] == '/') && |base| > 0 && base[|base| - 1] != '/' ==>
                  p == base + "/" + name)
            && (!(|name| > 0 && name[0] == '/') && (|base| == 0 || base[|base| - 1] == '/') ==>
                  p == base + name)
  {
  }

  /** `_dump_enabled`: the configured dump list is non-empty and names the category. */
  function DumpEnabled(enabledDumps: seq<string>, category: string): (r: bool)
    ensures r <==> category in enabledDumps
    ensures enabledDumps == [] ==> !r
  {
    |enabledDumps| > 0 && category in enabledDumps
  }

  /** Tags of every record once a playbook has started. */
  function RunTags(playbook: string, runTimestamp: string): Tags
  {
    map["playbook" := Str(playbook), "run_timestamp" := Str(runTimestamp)]
  }

  /** Run tags plus the current play. */
  function PlayTags(playbook: string, runTimestamp: string, play: string): Tags
  {
    RunTags(playbook, runTimestamp)["play" := Str(play)]
  }

  /** Run tags plus the current play and task. */
  function TaskTags(playbook: string, runTimestamp: string, play: string, task: string): Tags
  {
    PlayTags(playbook, runTimestamp, play)["task" := Str(task)]
  }

  /**
   * The shapes of the context tags: run tags hold exactly the playbook and
   * run timestamp, play tags add the play, task tags add play and task.
   */
  lemma ContextTagShapes(playbook: string, runTimestamp: string, play: string, task: string)
    ensures RunTags(playbook, runTimestamp).Keys == {"playbook", "run_timestamp"}
    ensures RunTags(playbook, runTimestamp)["playbook"] == Str(playbook)
    ensures RunTags(playbook, runTimestamp)["run_timestamp"] == Str(runTimestamp)
    ensures PlayTags(playbook, runTimestamp, play).Keys == {"playbook", "run_timestamp", "play"}
    ensures PlayTags(playbook, runTimestamp, play)
            == Merge(RunTags(playbook, runTimestamp), map["play" := Str(play)])
    ensures TaskTags(playbook, runTimestamp, play, task).Keys == {"playbook", "run_timestamp", "play", "task"}
    ensures TaskTags(playbook, runTimestamp, play, task)
            == Merge(PlayTags(playbook, runTimestamp, play), map["task" := Str(task)])
  {
  }

  /** The tags of a dump record: its primary record's tags plus the category under `dump`. */
  function DumpTags(tags: Tags, category: string): Tags
  {
    Merge(tags, map["dump" := Str(category)])
  }

  /** One DEBUG record per serialised payload, under the primary record's tags. */
  function DumpRecords(tags: Tags, category: string, payloads: seq<string>): seq<Record>
  {
    if |payloads| == 0 then []
    else DumpRecords(tags, category, payloads[..|payloads| - 1])
         + [Record(Debug, payloads[|payloads| - 1], DumpTags(tags, category))]
  }

  lemma {:induction false} DumpRecordsAt(tags: Tags, category: string, payloads: seq<string>)
    ensures |DumpRecords(tags, category, payloads)| == |payloads|
    ensures forall k :: 0 <= k < |payloads| ==>
              DumpRecords(tags, category, payloads)[k] == Record(Debug, payloads[k], DumpTags(tags, category))
  {
    if |payloads| > 0 {
      DumpRecordsAt(tags, category, payloads[..|payloads| - 1]);
    }
  }

  /** What a handler logs: its primary record, then the dumps when the category is enabled. */
  function Emit(enabledDumps: seq<string>, primary: Record, category: string, payloads: seq<string>): seq<Record>
  {
    [primary] + (if DumpEnabled(enabledDumps, category) then DumpRecords(primary.tags, category, payloads) else [])
  }

  /**
   * The primary record comes first; after it come exactly one DEBUG dump per
   * payload when the category is enabled, and nothing otherwise.
   */
  lemma EmitShape(enabledDumps: seq<string>, primary: Record, category: string, payloads: seq<string>)
    ensures |Emit(enabledDumps, primary, category, payloads)|
            == 1 + (if category in enabledDumps then |payloads| else 0)
    ensures Emit(enabledDumps, primary, category, payloads)[0] == primary
    ensures forall k :: 1 <= k < |Emit(enabledDumps, primary, category, payloads)| ==>
              && Emit(enabledDumps, primary, category, payloads)[k].level == Debug
              && Emit(enabledDumps, primary, category, payloads)[k].message == payloads[k - 1]
              && Emit(enabledDumps, primary, category, payloads)[k].tags
                 == Merge(primary.tags, map["dump" := Str(category)])
  {
    DumpRecordsAt(primary.tags, category, payloads);
  }

  /** With a single payload, at most one dump follows the primary record. */
  lemma EmitOne(enabledDumps: seq<string>, primary: Record, category: string, payload: string)
    ensures Emit(enabledDumps, primary, category, [payload])
            == [primary] + (if DumpEnabled(enabledDumps, category)
                            then [Record(Debug, payload, DumpTags(primary.tags, category))] else [])
  {
    assert [payload][..0] == [];
    assert DumpRecords(primary.tags, category, [payload])
           == [Record(Debug, payload, DumpTags(primary.tags, category))];
  }

  /** The message of a failed task. */
  function FailedMessage(task: string, ignoreErrors: bool, msg: string): string
  {
    "Task " + task + " was not successful"
    + (if ignoreErrors then ", but errors were ignored" else "")
    + ": " + msg
  }

  /** The failed-task message names its task and ends with the engine's message. */
  lemma FailedMessageParts(task: string, ignoreErrors: bool, msg: string)
    ensures var s := FailedMessage(task, ignoreErrors, msg);
            && |s| >= 5 + |task| + |msg|
            && s[..5 + |task|] == "Task " + task
            && s[|s| - |msg|..] == msg
  {
  }

  /** The fixed part of the stats records' tags: run tags and the kind of stats. */
  function StatsBase(playbook: string, runTimestamp: string, statsType: string): Tags
  {
    Merge(RunTags(playbook, runTimestamp), map["stats_type" := Str(statsType)])
  }

  /** Tags of the stats records: run tags, the kind of stats, then the counts. */
  function StatsTags(playbook: string, runTimestamp: string, statsType: string, counts: map<string, int>): Tags
  {
    Merge(StatsBase(playbook, runTimestamp, statsType), IntTags(counts))
  }

  /**
   * The DEBUG record of one host's row, given the host records' fixed
   * message start `prefix` and fixed tags `base`.
   */
  function HostRecord(prefix: string, base: Tags, h: string, row: map<string, int>): Record
  {
    Record(Debug, prefix + h, Merge(base, IntTags(row)))
  }

  function HostRecords(prefix: string, base: Tags, hosts: seq<string>,
                       rows: map<string, map<string, int>>): seq<Record>
    requires forall h :: h in hosts ==> h in rows
  {
    if |hosts| == 0 then []
    else
      var h := hosts[|hosts| - 1];
      HostRecords(prefix, base, hosts[..|hosts| - 1], rows) + [HostRecord(prefix, base, h, rows[h])]
  }

  lemma {:induction false} HostRecordsAt(prefix: string, base: Tags, hosts: seq<string>,
                                         rows: map<string, map<string, int>>)
    requires forall h :: h in hosts ==> h in rows
    ensures |HostRecords(prefix, base, hosts, rows)| == |hosts|
    ensures forall k :: 0 <= k < |hosts| ==>
              HostRecords(prefix, base, hosts, rows)[k] == HostRecord(prefix, base, hosts[k], rows[hosts[k]])
  {
    if |hosts| > 0 {
      HostRecordsAt(prefix, base, hosts[..|hosts| - 1], rows);
    }
  }

  /** The summary record, then the host records, from an aggregation's results. */
  function AggregateRecords(playbook: string, runTimestamp: string, summary: map<string, int>,
                            hosts: seq<string>, rows: map<string, map<string, int>>): seq<Record>
    requires forall h :: h in hosts ==> h in rows
  {
    [Record(Info, "Stats for playbook " + playbook, StatsTags(playbook, runTimestamp, "summary", summary))]
    + HostRecords("Stats for playbook " + playbook + ", host ", StatsBase(playbook, runTimestamp, "host"), hosts, rows)
  }

  /** The records of the stats handler: the INFO summary, then one DEBUG record per host. */
  function StatsRecords(playbook: string, runTimestamp: string, stats: StatsTable): seq<Record>
    requires HasAllMetrics(stats)
  {
    AggregateRecords(playbook, runTimestamp, Summary(stats), HostOrder(stats), HostTable(stats))
  }

  /** The stats handler logs one INFO summary record, then one DEBUG record per host in first-appearance order. */
  lemma StatsRecordsShape(playbook: string, runTimestamp: string, stats: StatsTable)
    requires HasAllMetrics(stats)
    ensures |StatsRecords(playbook, runTimestamp, stats)| == 1 + |HostOrder(stats)|
    ensures StatsRecords(playbook, runTimestamp, stats)[0]
            == Record(Info, "Stats for playbook " + playbook,
                      StatsTags(playbook, runTimestamp, "summary", Summary(stats)))
    ensures forall k :: 0 <= k < |HostOrder(stats)| ==>
              StatsRecords(playbook, runTimestamp, stats)[k + 1]
              == Record(Debug, "Stats for playbook " + playbook + ", host " + HostOrder(stats)[k],
                        StatsTags(playbook, runTimestamp, "host", HostRow(stats, HostOrder(stats)[k])))
  {
    HostRecordsAt("Stats for playbook " + playbook + ", host ", StatsBase(playbook, runTimestamp, "host"),
                  HostOrder(stats), HostTable(stats));
  }

  /** No metric is named like a run tag. */
  lemma MetricsAreNotRunTags()
    ensures "playbook" !in AllMetrics && "run_timestamp" !in AllMetrics && "stats_type" !in AllMetrics
  {
  }

  /**
   * Stats tags over a complete row: the run tags, `stats_type` and each
   * metric's value, and no other key.
   */
  lemma StatsTagsShape(playbook: string, runTimestamp: string, statsType: string, counts: map<string, int>)
    requires counts.Keys == set m | m in AllMetrics
    ensures StatsTags(playbook, runTimestamp, statsType, counts).Keys
            == {"playbook", "run_timestamp", "stats_type"} + set m | m in AllMetrics
    ensures StatsTags(playbook, runTimestamp, statsType, counts)["playbook"] == Str(playbook)
    ensures StatsTags(playbook, runTimestamp, statsType, counts)["run_timestamp"] == Str(runTimestamp)
    ensures StatsTags(playbook, runTimestamp, statsType, counts)["stats_type"] == Str(statsType)
    ensures forall m :: m in AllMetrics ==>
              StatsTags(playbook, runTimestamp, statsType, counts)[m] == Int(counts[m])
  {
    MetricsAreNotRunTags();
  }

  /** The summary record's metric tags are the per-metric totals. */
  lemma SummaryTags(playbook: string, runTimestamp: string, stats: StatsTable)
    requires HasAllMetrics(stats)
    ensures forall m :: m in AllMetrics ==>
              StatsTags(playbook, runTimestamp, "summary", Summary(stats))[m] == Int(Sum(stats[m]))
    ensures StatsTags(playbook, runTimestamp, "summary", Summary(stats))["stats_type"] == Str("summary")
  {
    StatsTagsShape(playbook, runTimestamp, "summary", Summary(stats));
  }

  /** A host record's metric tags are the host's counts, zero where it was not reported. */
  lemma HostRowTags(playbook: string, runTimestamp: string, stats: StatsTable, h: string)
    requires HasAllMetrics(stats)
    ensures forall m :: m in AllMetrics ==>
              StatsTags(playbook, runTimestamp, "host", HostRow(stats, h))[m] == Int(Lookup(stats[m], h))
    ensures forall m :: m in AllMetrics && !Seen(stats[m], h) ==>
              StatsTags(playbook, runTimestamp, "host", HostRow(stats, h))[m] == Int(0)
    ensures StatsTags(playbook, runTimestamp, "host", HostRow(stats, h))["stats_type"] == Str("host")
  {
    StatsTagsShape(playbook, runTimestamp, "host", HostRow(stats, h));
    forall m | m in AllMetrics && !Seen(stats[m], h)
      ensures Lookup(stats[m], h) == 0
    {
      LookupUnseen(stats[m], h);
    }
  }

  /** A task result as the handlers read it. */
  datatype TaskResult = TaskResult(
    taskName: string,            // the result's task name
    msg: Option<string>,         // the result payload's "msg", when present
    diff: Option<seq<string>>,   // the payload's "diff" list, each entry already serialised
    dumped: string)              // the serialised result payload

  class CallbackModule {
    /** The configured dump categories. */
    const enabledDumps: seq<string>
    /** Tags the transport adds to every record. */
    const defaultTags: map<string, string>
    /** The logger's level. */
    const threshold: Level

    var playbook: Option<string>
    var runTimestamp: Option<string>
    var currentPlay: Option<string>
    var currentTask: Option<string>
    /** Every record handed to the logger, oldest first. */
    var records: seq<Record>

    /**
     * The run context only grows: a run timestamp comes with the playbook,
     * a play needs a playbook and a task needs a play.
     */
    ghost predicate Valid()
      reads this
    {
      && (playbook.Some? <==> runTimestamp.Some?)
      && (currentPlay.Some? ==> playbook.Some?)
      && (currentTask.Some? ==> currentPlay.Some?)
    }

    constructor (defaultTags: map<string, string>, verbosity: int, enabledDumps: seq<string>)
      ensures Valid()
      ensures this.defaultTags == defaultTags && this.enabledDumps == enabledDumps
      ensures threshold == ThresholdFor(verbosity)
      ensures playbook == None && runTimestamp == None && currentPlay == None && currentTask == None
      ensures records == []
    {
      this.defaultTags := defaultTags;
      this.enabledDumps := enabledDumps;
      threshold := ThresholdFor(verbosity);
      playbook, runTimestamp, currentPlay, currentTask := None, None, None, None;
      records := [];
    }

    /** A playbook starts: remember its path and the run's timestamp (`now`). */
    method OnPlaybookStart(basedir: string, fileName: string, now: string, dumped: string)
      requires Valid()
      modifies this`playbook, this`runTimestamp, this`records
      ensures Valid()
      ensures playbook == Some(PathJoin(basedir, fileName)) && runTimestamp == Some(now)
      ensures currentPlay == old(currentPlay) && currentTask == old(currentTask)
      ensures records == old(records) + Emit(enabledDumps,
                Record(Info, "Starting playbook " + playbook.value, RunTags(playbook.value, now)),
                "playbook", [dumped])
    {
      var path := PathJoin(basedir, fileName);
      playbook := Some(path);
      runTimestamp := Some(now);
      var primary := Record(Info, "Starting playbook " + path, RunTags(path, now));
      EmitOne(enabledDumps, primary, "playbook", dumped);
      records := records + [primary];
      if DumpEnabled(enabledDumps, "playbook") {
        records := records + [Record(Debug, dumped, DumpTags(primary.tags, "playbook"))];
      }
    }

    /** A play starts: remember its name. */
    method OnPlayStart(name: string, dumped: string)
      requires Valid() && playbook.Some?
      modifies this`currentPlay, this`records
      ensures Valid()
      ensures currentPlay == Some(name)
      ensures playbook == old(playbook) && runTimestamp == old(runTimestamp)
      ensures currentTask == old(currentTask)
      ensures records == old(records) + Emit(enabledDumps,
                Record(Info, "Starting play " + name, PlayTags(playbook.value, runTimestamp.value, name)),
                "play", [dumped])
    {
      currentPlay := Some(name);
      var tags := PlayTags(playbook.value, runTimestamp.value, name);
      EmitOne(enabledDumps, Record(Info, "Starting play " + name, tags), "play", dumped);
      records := records + [Record(Info, "Starting play " + name, tags)];
      if DumpEnabled(enabledDumps, "play") {
        records := records + [Record(Debug, dumped, DumpTags(tags, "play"))];
      }
    }

    /** A task starts: remember its name. */
    method OnTaskStart(name: string, dumped: string)
      requires Valid() && currentPlay.Some?
      modifies this`currentTask, this`records
      ensures Valid()
      ensures currentTask == Some(name)
      ensures playbook == old(playbook) && runTimestamp == old(runTimestamp)
      ensures currentPlay == old(currentPlay)
      ensures records == old(records) + Emit(enabledDumps,
                Record(Info, "Starting task " + name,
                       TaskTags(playbook.value, runTimestamp.value, currentPlay.value, name)),
                "task", [dumped])
    {
      currentTask := Some(name);
      var tags := TaskTags(playbook.value, runTimestamp.value, currentPlay.value, name);
      EmitOne(enabledDumps, Record(Info, "Starting task " + name, tags), "task", dumped);
      records := records + [Record(Info, "Starting task " + name, tags)];
      if DumpEnabled(enabledDumps, "task") {
        records := records + [Record(Debug, dumped, DumpTags(tags, "task"))];
      }
    }

    /** Tags of the records about the current task. */
    function CurrentTaskTags(): Tags
      reads this
      requires Valid() && currentTask.Some?
    {
      TaskTags(playbook.value, runTimestamp.value, currentPlay.value, currentTask.value)
    }

    /** Log a per-host outcome of the current task, with its runner dump. */
    method LogRunner(level: Level, message: string, dumped: string)
      requires Valid() && currentTask.Some?
      modifies this`records
      ensures records == old(records) + Emit(enabledDumps, Record(level, message, CurrentTaskTags()),
                                             "runner", [dumped])
    {
      var tags := CurrentTaskTags();
      EmitOne(enabledDumps, Record(level, message, tags), "runner", dumped);
      records := records + [Record(level, message, tags)];
      if DumpEnabled(enabledDumps, "runner") {
        records := records + [Record(Debug, dumped, DumpTags(tags, "runner"))];
      }
    }

    /** A host ran the current task successfully; the message names the result's own task. */
    method OnRunnerOk(result: TaskResult)
      requires Valid() && currentTask.Some?
      modifies this`records
      ensures records == old(records) + Emit(enabledDumps,
                Record(Debug, "Task " + result.taskName + " was successful", CurrentTaskTags()),
                "runner", [result.dumped])
    {
      LogRunner(Debug, "Task " + result.taskName + " was successful", result.dumped);
    }

    /** A host failed the current task: a warning when errors are ignored, an error otherwise. */
    method OnRunnerFailed(result: TaskResult, ignoreErrors: bool)
      requires Valid() && currentTask.Some? && result.msg.Some?
      modifies this`records
      ensures records == old(records) + Emit(enabledDumps,
                Record(if ignoreErrors then Warning else Error,
                       FailedMessage(currentTask.value, ignoreErrors, result.msg.value),
                       CurrentTaskTags()),
                "runner", [result.dumped])
    {
      var level := if ignoreErrors then Warning else Error;
      LogRunner(level, FailedMessage(currentTask.value, ignoreErrors, result.msg.value), result.dumped);
    }

    /** A host skipped the current task. */
    method OnRunnerSkipped(result: TaskResult)
      requires Valid() && currentTask.Some?
      modifies this`records
      ensures records == old(records) + Emit(enabledDumps,
                Record(Info, "Task " + currentTask.value + " was skipped", CurrentTaskTags()),
                "runner", [result.dumped])
    {
      LogRunner(Info, "Task " + currentTask.value + " was skipped", result.dumped);
    }

    /** A host could not be reached; `dumped` is the serialised raw result. */
    method OnUnreachable(host: string, dumped: string)
      requires Valid() && currentTask.Some?
      modifies this`records
      ensures records == old(records) + Emit(enabledDumps,
                Record(Error, "Host " + host + " was unreachable for task " + currentTask.value,
                       CurrentTaskTags()),
                "runner", [dumped])
    {
      LogRunner(Error, "Host " + host + " was unreachable for task " + currentTask.value, dumped);
    }

    /** No host matched: one error record, no dump. */
    method OnNoHostsMatched()
      requires Valid() && playbook.Some?
      modifies this`records
      ensures records == old(records) +
                [Record(Error, "No hosts matched for playbook " + playbook.value,
                        RunTags(playbook.value, runTimestamp.value))]
    {
      records := records + [Record(Error, "No hosts matched for playbook " + playbook.value,
                                   RunTags(playbook.value, runTimestamp.value))];
    }

    /**
     * The current task produced a diff: one record with the rendered diff
     * (`diffText`), then one dump per diff entry when diffs are enabled.
     */
    method OnFileDiff(result: TaskResult, diffText: string)
      requires Valid() && currentTask.Some? && result.diff.Some?
      modifies this`records
      ensures records == old(records) + Emit(enabledDumps,
                Record(Info, "Task " + currentTask.value + " produced a diff:\n" + diffText,
                       CurrentTaskTags()),
                "diff", result.diff.value)
    {
      var diffs := result.diff.value;
      var tags := CurrentTaskTags();
      var primary := Record(Info, "Task " + currentTask.value + " produced a diff:\n" + diffText, tags);
      records := records + [primary];
      if DumpEnabled(enabledDumps, "diff") {
        var k := 0;
        while k < |diffs|
          invariant 0 <= k <= |diffs|
          invariant records == old(records) + [primary] + DumpRecords(tags, "diff", diffs[..k])
        {
          assert diffs[..k + 1][..k] == diffs[..k];
          records := records + [Record(Debug, diffs[k], DumpTags(tags, "diff"))];
          k := k + 1;
        }
        assert diffs[..k] == diffs;
      }
    }

    /** End of run: the summary record, then one record per host; never gated by dumps. */
    method OnStats(stats: StatsTable)
      requires Valid() && playbook.Some? && HasAllMetrics(stats)
      modifies this`records
      ensures records == old(records) + StatsRecords(playbook.value, runTimestamp.value, stats)
    {
      var summary, hosts, rows := AggregateStats(stats);
      LogStats(summary, hosts, rows);
    }

    /** The logging half of the stats handler, over the aggregation's results. */
    method LogStats(summary: map<string, int>, hosts: seq<string>, rows: map<string, map<string, int>>)
      requires Valid() && playbook.Some?
      requires forall h :: h in hosts ==> h in rows
      modifies this`records
      ensures records == old(records)
                         + AggregateRecords(playbook.value, runTimestamp.value, summary, hosts, rows)
    {
      var p, ts := playbook.value, runTimestamp.value;
      records := records + [Record(Info, "Stats for playbook " + p, StatsTags(p, ts, "summary", summary))];
      ghost var start := records;
      var prefix, base := "Stats for playbook " + p + ", host ", StatsBase(p, ts, "host");
      var k := 0;
      while k < |hosts|
        invariant 0 <= k <= |hosts|
        invariant |records| == |start| + k && records[..|start|] == start
        invariant forall j :: 0 <= j < k ==> records[|start| + j] == HostRecord(prefix, base, hosts[j], rows[hosts[j]])
      {
        var h := hosts[k];
        records := records + [HostRecord(prefix, base, h, rows[h])];
        k := k + 1;
      }
      assert records == start + HostRecords(prefix, base, hosts, rows) by {
        HostRecordsAt(prefix, base, hosts, rows);
      }
    }
  }

  /**
   * The callback's initialiser: parse the default tags, failing start-up on a
   * malformed entry, and start with an empty run context.
   */
  method NewCallback(defaultTagEntries: seq<string>, verbosity: int, enabledDumps: seq<string>)
    returns (r: Result<CallbackModule, ConfigError>)
    ensures r.Success? <==> AllSplit(defaultTagEntries)
    ensures r.Success? ==> fresh(r.value) && r.value.Valid()
    ensures r.Success? ==> r.value.defaultTags == TagsOf(defaultTagEntries)
    ensures r.Success? ==> r.value.threshold == ThresholdFor(verbosity)
    ensures r.Success? ==> r.value.enabledDumps == enabledDumps && r.value.records == []
    ensures r.Success? ==> r.value.playbook == None && r.value.currentPlay == None
                           && r.value.currentTask == None
  {
    var tags := ParseDefaultTags(defaultTagEntries);
    if tags.Failure? {
      return Failure(tags.error);
    }
    var cb := new CallbackModule(tags.value, verbosity, enabledDumps);
    return Success(cb);
  }
}

/** The model's results on small concrete inputs. */
module Scenarios {
  import opened Wrappers
  import opened Records
  import opened DefaultTags
  import opened Stats
  import opened Loki

  /** A relative playbook file is joined onto its base directory; an absolute one replaces it. */
  lemma PlaybookPathScenario()
    ensures PathJoin("/p", "site.yml") == "/p/site.yml"
    ensures PathJoin("/p/", "site.yml") == "/p/site.yml"
    ensures PathJoin("/p", "/abs/site.yml") == "/abs/site.yml"
  {
  }

  /** A failure with ignored errors. */
  lemma IgnoredFailureScenario()
    ensures FailedMessage("deploy", true, "timeout")
            == "Task deploy was not successful" + ", but errors were ignored" + ": timeout"
  {
    assert "Task " + "deploy" + " was not successful" == "Task deploy was not successful";
    assert ": " + "timeout" == ": timeout";
  }

  /** A failure without ignored errors. */
  lemma FailureScenario()
    ensures FailedMessage("deploy", false, "timeout") == "Task deploy was not successful: timeout"
  {
    assert "Task " + "deploy" + " was not successful" == "Task deploy was not successful";
  }

  /** Two well-formed default tags parse into their bindings. */
  lemma DefaultTagsScenario()
    ensures AllSplit(["env:prod", "team:infra"])
    ensures TagsOf(["env:prod", "team:infra"]) == map["env" := "prod", "team" := "infra"]
  {
    assert "env:prod" == "env" + ":" + "prod";
    assert "team:infra" == "team" + ":" + "infra";
    TagsOfPair("env", "prod", "team", "infra");
  }

  /** An entry without a colon, or with two, is malformed. */
  lemma MalformedTagScenario()
    ensures SplitTag("env").None? && !AllSplit(["env"])
    ensures SplitTag("a:b:c").None?
  {
    assert multiset("env")[':'] == 0;
    assert ["env"][0] == "env";
    assert "a:b:c" == ['a', ':', 'b', ':', 'c'];
  }

  /** With only runner dumps enabled, a runner event dumps and a diff does not. */
  lemma DumpScenario(primary: Record, payload: string, diffs: seq<string>)
    ensures |Emit(["runner"], primary, "runner", [payload])| == 2
    ensures Emit(["runner"], primary, "runner", [payload])[1]
            == Record(Debug, payload, Merge(primary.tags, map["dump" := Str("runner")]))
    ensures Emit(["runner"], primary, "diff", diffs) == [primary]
  {
    EmitOne(["runner"], primary, "runner", payload);
    assert "diff" != "runner";
  }

  /** Verbosity 0, 1 and 3 select WARNING, INFO and DEBUG. */
  lemma VerbosityScenario()
    ensures ThresholdFor(0) == Warning && ThresholdFor(1) == Info && ThresholdFor(3) == Debug
    ensures !Passes(Info, ThresholdFor(0)) && Passes(Debug, ThresholdFor(3))
  {
  }

  /** Two hosts: ok {h1: 3, h2: 1}, failures {h1: 0, h2: 2}, every other metric empty. */
  function TwoHosts(): StatsTable
  {
    map m | m in AllMetrics ::
      if m == "ok" then [("h1", 3), ("h2", 1)]
      else if m == "failures" then [("h1", 0), ("h2", 2)]
      else []
  }

  /** The "ok" column of the two-host table. */
  lemma TwoHostsOk()
    ensures "ok" in AllMetrics && HasAllMetrics(TwoHosts())
    ensures TwoHosts()["ok"] == [("h1", 3), ("h2", 1)]
  {
  }

  /** The "failures" column of the two-host table. */
  lemma TwoHostsFailures()
    ensures "failures" in AllMetrics && HasAllMetrics(TwoHosts())
    ensures TwoHosts()["failures"] == [("h1", 0), ("h2", 2)]
  {
  }

  /** The summary adds the "ok" counts of both hosts. */
  lemma SummaryOkScenario()
    ensures HasAllMetrics(TwoHosts()) && Summary(TwoHosts())["ok"] == 4
  {
    TwoHostsOk();
    var c := [("h1", 3), ("h2", 1)];
    assert c[..1] == [("h1", 3)];
    assert [("h1", 3)][..0] == [];
  }

  /** The summary adds the "failures" counts of both hosts. */
  lemma SummaryFailuresScenario()
    ensures HasAllMetrics(TwoHosts()) && Summary(TwoHosts())["failures"] == 2
  {
    TwoHostsFailures();
    var c := [("h1", 0), ("h2", 2)];
    assert c[..1] == [("h1", 0)];
    assert [("h1", 0)][..0] == [];
  }

  /** Each host's row holds its own "ok" count. */
  lemma HostOkScenario()
    ensures HasAllMetrics(TwoHosts())
    ensures HostRow(TwoHosts(), "h1")["ok"] == 3 && HostRow(TwoHosts(), "h2")["ok"] == 1
  {
    TwoHostsOk();
    var c := [("h1", 3), ("h2", 1)];
    assert c[..1] == [("h1", 3)];
    assert "h1" != "h2";
  }

  /** Each host's row holds its own "failures" count, including an explicit zero. */
  lemma HostFailuresScenario()
    ensures HasAllMetrics(TwoHosts())
    ensures HostRow(TwoHosts(), "h1")["failures"] == 0 && HostRow(TwoHosts(), "h2")["failures"] == 2
  {
    TwoHostsFailures();
    var c := [("h1", 0), ("h2", 2)];
    assert c[..1] == [("h1", 0)];
    assert "h1" != "h2";
  }
}

/**
 * The case of the package's table test (process_env_test.go), run through
 * the model.
 */
module ProcessEnvExample {
  import opened Wrappers
  import opened GoStrings
  import opened Checks
  import opened EnvConfig
  import opened EnvConfigFacts

  /** The entries of the test case, in order. */
  const TestEnv: seq<string> := [
    "HOST_EXAMPLE=http://example.com",
    "PERIOD_EXAMPLE=3m",
    "LATENCY_EXAMPLE=2m",
    "HOST_TEST2=exampleexample.com"
  ]

  /** Four entries named as in the test case; the text after `=` is never read. */
  predicate TestShape(env: seq<string>)
  {
    && |env| == 4
    && HasPrefix(env[0], "HOST_EXAMPLE=")
    && HasPrefix(env[1], "PERIOD_EXAMPLE=")
    && HasPrefix(env[2], "LATENCY_EXAMPLE=")
    && HasPrefix(env[3], "HOST_TEST2=")
  }

  /**
   * The test's entries have the shape TestShape describes. It is stated for an
   * env equal to TestEnv so that the literals are unfolded only here, not in
   * the lemmas that use TestShape.
   */
  lemma TestEnvShape(env: seq<string>)
    requires env == TestEnv
    ensures TestShape(env)
  {
  }

  /** What the parser sees of the four entries. */
  predicate TestNames(env: seq<string>)
  {
    && |env| == 4
    && IsHost(env[0]) && VarName(env[0]) == "HOST_EXAMPLE" && HostName(env[0]) == "EXAMPLE"
    && !IsHost(env[1]) && VarName(env[1]) == "PERIOD_EXAMPLE"
    && !IsHost(env[2]) && VarName(env[2]) == "LATENCY_EXAMPLE"
    && IsHost(env[3]) && VarName(env[3]) == "HOST_TEST2" && HostName(env[3]) == "TEST2"
  }

  /** An entry `HOST_<host>=...` declares a target named host. */
  lemma HostEntry(entry: string, host: string)
    requires HasPrefix(entry, HostPrefix + host + "=") && '=' !in host
    ensures IsHost(entry) && VarName(entry) == HostPrefix + host && HostName(entry) == host
  {
    assert entry[..|HostPrefix + host + "="|][..|HostPrefix|] == entry[..|HostPrefix|];
    BeforeFirstIs(entry, '=', HostPrefix + host);
  }

  /** An entry `<name>=...` has the variable name name. */
  lemma OtherEntry(entry: string, name: string)
    requires HasPrefix(entry, name + "=") && '=' !in name
    ensures VarName(entry) == name
  {
    BeforeFirstIs(entry, '=', name);
  }

  /** The variable names, host flags and target names of the four entries. */
  lemma ShapeNames(env: seq<string>)
    requires TestShape(env)
    ensures TestNames(env)
  {
    HostEntry(env[0], "EXAMPLE");
    OtherEntry(env[1], "PERIOD_EXAMPLE");
    assert env[1][..5] == env[1][..15][..5];
    OtherEntry(env[2], "LATENCY_EXAMPLE");
    assert env[2][..5] == env[2][..16][..5];
    HostEntry(env[3], "TEST2");
  }

  /** The host pass over the test case gives two targets with the defaults. */
  lemma TestTargets(env: seq<string>, lookup: Lookup)
    requires TestNames(env)
    requires lookup("HOST_EXAMPLE") == "http://example.com"
    requires lookup("HOST_TEST2") == "exampleexample.com"
    ensures Targets(env, lookup) == map["http://example.com" := CheckParam(DefaultLatency, DefaultPeriod, "EXAMPLE"),
                                        "exampleexample.com" := CheckParam(DefaultLatency, DefaultPeriod, "TEST2")]
  {
    var p0 := CheckParam(DefaultLatency, DefaultPeriod, "EXAMPLE");
    assert env[..1][..0] == [];
    assert Targets(env[..1], lookup) == map["http://example.com" := p0];
    assert env[..2][..1] == env[..1];
    assert Targets(env[..2], lookup) == map["http://example.com" := p0];
    assert env[..3][..2] == env[..2];
    assert Targets(env[..3], lookup) == map["http://example.com" := p0];
    assert env[..4][..3] == env[..3] && env[..4] == env;
  }

  /** The test case loads: both overrides of EXAMPLE parse, and TEST2 has none. */
  lemma TestConfigurable(env: seq<string>, lookup: Lookup, parse: DurationParser)
    requires TestNames(env)
    requires lookup("HOST_EXAMPLE") == "http://example.com"
    requires lookup("PERIOD_EXAMPLE") == "3m"
    requires lookup("LATENCY_EXAMPLE") == "2m"
    requires lookup("HOST_TEST2") == "exampleexample.com"
    requires parse("3m") == Some(3 * Minute)
    requires parse("2m") == Some(2 * Minute)
    ensures Configurable(env, lookup, parse)
  {
    TestTargets(env, lookup);
    var t := Targets(env, lookup);
    forall link, field: Field | link in t
      ensures !BadOverride(env, lookup, parse, field, t[link].envName)
    {
      var key := field.Prefix() + t[link].envName;
      if t[link].envName == "TEST2" {
        forall i | 0 <= i < |env| ensures VarName(env[i]) != key {
        }
      }
    }
    ConfigurableIff(env, lookup, parse);
  }

  /** An override of EXAMPLE that parses to d sets that field to d. */
  lemma TestFirstField(env: seq<string>, lookup: Lookup, parse: DurationParser, field: Field, i: nat, key: string, d: Duration)
    requires TestNames(env)
    requires lookup("HOST_EXAMPLE") == "http://example.com"
    requires lookup("HOST_TEST2") == "exampleexample.com"
    requires Configurable(env, lookup, parse)
    requires key == field.Prefix() + "EXAMPLE"
    requires i < |env| && VarName(env[i]) == key
    requires parse(lookup(key)) == Some(d)
    ensures "http://example.com" in Config(env, lookup, parse)
    ensures Config(env, lookup, parse)["http://example.com"].envName == "EXAMPLE"
    ensures FieldOf(Config(env, lookup, parse)["http://example.com"], field) == d
  {
    TestTargets(env, lookup);
    ConfigField(env, lookup, parse, "http://example.com", field);
  }

  /** TEST2 has no override, so both of its durations are the defaults. */
  lemma TestSecondField(env: seq<string>, lookup: Lookup, parse: DurationParser, field: Field)
    requires TestNames(env)
    requires lookup("HOST_EXAMPLE") == "http://example.com"
    requires lookup("HOST_TEST2") == "exampleexample.com"
    requires Configurable(env, lookup, parse)
    ensures "exampleexample.com" in Config(env, lookup, parse)
    ensures Config(env, lookup, parse)["exampleexample.com"].envName == "TEST2"
    ensures FieldOf(Config(env, lookup, parse)["exampleexample.com"], field) == field.Default()
  {
    TestTargets(env, lookup);
    forall i | 0 <= i < |env|
      ensures VarName(env[i]) != field.Prefix() + "TEST2"
    {
    }
    ConfigField(env, lookup, parse, "exampleexample.com", field);
  }

  /**
   * The override variables of the target EXAMPLE. The concatenation of
   * literals is proved in this small lemma on its own, where it is cheap,
   * rather than inside the larger proofs that use it.
   */
  lemma OverrideNames()
    ensures Latency.Prefix() + "EXAMPLE" == "LATENCY_EXAMPLE"
    ensures Period.Prefix() + "EXAMPLE" == "PERIOD_EXAMPLE"
  {
  }

  /** The parameters of `http://example.com`. */
  lemma TestFirstLink(env: seq<string>, lookup: Lookup, parse: DurationParser)
    requires TestNames(env)
    requires lookup("HOST_EXAMPLE") == "http://example.com"
    requires lookup("PERIOD_EXAMPLE") == "3m"
    requires lookup("LATENCY_EXAMPLE") == "2m"
    requires lookup("HOST_TEST2") == "exampleexample.com"
    requires parse("3m") == Some(3 * Minute)
    requires parse("2m") == Some(2 * Minute)
    requires Configurable(env, lookup, parse)
    ensures "http://example.com" in Config(env, lookup, parse)
    ensures Config(env, lookup, parse)["http://example.com"] == CheckParam(2 * Minute, 3 * Minute, "EXAMPLE")
  {
    OverrideNames();
    TestFirstField(env, lookup, parse, Latency, 2, "LATENCY_EXAMPLE", 2 * Minute);
    TestFirstField(env, lookup, parse, Period, 1, "PERIOD_EXAMPLE", 3 * Minute);
  }

  /** The parameters of `exampleexample.com`. */
  lemma TestSecondLink(env: seq<string>, lookup: Lookup, parse: DurationParser)
    requires TestNames(env)
    requires lookup("HOST_EXAMPLE") == "http://example.com"
    requires lookup("HOST_TEST2") == "exampleexample.com"
    requires Configurable(env, lookup, parse)
    ensures "exampleexample.com" in Config(env, lookup, parse)
    ensures Config(env, lookup, parse)["exampleexample.com"] == CheckParam(1 * Second, 10 * Second, "TEST2")
  {
    TestSecondField(env, lookup, parse, Latency);
    TestSecondField(env, lookup, parse, Period);
  }

  /**
   * With the variables of the test set in the environment, both links are
   * loaded; the first has the overridden durations, the second the defaults,
   * which include a period of ten seconds.
   */
  lemma TestParseEnvCase(env: seq<string>, lookup: Lookup, parse: DurationParser)
    requires TestShape(env)
    requires lookup("HOST_EXAMPLE") == "http://example.com"
    requires lookup("PERIOD_EXAMPLE") == "3m"
    requires lookup("LATENCY_EXAMPLE") == "2m"
    requires lookup("HOST_TEST2") == "exampleexample.com"
    requires parse("3m") == Some(3 * Minute)
    requires parse("2m") == Some(2 * Minute)
    ensures Configurable(env, lookup, parse)
    ensures Config(env, lookup, parse).Keys == {"http://example.com", "exampleexample.com"}
    ensures Config(env, lookup, parse)["http://example.com"] == CheckParam(2 * Minute, 3 * Minute, "EXAMPLE")
    ensures Config(env, lookup, parse)["exampleexample.com"] == CheckParam(1 * Second, 10 * Second, "TEST2")
  {
    ShapeNames(env);
    TestTargets(env, lookup);
    TestConfigurable(env, lookup, parse);
    TestFirstLink(env, lookup, parse);
    TestSecondLink(env, lookup, parse);
  }
}

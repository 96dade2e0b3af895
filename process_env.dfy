/**
 * parseEnv: builds the map from link to check parameters in three passes
 * over the environment entries, mutating one map.
 */
module ProcessEnv {
  import opened Wrappers
  import opened GoStrings
  import opened Checks
  import opened EnvConfig

  /** The first pass: every `HOST_` entry stores its link with the default durations. */
  method CollectHosts(envVars: seq<string>, lookup: Lookup) returns (checkList: map<string, CheckParam>)
    ensures checkList == Targets(envVars, lookup)
  {
    checkList := map[];
    for i := 0 to |envVars|
      invariant checkList == Targets(envVars[..i], lookup)
    {
      assert envVars[..i + 1][..i] == envVars[..i];
      if HasPrefix(envVars[i], HostPrefix) {
        var varName := TrimPrefix(BeforeFirst(envVars[i], '='), HostPrefix);
        var link := lookup(BeforeFirst(envVars[i], '='));
        checkList := checkList[link := CheckParam(DefaultLatency, DefaultPeriod, varName)];
      }
    }
    assert envVars[..|envVars|] == envVars;
  }

  /**
   * One override pass: for each link, in whatever order the map is visited,
   * the first entry named `<prefix><name>` replaces the field with the
   * duration read from that variable. A duration that does not parse stops
   * the pass with an error.
   */
  method OverridePass(checkList: map<string, CheckParam>, envVars: seq<string>, lookup: Lookup,
                      parse: DurationParser, field: Field)
    returns (r: Result<map<string, CheckParam>, ConfigError>)
    ensures r.Success? <==> PassOk(checkList, envVars, lookup, parse, field)
    ensures r.Success? ==> r.value == Pass(checkList, envVars, lookup, parse, field)
    ensures r.Failure? ==> exists link :: (link in checkList
      && Override(envVars, lookup, parse, field, checkList[link].envName) == Failure(r.error))
  {
    var result := checkList;
    var todo := checkList.Keys;
    while todo != {}
      invariant todo <= checkList.Keys
      invariant result.Keys == checkList.Keys
      invariant forall link | link in todo :: result[link] == checkList[link]
      invariant forall link | link in checkList && link !in todo ::
        && Override(envVars, lookup, parse, field, checkList[link].envName).Success?
        && result[link] == Apply(checkList[link], Override(envVars, lookup, parse, field, checkList[link].envName).value, field)
      decreases todo
    {
      var link :| link in todo;
      var params := result[link];
      var key := field.Prefix() + result[link].envName;
      var i := 0;
      while i < |envVars|
        invariant 0 <= i <= |envVars|
        invariant forall j | 0 <= j < i :: VarName(envVars[j]) != key
      {
        var varName := BeforeFirst(envVars[i], '=');
        if varName == key {
          assert FirstMatch(envVars, key).Some?;
          var parsed := parse(lookup(varName));
          if parsed.None? {
            return Failure(InvalidDuration(varName));
          }
          params := With(params, field, parsed.value);
          result := result[link := params];
          break;
        }
        i := i + 1;
      }
      todo := todo - {link};
    }
    return Success(result);
  }

  /**
   * parseEnv: the links of the `HOST_` entries with their durations, or the
   * error of the first override that does not parse; latency overrides are
   * all read before any period override.
   */
  method ParseEnv(envVars: seq<string>, lookup: Lookup, parse: DurationParser)
    returns (r: Result<map<string, CheckParam>, ConfigError>)
    ensures r.Success? <==> Configurable(envVars, lookup, parse)
    ensures r.Success? ==> r.value == Config(envVars, lookup, parse)
    ensures r.Failure? ==> exists link :: (link in Targets(envVars, lookup)
      && if PassOk(Targets(envVars, lookup), envVars, lookup, parse, Latency)
          then Override(envVars, lookup, parse, Period, Targets(envVars, lookup)[link].envName) == Failure(r.error)
          else Override(envVars, lookup, parse, Latency, Targets(envVars, lookup)[link].envName) == Failure(r.error))
  {
    var checkList := CollectHosts(envVars, lookup);
    var latencies := OverridePass(checkList, envVars, lookup, parse, Latency);
    if latencies.Failure? {
      return Failure(latencies.error);
    }
    checkList := latencies.value;
    var periods := OverridePass(checkList, envVars, lookup, parse, Period);
    if periods.Failure? {
      return Failure(periods.error);
    }
    return Success(periods.value);
  }
}

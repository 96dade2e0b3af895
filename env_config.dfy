/**
 * What parseEnv computes, as pure functions over the ordered list of
 * `KEY=VALUE` environment entries, and the properties of that result.
 *
 * The parser reads the environment twice: once as the list of entries it is
 * given, and once through a lookup by variable name (the environment library's
 * `Get(key).MustString()`). The lookup is the parameter `lookup`. Durations
 * are parsed by the library's `MustDuration()`, which panics on text that is
 * not a Go duration; that parser is the parameter `parse`, and `None` stands
 * for the panic.
 */
module EnvConfig {
  import opened Wrappers
  import opened GoStrings
  import opened Checks

  const HostPrefix := "HOST_"
  const LatencyPrefix := "LATENCY_"
  const PeriodPrefix := "PERIOD_"

  const DefaultLatency: Duration := 1 * Second
  const DefaultPeriod: Duration := 10 * Second

  /** Reads a variable of the process environment by name. */
  type Lookup = string -> string

  /** Parses Go duration syntax; None where MustDuration panics. */
  type DurationParser = string -> Option<Duration>

  /** The configuration error: the named variable does not hold a duration. */
  datatype ConfigError = InvalidDuration(varName: string)

  /** The two durations an override pass can replace. */
  datatype Field = Latency | Period
  {
    function Prefix(): string
    {
      if Latency? then LatencyPrefix else PeriodPrefix
    }

    function Other(): Field
    {
      if Latency? then Period else Latency
    }

    /** The duration a target has when no entry overrides this field. */
    function Default(): Duration
    {
      if Latency? then DefaultLatency else DefaultPeriod
    }
  }

  /** The duration of p that field names. */
  function FieldOf(p: CheckParam, field: Field): Duration
  {
    if field.Latency? then p.latency else p.period
  }

  /** p with one duration replaced. */
  function With(p: CheckParam, field: Field, d: Duration): (q: CheckParam)
    ensures FieldOf(q, field) == d
    ensures FieldOf(q, field.Other()) == FieldOf(p, field.Other())
    ensures q.envName == p.envName
  {
    if field.Latency? then p.(latency := d) else p.(period := d)
  }

  /** The variable name of an entry: the text before its first `=`. */
  function VarName(entry: string): string
  {
    BeforeFirst(entry, '=')
  }

  /** Entries that declare a target. */
  predicate IsHost(entry: string)
  {
    HasPrefix(entry, HostPrefix)
  }

  /** The configuration name of a host entry: its variable name without `HOST_`. */
  function HostName(entry: string): string
  {
    TrimPrefix(VarName(entry), HostPrefix)
  }

  /** The link a host entry declares: its variable looked up by name. */
  function LinkOf(entry: string, lookup: Lookup): string
  {
    lookup(VarName(entry))
  }

  /** The links of all host entries. */
  function Links(env: seq<string>, lookup: Lookup): set<string>
  {
    set i | 0 <= i < |env| && IsHost(env[i]) :: LinkOf(env[i], lookup)
  }

  /**
   * The first pass: every host entry, in order, stores its link with the
   * default durations and its configuration name; a later entry with the
   * same link replaces an earlier one.
   */
  function Targets(env: seq<string>, lookup: Lookup): map<string, CheckParam>
  {
    if env == [] then map[]
    else
      var m := Targets(env[..|env| - 1], lookup);
      var e := env[|env| - 1];
      if IsHost(e) then m[LinkOf(e, lookup) := CheckParam(DefaultLatency, DefaultPeriod, HostName(e))]
      else m
  }

  /** The index of the first entry whose variable name is key, if any. */
  function FirstMatch(env: seq<string>, key: string): (r: Option<nat>)
    ensures r.Some? ==> r.value < |env| && VarName(env[r.value]) == key
    ensures r.Some? ==> forall j :: 0 <= j < r.value ==> VarName(env[j]) != key
    ensures r.None? ==> forall j :: 0 <= j < |env| ==> VarName(env[j]) != key
  {
    if env == [] then None
    else if VarName(env[0]) == key then Some(0)
    else match FirstMatch(env[1..], key)
      case None => None
      case Some(i) => Some(i + 1)
  }

  /**
   * What an override pass does for the target named name: nothing when no
   * entry is named `<prefix><name>`; otherwise the duration read from that
   * variable, or the error when it does not parse.
   */
  function Override(env: seq<string>, lookup: Lookup, parse: DurationParser, field: Field, name: string)
    : Result<Option<Duration>, ConfigError>
  {
    var key := field.Prefix() + name;
    match FirstMatch(env, key)
    case None => Success(None)
    case Some(_) =>
      match parse(lookup(key))
      case None => Failure(InvalidDuration(key))
      case Some(d) => Success(Some(d))
  }

  /** An override pass over m completes without a panic. */
  predicate PassOk(m: map<string, CheckParam>, env: seq<string>, lookup: Lookup, parse: DurationParser, field: Field)
  {
    forall link | link in m :: Override(env, lookup, parse, field, m[link].envName).Success?
  }

  /** Apply a found override to one target's parameters. */
  function Apply(p: CheckParam, o: Option<Duration>, field: Field): CheckParam
  {
    match o
    case None => p
    case Some(d) => With(p, field, d)
  }

  /**
   * The result of one override pass: each target is updated from its own
   * configuration name only. The pass keeps the links, the names and the
   * other duration.
   */
  function Pass(m: map<string, CheckParam>, env: seq<string>, lookup: Lookup, parse: DurationParser, field: Field)
    : (r: map<string, CheckParam>)
    requires PassOk(m, env, lookup, parse, field)
    ensures r.Keys == m.Keys
    ensures forall link | link in m :: r[link].envName == m[link].envName
    ensures forall link | link in m :: FieldOf(r[link], field.Other()) == FieldOf(m[link], field.Other())
  {
    map link | link in m :: Apply(m[link], Override(env, lookup, parse, field, m[link].envName).value, field)
  }

  /** Configuration loads without a panic: every override of every target parses. */
  predicate Configurable(env: seq<string>, lookup: Lookup, parse: DurationParser)
  {
    var t := Targets(env, lookup);
    PassOk(t, env, lookup, parse, Latency) && PassOk(t, env, lookup, parse, Period)
  }

  /** The three passes one after the other: hosts, then latency overrides, then period overrides. */
  function Config(env: seq<string>, lookup: Lookup, parse: DurationParser): (c: map<string, CheckParam>)
    requires Configurable(env, lookup, parse)
    ensures c.Keys == Targets(env, lookup).Keys
    ensures forall link | link in c :: c[link].envName == Targets(env, lookup)[link].envName
  {
    var t := Targets(env, lookup);
    var afterLatency := Pass(t, env, lookup, parse, Latency);
    assert PassOk(afterLatency, env, lookup, parse, Period) by {
      forall link | link in afterLatency
        ensures afterLatency[link].envName == t[link].envName
      {
      }
    }
    Pass(afterLatency, env, lookup, parse, Period)
  }
}

/** Properties of the configuration that parseEnv builds. */
module EnvConfigFacts {
  import opened Wrappers
  import opened GoStrings
  import opened Checks
  import opened EnvConfig

  /**
   * A link is a target exactly when some host entry declares it: entries
   * that do not begin with `HOST_` never create one.
   */
  lemma {:induction false} TargetsKeys(env: seq<string>, lookup: Lookup, link: string)
    ensures link in Targets(env, lookup) <==>
      exists i :: 0 <= i < |env| && IsHost(env[i]) && LinkOf(env[i], lookup) == link
  {
    if env != [] {
      var init := env[..|env| - 1];
      TargetsKeys(init, lookup, link);
      if link in Targets(init, lookup) {
        var i :| 0 <= i < |init| && IsHost(init[i]) && LinkOf(init[i], lookup) == link;
        assert env[i] == init[i];
      }
      if exists i :: 0 <= i < |env| && IsHost(env[i]) && LinkOf(env[i], lookup) == link {
        var i :| 0 <= i < |env| && IsHost(env[i]) && LinkOf(env[i], lookup) == link;
        if i < |init| {
          assert init[i] == env[i];
        }
      }
    }
  }

  /** Every target starts with a latency of one second and a period of ten seconds. */
  lemma {:induction false} TargetsDefaults(env: seq<string>, lookup: Lookup, link: string)
    requires link in Targets(env, lookup)
    ensures Targets(env, lookup)[link].latency == 1 * Second
    ensures Targets(env, lookup)[link].period == 10 * Second
  {
    var init := env[..|env| - 1];
    if link in Targets(init, lookup) {
      TargetsDefaults(init, lookup, link);
    }
  }

  /**
   * The name of a target comes from the last host entry, in input order,
   * that declares its link.
   */
  lemma {:induction false} TargetsLastHost(env: seq<string>, lookup: Lookup, link: string)
    requires link in Targets(env, lookup)
    ensures exists i :: (0 <= i < |env| && IsHost(env[i]) && LinkOf(env[i], lookup) == link
      && Targets(env, lookup)[link].envName == HostName(env[i])
      && forall j :: i < j < |env| && IsHost(env[j]) ==> LinkOf(env[j], lookup) != link)
  {
    var init := env[..|env| - 1];
    var e := env[|env| - 1];
    if IsHost(e) && LinkOf(e, lookup) == link {
      assert IsHost(env[|env| - 1]);
    } else {
      TargetsLastHost(init, lookup, link);
      var i :| 0 <= i < |init| && IsHost(init[i]) && LinkOf(init[i], lookup) == link
        && Targets(init, lookup)[link].envName == HostName(init[i])
        && forall j :: i < j < |init| && IsHost(init[j]) ==> LinkOf(init[j], lookup) != link;
      assert env[i] == init[i];
      assert forall j :: i < j < |env| && IsHost(env[j]) ==> LinkOf(env[j], lookup) != link by {
        forall j | i < j < |env| && IsHost(env[j])
          ensures LinkOf(env[j], lookup) != link
        {
          if j < |init| {
            assert env[j] == init[j];
          }
        }
      }
    }
  }

  /** Duplicate links collapse: there are as many targets as distinct declared links. */
  lemma TargetCount(env: seq<string>, lookup: Lookup)
    ensures Targets(env, lookup).Keys == Links(env, lookup)
    ensures |Targets(env, lookup)| == |Links(env, lookup)|
  {
  }

  /**
   * The duration of a field of a loaded target: the default when no entry's
   * variable name is exactly `<prefix><name>`, and otherwise the duration
   * read from that variable. The value is read by name, so every matching
   * entry, the first one included, gives the same value.
   */
  lemma ConfigField(env: seq<string>, lookup: Lookup, parse: DurationParser, link: string, field: Field)
    requires Configurable(env, lookup, parse)
    requires link in Config(env, lookup, parse)
    ensures var p := Config(env, lookup, parse)[link];
      var key := field.Prefix() + p.envName;
      && ((forall i | 0 <= i < |env| :: VarName(env[i]) != key) ==> FieldOf(p, field) == field.Default())
      && (forall i | 0 <= i < |env| && VarName(env[i]) == key :: parse(lookup(key)) == Some(FieldOf(p, field)))
  {
    var t := Targets(env, lookup);
    var afterLatency := Pass(t, env, lookup, parse, Latency);
    TargetsDefaults(env, lookup, link);
    assert afterLatency[link].envName == t[link].envName;
  }

  /** Some entry is named `<prefix><name>` and that variable does not hold a duration. */
  predicate BadOverride(env: seq<string>, lookup: Lookup, parse: DurationParser, field: Field, name: string)
  {
    && (exists i :: 0 <= i < |env| && VarName(env[i]) == field.Prefix() + name)
    && parse(lookup(field.Prefix() + name)).None?
  }

  /** An override pass panics on a target exactly when its override is bad. */
  lemma OverrideFails(env: seq<string>, lookup: Lookup, parse: DurationParser, field: Field, name: string)
    ensures Override(env, lookup, parse, field, name).Failure? <==> BadOverride(env, lookup, parse, field, name)
  {
  }

  /**
   * Loading fails exactly when some target has an override entry whose
   * variable does not hold a duration (where the source panics).
   */
  lemma ConfigurableIff(env: seq<string>, lookup: Lookup, parse: DurationParser)
    ensures !Configurable(env, lookup, parse) <==>
      exists link, field: Field :: (link in Targets(env, lookup)
        && BadOverride(env, lookup, parse, field, Targets(env, lookup)[link].envName))
  {
    if !Configurable(env, lookup, parse) {
      FailureHasCause(env, lookup, parse);
    } else {
      NoBadOverride(env, lookup, parse);
    }
  }

  /** A failed load names a target and a field whose override is bad. */
  lemma FailureHasCause(env: seq<string>, lookup: Lookup, parse: DurationParser)
    requires !Configurable(env, lookup, parse)
    ensures exists link, field: Field :: (link in Targets(env, lookup)
        && BadOverride(env, lookup, parse, field, Targets(env, lookup)[link].envName))
  {
    var t := Targets(env, lookup);
    var field: Field := if PassOk(t, env, lookup, parse, Latency) then Period else Latency;
    var link :| link in t && Override(env, lookup, parse, field, t[link].envName).Failure?;
    OverrideFails(env, lookup, parse, field, t[link].envName);
  }

  /** A successful load has no bad override. */
  lemma NoBadOverride(env: seq<string>, lookup: Lookup, parse: DurationParser)
    requires Configurable(env, lookup, parse)
    ensures forall link, field: Field | link in Targets(env, lookup) ::
      !BadOverride(env, lookup, parse, field, Targets(env, lookup)[link].envName)
  {
  }
}

# pinger configuration parser, modelled in Dafny

pinger watches a set of network targets. Its configuration comes from the
process environment. `parseEnv` (internal/process_env/process_env.go) turns the
list of `KEY=VALUE` entries into a map from target link to check parameters.
It runs in three passes over the entries, all updating one map:

1. Every entry that begins with `HOST_` declares a target. Its variable name is
   the text before the first `=`. The link is that variable's value, read again
   from the environment by name. The target's name (`EnvName`) is the variable
   name without `HOST_`. The latency starts at one second and the period at ten
   seconds. A later entry with the same link replaces an earlier one.
2. For each target, the first entry whose variable name is exactly
   `LATENCY_<EnvName>` replaces the latency. The new value is that variable's
   value, parsed as a Go duration.
3. The same happens for the period, with `PERIOD_<EnvName>`.

The model has these parts:

- `GoStrings` (go_strings.dfy): `strings.HasPrefix`, `strings.TrimPrefix`, and
  `strings.Split(s, "=")[0]` as `BeforeFirst`. The last is characterised by a
  lemma: it is the prefix of `s` that holds no `=` and is followed by `=`
  unless it is all of `s`.
- `Checks` (checks.dfy): `time.Duration` as a signed 64-bit count of
  nanoseconds, and the fields of `CheckParam` that configuration sets.
- `EnvConfig` (env_config.dfy): the specification as pure functions.
  `Targets` is the first pass. `FirstMatch` and `Override` give what an
  override pass does for one target. `Pass` is a whole override pass.
  `Config` is the three passes together. `Configurable` holds when no duration
  fails to parse.
- `EnvConfigFacts` (env_config_facts.dfy): the properties of that
  specification.
- `ProcessEnv` (process_env.dfy): `parseEnv` as imperative methods, proved
  against the specification functions. `CollectHosts` is the host pass.
  `OverridePass` serves both override passes: Go writes the latency pass and
  the period pass as two copies of one loop, and the model has one method with
  a `Field` parameter. `ParseEnv` runs the three passes on one map variable.
- `ProcessEnvExample` (process_env_example.dfy): the package's table test,
  worked through the specification.

The environment library is not part of this model. Its two calls become
parameters:

- `env.Get(name).MustString()` is `lookup: string -> string`.
- `MustDuration()` is `parse: string -> Option<Duration>`. `None` stands for
  the panic on text that is not a duration.

`ParseEnv` returns `Failure(InvalidDuration(name))` where the source panics.

The durations are read through `lookup` by variable name, not from the text
after `=`. So all entries with the override's name yield the same duration.
Which of them is "first" decides only whether an override happens.

Go visits a map in an unspecified order. `OverridePass` picks the next link
with `:|`, so its postcondition holds for every visiting order. This proves
that a successful result does not depend on the order: each target is updated
only from its own name. When a pass fails, which failing variable is reported
does depend on the order; the contract says only that it is a failing
override of some target.

The table test in internal/process_env/process_env_test.go expects a period of
ten minutes for `exampleexample.com`. That target has no `PERIOD_` entry, so the
code gives it the default of ten seconds (process_env.go line 21). The model
follows the code. `TestParseEnvCase` proves the ten-second period.

## Model

| member | source | states |
|---|---|---|
| GoStrings.TrimPrefix | internal/process_env/process_env.go:35 | When s begins with the prefix, the prefix followed by the result is s. Otherwise the result is s unchanged. |
| GoStrings.BeforeFirstSpec | internal/process_env/process_env.go:35 | `Split(s, "=")[0]` is a prefix of s that holds no `=`. It is followed by `=` unless it is the whole of s. |
| GoStrings.BeforeFirstUnique | internal/process_env/process_env.go:61 | Those three properties determine the variable name uniquely. |
| GoStrings.BeforeFirstIs | internal/process_env/process_env.go:61-63 | An entry's variable name equals a key exactly when the entry is the key itself or begins with the key followed by `=`. This is an exact match, not a prefix match: `LATENCY_AB=..` does not override target `A`. |
| GoStrings.HasPrefix | internal/process_env/process_env.go:33 | `strings.HasPrefix`: s is at least as long as the prefix and begins with it. It is a definition; `TrimPrefix` and `BeforeFirstSpec` state their results through it. |
| GoStrings.BeforeFirst | internal/process_env/process_env.go:35 | `strings.Split(s, "=")[0]`, used for the variable name at lines 35, 37, 61 and 77. It is a definition; `BeforeFirstSpec` and `BeforeFirstUnique` prove that it is the text before the first `=`, or all of s when there is none. |
| EnvConfig.With | internal/process_env/process_env.go:64-65 | Setting one duration of a target's parameters (`params.Latency = …` here, `params.Period = …` at lines 80-81) gives that field the new value and leaves the other duration and `EnvName` unchanged. |
| EnvConfig.Targets | internal/process_env/process_env.go:32-45 | The host pass as a left fold over the entries: each `HOST_` entry stores its looked-up link with the default durations and its name, and a later entry with the same link overwrites. Its properties are proved in `TargetsKeys`, `TargetsDefaults`, `TargetsLastHost` and `TargetCount`. |
| EnvConfig.Override | internal/process_env/process_env.go:60-68 | What one target's search does (lines 76-84 for the period): nothing when no entry's variable name is `<prefix><EnvName>`, otherwise the duration `MustDuration` reads from that variable, or the error where it panics. Its properties are proved in `OverrideFails` and `ConfigField`. |
| EnvConfig.FirstMatch | internal/process_env/process_env.go:60-68 | The search returns the index of the first entry whose variable name is the key, with no earlier entry having that name. It returns nothing exactly when no entry has that name. |
| EnvConfig.Pass | internal/process_env/process_env.go:57-86 | An override pass keeps the set of links, every target's `EnvName`, and the duration it does not override. The latency pass leaves the period alone, and the period pass leaves the latency alone. |
| EnvConfig.Config | internal/process_env/process_env.go:28-89 | The override passes add no link and drop none. Each target keeps the `EnvName` that the host pass gave it. |
| EnvConfigFacts.TargetsKeys | internal/process_env/process_env.go:32-45 | A link is a target exactly when some `HOST_` entry's looked-up value is that link. Entries that do not begin with `HOST_` never create a target. |
| EnvConfigFacts.TargetsDefaults | internal/process_env/process_env.go:39-43 | After the host pass, every target has latency 1s and period 10s. |
| EnvConfigFacts.TargetsLastHost | internal/process_env/process_env.go:32-45 | A target's `EnvName` comes from the last `HOST_` entry, in input order, that declares its link. No later host entry declares that link. |
| EnvConfigFacts.TargetCount | internal/process_env/process_env.go:39 | Duplicate links collapse. The set of targets is the set of distinct declared links, so the number of targets equals the number of distinct links. |
| EnvConfigFacts.ConfigField | internal/process_env/process_env.go:57-86 | If no entry's variable name is exactly `LATENCY_<EnvName>`, the latency is the 1s default. Otherwise the latency is the duration parsed from that variable. The same holds for `PERIOD_` and the 10s default. |
| EnvConfigFacts.OverrideFails | internal/process_env/process_env.go:60-68 | An override fails for a target exactly when an entry has the override's name and that variable does not parse as a duration. |
| EnvConfigFacts.ConfigurableIff | internal/process_env/process_env.go:57-86 | Loading fails exactly when some target has a latency or period override whose variable does not parse as a duration. |
| ProcessEnv.CollectHosts | internal/process_env/process_env.go:29-45 | The host loop builds exactly the map `Targets` of the entries. |
| ProcessEnv.OverridePass | internal/process_env/process_env.go:57-86 | For every visiting order of the links, the loop with the first-match `break` succeeds exactly when every override parses. On success it yields `Pass`. On failure it reports the failing variable of some target. |
| ProcessEnv.ParseEnv | internal/process_env/process_env.go:28-89 | `parseEnv` succeeds exactly when the configuration is loadable, and then returns `Config`. Otherwise it reports a failing latency override, or a failing period override when every latency override parses. |
| ProcessEnvExample.TestParseEnvCase | internal/process_env/process_env_test.go:14-32 | The lemma covers any four entries named as in the test; the test's own entries are such (`TestEnvShape`). With the test's variables set, they give two targets. `http://example.com` gets latency 2m, period 3m and name `EXAMPLE`. `exampleexample.com` gets latency 1s, period 10s and name `TEST2`. |

## Left out

- `ReadEnv` (process_env.go:24-26) only passes `os.Environ()` to `parseEnv`. The model takes the entries as a parameter.
- The logging of the watched links (process_env.go:47-54) is output only.
- `Get(...).MustString()` and `MustDuration()` come from the external package github.com/inhuman/tools/env, which is not part of this model. They are the `lookup` and `parse` parameters. Go's duration grammar and the library's handling of an unset variable are not modelled.
- The panic of `MustDuration()` is modelled as an error result.
- ProcessEnv.ParseEnv: on failure, the contract does not say which failing variable is reported. In Go that depends on map iteration order. The contract says only which pass fails and that the reported variable is a failing override of some target.
- The `ipAddresses` and `Link` fields of `CheckParam` are not modelled. Configuration leaves them at their zero values.
- Go writes the latency pass and the period pass as two copies of one loop. The model has one method, `OverridePass`, with a `Field` parameter.
- internal/checks/checks.go is not part of this model: the DNS, HTTP, TLS and ICMP checks are network I/O, and the timeout guard is a goroutine racing a context deadline.
- cmd/pinger/main.go is not part of this model: the ticker loop, shutdown, and Prometheus gauge registration are concurrency and foreign-library plumbing.

# Configuration validation of nginx-asg-sync, in Dafny

nginx-asg-sync keeps the upstream groups of NGINX Plus in step with cloud
autoscaling groups. Before it starts, it reads a YAML configuration: a
region, an API endpoint, a sync interval and a list of upstreams, each with a
name, an autoscaling group, a port, a kind and an optional connection limit.
This project models the part of `cmd/sync/config.go` that decides whether
such a configuration is acceptable, and proves what it promises:

- `Wrappers.dfy`: `Option` (success is `None`, like Go's `nil` error) and `Result`.
- `Decimal.dfy`: decimal rendering of integers as Go's `%d` writes them
  (`FromInt`), a reader for exactly those strings (`Parse`), and both round trips.
- `Config.dfy` (module `SyncConfig`): the `config` and `upstream` records as
  datatypes; the validator (`ValidateUpstream`, `ValidateUpstreamsFrom` for the
  loop over the upstreams, `ValidateConfig`); the error catalogue as the
  datatype `ValidationError`, whose variants carry the field and the upstream
  name in place of formatted messages; `ParseConfig`, the decode-then-validate
  entry point; and `MakeIntParam` / `MakeExtraParams`, the `&max_conns=<n>`
  query-parameter helper.
- `ValidationOrder.dfy`: an independent statement of the validation order. All
  requirements form one ranked list of checks (region, API endpoint, sync
  interval, upstreams present, then for each upstream in list order: name,
  autoscaling group, port, kind). The theorems say that the validator accepts
  exactly when no check fails. Otherwise it reports the error of the earliest
  failing check, whatever else is wrong.
- `ValidatorFacts.dfy`: consequences of these definitions. The kind test accepts
  only "http" and "stream". A negative port passes. Valid upstreams in front of
  a list, and upstreams appended after an error, do not change the outcome. It
  also holds worked examples.

Where the code and the written description of the configuration differ, the
model follows the code. The port and the sync interval are refused only when
they are zero, so negative values pass. The message for a bad kind says "http
or tcp", but the accepted kinds are "http" and "stream". The model accepts
"stream" and rejects "tcp".

## Model

| member | source | states |
|---|---|---|
| `Decimal.FromNat` | cmd/sync/config.go:59 | the digits of a natural number are non-empty, all decimal digits, with no leading zero; the first digit is '0' exactly for 0 |
| `Decimal.FromInt` | cmd/sync/config.go:59 | `%d` of an int starts with '-' exactly when the value is negative |
| `Decimal.ParseFromInt` | cmd/sync/config.go:59 | reading back the `%d` rendering of any int gives that int |
| `Decimal.FromIntOfParse` | cmd/sync/config.go:59 | every string the reader accepts is the `%d` rendering of the value read, so rendering is a bijection onto canonical decimal strings |
| `Decimal.ValueOfFromNat` | cmd/sync/config.go:59 | the digits produced for n have the value n |
| `Decimal.FromNatOfValue` | cmd/sync/config.go:59 | a canonical digit string is the rendering of its own value |
| `SyncConfig.ValidateUpstream` | cmd/sync/config.go:86-97 | an upstream passes iff its name and autoscaling group are non-empty, its port is non-zero and its kind is "http" or "stream"; every failure is an upstream error; the name error is reported exactly when the name is empty and carries no name; every other upstream error carries the upstream's name |
| `SyncConfig.ValidateUpstreamsFrom` | cmd/sync/config.go:85-98 | the loop over the upstreams returns no error iff every remaining upstream is valid, and any error it returns is an upstream error |
| `SyncConfig.ValidateConfig` | cmd/sync/config.go:70-101 | a configuration is accepted iff region and API endpoint are non-empty, the sync interval is non-zero, there is at least one upstream and every upstream is valid |
| `SyncConfig.ParseConfig` | cmd/sync/config.go:33-45 | a decode error is returned unchanged and validation is skipped; a decoded but invalid configuration gives the validator's error; success happens iff decoding succeeds and the result is valid, and then returns the decoded configuration unchanged |
| `SyncConfig.MakeIntParam` | cmd/sync/config.go:58-60 | the parameter is '&', the name, '=', then text that reads back as the value |
| `SyncConfig.MakeExtraParams` | cmd/sync/config.go:62-68 | the extra parameters are empty iff `maxConns` is 0, and otherwise are the `max_conns` parameter for `maxConns`, negative values included |
| `ValidationOrder.RankInjective` | cmd/sync/config.go:70-101 | no two checks share a position in the validation order |
| `ValidationOrder.ValidateConfigAcceptsIffNoCheckFails` | cmd/sync/config.go:70-101 | the validator accepts exactly the configurations on which no check in the list fails |
| `ValidationOrder.ValidUpstreamsSkipped` | cmd/sync/config.go:85-98 | a run of valid upstreams is stepped over without effect on the loop's result |
| `ValidationOrder.FirstUpstreamCheckReported` | cmd/sync/config.go:86-97 | within one upstream, the first failing check in the order name, autoscaling group, port, kind decides the error |
| `ValidationOrder.FirstFailingCheckReported` | cmd/sync/config.go:70-101 | if a check fails and every earlier check passes, the validator returns that check's error, whatever later checks say; top-level checks precede all upstreams, and earlier upstreams precede later ones |
| `ValidationOrder.EarliestFailingCheckExists` | cmd/sync/config.go:70-101 | whenever some check fails, there is a failing check that comes before all the others |
| `ValidationOrder.ReportedErrorIsEarliestFailure` | cmd/sync/config.go:70-101 | every reported error is the error of the earliest failing check |
| `ValidatorFacts.KindRejectedIffNotAccepted` | cmd/sync/config.go:95-96 | the kind guard, with its separate emptiness test, rejects exactly the kinds other than "http" and "stream"; "tcp" is rejected |
| `ValidatorFacts.NegativePortAccepted` | cmd/sync/config.go:92-94 | an otherwise valid upstream with a negative port passes |
| `ValidatorFacts.ValidateUpstreamsFromShift` | cmd/sync/config.go:85-98 | the loop's result from a position depends only on the upstreams from there on |
| `ValidatorFacts.ValidateUpstreamsFromPrefix` | cmd/sync/config.go:85-98 | once the loop finds an error, upstreams after the list do not change it |
| `ValidatorFacts.ValidUpstreamsInFrontTransparent` | cmd/sync/config.go:81-98 | putting valid upstreams in front of a non-empty list leaves the result unchanged |
| `ValidatorFacts.AppendedUpstreamsIgnoredAfterError` | cmd/sync/config.go:81-98 | a rejected configuration with at least one upstream keeps its error when upstreams are appended |
| `ValidatorFacts.SecondUpstreamKindReported` | cmd/sync/config.go:70-101 | with a valid first upstream and a second of kind "grpc", the kind error names the second upstream, and an empty region overrides it |
| `ValidatorFacts.MaxConnsParamExample` | cmd/sync/config.go:58-68 | a limit of 100 is written "&max_conns=100" and -7 is written "&max_conns=-7" |

## Left out

- `unmarshalConfig` (cmd/sync/config.go:47-56) calls a YAML library that is not part of this model. `ParseConfig` takes the decoder as a function parameter. Key renaming by struct tags, zero values for missing keys and unknown keys are not modelled.
- `SyncIntervalInSeconds` is a `time.Duration` in the source. Here it is an `int`, since only the test against zero matters.
- Error messages are not rendered. Each message template is a variant of `ValidationError`, and `Key()` gives the field name that a message would contain.
- Go's `error` is one interface type. `ParseError` tells a decode error from a validation error, and the decode error is passed on as it is.
- Go's `int` is 64 bits wide; here it is unbounded. `%d` writes every 64-bit value as `FromInt` does, so nothing about the output is lost.
- A nil `*config` or `*upstream` is not modelled. The source never passes nil on these paths.
- How the configuration is used later (the sync loop, the cloud and NGINX Plus APIs) is not part of this model.

/**
 * The configuration of the autoscaling-group sync process (cmd/sync/config.go):
 * the decoded `config` and `upstream` records, the fixed-order validator that
 * reports the first violated requirement, the query-parameter helper for an
 * upstream's optional settings, and the decode-then-validate entry point.
 */
module SyncConfig {
  import opened Wrappers
  import Decimal

  type Byte = b: int | 0 <= b < 256

  /** One upstream group: its NGINX upstream name, the autoscaling group that feeds it,
      the port of its servers, its kind and an optional connection limit (0 = unset). */
  datatype Upstream = Upstream(
    name: string,
    autoscalingGroup: string,
    port: int,
    kind: string,
    maxConns: int)

  /** The whole configuration; the sync interval is counted only as "zero or not". */
  datatype Config = Config(
    region: string,
    apiEndpoint: string,
    syncIntervalInSeconds: int,
    upstreams: seq<Upstream>)

  /** Top-level fields that must not be empty, with the key the error names. */
  datatype ConfigField = RegionField | ApiEndpointField {
    function Key(): string {
      match this
      case RegionField => "region"
      case ApiEndpointField => "api_endpoint"
    }
  }

  /** Upstream string fields reported together with the upstream's name. */
  datatype UpstreamField = AutoscalingGroupField {
    function Key(): string {
      "autoscaling_group"
    }
  }

  /** The catalogue of validation errors, one variant per message template. */
  datatype ValidationError =
    | MissingField(field: ConfigField)
    | ZeroSyncInterval
    | NoUpstreams
    | MissingUpstreamName
    | MissingUpstreamField(upstreamField: UpstreamField, upstream: string)
    | ZeroUpstreamPort(upstream: string)
    | BadUpstreamKind(upstream: string)
  {
    /** Errors about one upstream, as opposed to the top-level fields. */
    predicate IsUpstreamError() {
      MissingUpstreamName? || MissingUpstreamField? || ZeroUpstreamPort? || BadUpstreamKind?
    }

    /** Errors whose message carries the offending upstream's name. */
    predicate NamesUpstream() {
      MissingUpstreamField? || ZeroUpstreamPort? || BadUpstreamKind?
    }
  }

  const HTTP_KIND: string := "http"
  const STREAM_KIND: string := "stream"
  const MAX_CONNS_KEY: string := "max_conns"

  /** The kinds an upstream may have. */
  predicate KindAccepted(kind: string) {
    kind == HTTP_KIND || kind == STREAM_KIND
  }

  /** The kind test as the validator writes it, with a separate emptiness test. */
  predicate KindRejected(kind: string) {
    kind == "" || !(kind == HTTP_KIND || kind == STREAM_KIND)
  }

  predicate UpstreamValid(u: Upstream) {
    && u.name != ""
    && u.autoscalingGroup != ""
    && u.port != 0
    && KindAccepted(u.kind)
  }

  predicate ConfigValid(cfg: Config) {
    && cfg.region != ""
    && cfg.apiEndpoint != ""
    && cfg.syncIntervalInSeconds != 0
    && |cfg.upstreams| > 0
    && forall i :: 0 <= i < |cfg.upstreams| ==> UpstreamValid(cfg.upstreams[i])
  }

  /** The checks on one upstream, in the order name, autoscaling group, port, kind. */
  function ValidateUpstream(u: Upstream): (r: Option<ValidationError>)
    ensures r.None? <==> UpstreamValid(u)
    ensures r.Some? ==> r.value.IsUpstreamError()
    ensures r == Some(MissingUpstreamName) <==> u.name == ""
    ensures r.Some? && r.value.NamesUpstream() ==> r.value.upstream == u.name
  {
    if u.name == "" then
      Some(MissingUpstreamName)
    else if u.autoscalingGroup == "" then
      Some(MissingUpstreamField(AutoscalingGroupField, u.name))
    else if u.port == 0 then
      Some(ZeroUpstreamPort(u.name))
    else if KindRejected(u.kind) then
      Some(BadUpstreamKind(u.name))
    else
      None
  }

  /** The loop over the upstreams from position `from` on: the first upstream
      that fails a check ends the loop with that check's error. */
  function ValidateUpstreamsFrom(ups: seq<Upstream>, from: nat): (r: Option<ValidationError>)
    requires from <= |ups|
    ensures r.None? <==> forall i :: from <= i < |ups| ==> UpstreamValid(ups[i])
    ensures r.Some? ==> r.value.IsUpstreamError()
    decreases |ups| - from
  {
    if from == |ups| then
      None
    else
      var err := ValidateUpstream(ups[from]);
      if err.Some? then err else ValidateUpstreamsFrom(ups, from + 1)
  }

  /** `validateConfig`: `None` when the configuration is acceptable, otherwise the
      error of the first check that fails. */
  function ValidateConfig(cfg: Config): (r: Option<ValidationError>)
    ensures r.None? <==> ConfigValid(cfg)
  {
    if cfg.region == "" then
      Some(MissingField(RegionField))
    else if cfg.apiEndpoint == "" then
      Some(MissingField(ApiEndpointField))
    else if cfg.syncIntervalInSeconds == 0 then
      Some(ZeroSyncInterval)
    else if |cfg.upstreams| == 0 then
      Some(NoUpstreams)
    else
      ValidateUpstreamsFrom(cfg.upstreams, 0)
  }

  /** The two errors `parseConfig` can return: the decoder's, passed on as it is,
      or the validator's. */
  datatype ParseError<+E> = DecodeFailed(cause: E) | ValidationFailed(reason: ValidationError)

  /** `parseConfig`: decode the bytes (the YAML decoder is the parameter `decode`),
      then validate; the configuration is returned only when both succeed. */
  function ParseConfig<E>(decode: seq<Byte> -> Result<Config, E>, data: seq<Byte>): (r: Result<Config, ParseError<E>>)
    ensures decode(data).Failure? ==> r == Failure(DecodeFailed(decode(data).error))
    ensures decode(data).Success? && !ConfigValid(decode(data).value) ==>
      r.Failure? && r.error.ValidationFailed? && Some(r.error.reason) == ValidateConfig(decode(data).value)
    ensures r.Success? <==> decode(data).Success? && ConfigValid(decode(data).value)
    ensures r.Success? ==> r.value == decode(data).value
  {
    match decode(data)
    case Failure(e) => Failure(DecodeFailed(e))
    case Success(cfg) =>
      var err := ValidateConfig(cfg);
      if err.Some? then Failure(ValidationFailed(err.value)) else Success(cfg)
  }

  /** `makeIntParam`: the query parameter `&name=value`, the value written as `%d`
      writes it, so that the text after `=` reads back as the value. */
  function MakeIntParam(name: string, value: int): (r: string)
    ensures |r| >= |name| + 3
    ensures r[0] == '&' && r[1..|name| + 1] == name && r[|name| + 1] == '='
    ensures Decimal.Parse(r[|name| + 2..]) == Some(value)
  {
    var digits := Decimal.FromInt(value);
    var r := "&" + name + "=" + digits;
    assert r[1..|name| + 1] == name;
    assert r[|name| + 2..] == digits;
    Decimal.ParseFromInt(value);
    r
  }

  /** `makeExtraParams`: the optional parameters of an upstream, written into a
      buffer; only a non-zero `maxConns` contributes, as `&max_conns=<value>`. */
  method MakeExtraParams(ups: Upstream) returns (params: string)
    ensures params == "" <==> ups.maxConns == 0
    ensures ups.maxConns != 0 ==> params == MakeIntParam(MAX_CONNS_KEY, ups.maxConns)
  {
    var buffer: string := "";
    if ups.maxConns != 0 {
      buffer := buffer + MakeIntParam(MAX_CONNS_KEY, ups.maxConns);
    }
    params := buffer;
  }
}

/**
 * Further consequences of the validator's definition: which kinds and ports
 * pass, how valid upstreams before a problem and any upstreams after it
 * leave the outcome alone, and worked examples of the error precedence and
 * of the extra-parameter encoding.
 */
module ValidatorFacts {
  import opened Wrappers
  import opened SyncConfig
  import opened ValidationOrder

  /** The separate emptiness test on `kind` adds nothing: an upstream kind is
      rejected exactly when it is neither "http" nor "stream" ("tcp" included). */
  lemma KindRejectedIffNotAccepted(kind: string)
    ensures KindRejected(kind) <==> !KindAccepted(kind)
    ensures kind == "tcp" ==> KindRejected(kind)
  {
  }

  /** Only a zero port is refused: a negative port passes validation. */
  lemma NegativePortAccepted(u: Upstream)
    requires u.name != "" && u.autoscalingGroup != "" && KindAccepted(u.kind)
    requires u.port < 0
    ensures ValidateUpstream(u) == None
  {
  }

  /** The loop's outcome depends only on the upstreams from `from` on. */
  lemma {:induction false} ValidateUpstreamsFromShift(prefix: seq<Upstream>, ups: seq<Upstream>, from: nat)
    requires from <= |ups|
    ensures ValidateUpstreamsFrom(prefix + ups, |prefix| + from) == ValidateUpstreamsFrom(ups, from)
    decreases |ups| - from
  {
    if from < |ups| {
      assert (prefix + ups)[|prefix| + from] == ups[from];
      ValidateUpstreamsFromShift(prefix, ups, from + 1);
    }
  }

  /** Once the loop finds an error, upstreams appended after the list change nothing. */
  lemma {:induction false} ValidateUpstreamsFromPrefix(ups: seq<Upstream>, more: seq<Upstream>, from: nat)
    requires from <= |ups|
    requires ValidateUpstreamsFrom(ups, from).Some?
    ensures ValidateUpstreamsFrom(ups + more, from) == ValidateUpstreamsFrom(ups, from)
    decreases |ups| - from
  {
    assert (ups + more)[from] == ups[from];
    if ValidateUpstream(ups[from]).None? {
      ValidateUpstreamsFromPrefix(ups, more, from + 1);
    }
  }

  /** Valid upstreams placed in front of a non-empty list never produce an error
      and never change the error reported. */
  lemma ValidUpstreamsInFrontTransparent(cfg: Config, valid: seq<Upstream>)
    requires |cfg.upstreams| > 0
    requires forall j :: 0 <= j < |valid| ==> UpstreamValid(valid[j])
    ensures ValidateConfig(cfg.(upstreams := valid + cfg.upstreams)) == ValidateConfig(cfg)
  {
    var all := valid + cfg.upstreams;
    forall j | 0 <= j < |valid|
      ensures UpstreamValid(all[j])
    {
      assert all[j] == valid[j];
    }
    ValidUpstreamsSkipped(all, 0, |valid|);
    ValidateUpstreamsFromShift(valid, cfg.upstreams, 0);
  }

  /** A rejected configuration with at least one upstream stays rejected with the
      same error when more upstreams are appended. (With no upstreams the error is
      "no upstreams", which appending does change.) */
  lemma AppendedUpstreamsIgnoredAfterError(cfg: Config, more: seq<Upstream>)
    requires |cfg.upstreams| > 0
    requires ValidateConfig(cfg).Some?
    ensures ValidateConfig(cfg.(upstreams := cfg.upstreams + more)) == ValidateConfig(cfg)
  {
    if cfg.region != "" && cfg.apiEndpoint != "" && cfg.syncIntervalInSeconds != 0 {
      ValidateUpstreamsFromPrefix(cfg.upstreams, more, 0);
    }
  }

  /** A valid first upstream and a second one of kind "grpc": the kind error
      names the second upstream; an empty region overrides it. */
  lemma SecondUpstreamKindReported()
    ensures var first := Upstream("web", "web-asg", 80, "http", 0);
            var second := Upstream("api", "api-asg", 8080, "grpc", 0);
            var cfg := Config("us-west-2", "http://127.0.0.1:8080/api", 5, [first, second]);
            && ValidateConfig(cfg) == Some(BadUpstreamKind("api"))
            && ValidateConfig(cfg.(region := "")) == Some(MissingField(RegionField))
  {
  }

  /** A connection limit of 100 is written "&max_conns=100". */
  lemma MaxConnsParamExample()
    ensures MakeIntParam(MAX_CONNS_KEY, 100) == "&max_conns=100"
    ensures MakeIntParam(MAX_CONNS_KEY, -7) == "&max_conns=-7"
  {
  }
}

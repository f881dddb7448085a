/**
 * What the validator promises, stated independently of how it is written:
 * the requirements on a configuration form one list of checks in a fixed
 * order (region, API endpoint, sync interval, upstreams present, then every
 * upstream in list order with name, autoscaling group, port and kind), and
 * the error reported is the one belonging to the earliest check that fails.
 */
module ValidationOrder {
  import opened Wrappers
  import opened SyncConfig

  /** The per-upstream checks, in the order they run. */
  datatype UpstreamCheck = NameSet | GroupSet | PortNonZero | KindAllowed {
    function Offset(): nat {
      match this
      case NameSet => 0
      case GroupSet => 1
      case PortNonZero => 2
      case KindAllowed => 3
    }
  }

  /** Every check the validator can make; `OnUpstream(i, k)` is check `k` on the
      upstream at position `i`. */
  datatype Check =
    | RegionSet
    | ApiEndpointSet
    | IntervalNonZero
    | UpstreamsPresent
    | OnUpstream(index: nat, check: UpstreamCheck)

  /** The position of a check in the validation order. */
  function Rank(c: Check): nat {
    match c
    case RegionSet => 0
    case ApiEndpointSet => 1
    case IntervalNonZero => 2
    case UpstreamsPresent => 3
    case OnUpstream(i, k) => 4 + 4 * i + k.Offset()
  }

  predicate UpstreamCheckFails(u: Upstream, k: UpstreamCheck) {
    match k
    case NameSet => u.name == ""
    case GroupSet => u.autoscalingGroup == ""
    case PortNonZero => u.port == 0
    case KindAllowed => !KindAccepted(u.kind)
  }

  /** Check `c` applies to `cfg` and is violated. */
  predicate Fails(cfg: Config, c: Check) {
    match c
    case RegionSet => cfg.region == ""
    case ApiEndpointSet => cfg.apiEndpoint == ""
    case IntervalNonZero => cfg.syncIntervalInSeconds == 0
    case UpstreamsPresent => |cfg.upstreams| == 0
    case OnUpstream(i, k) => i < |cfg.upstreams| && UpstreamCheckFails(cfg.upstreams[i], k)
  }

  /** The error each check reports; the name check carries no upstream name. */
  function Diagnosis(cfg: Config, c: Check): ValidationError
    requires c.OnUpstream? ==> c.index < |cfg.upstreams|
  {
    match c
    case RegionSet => MissingField(RegionField)
    case ApiEndpointSet => MissingField(ApiEndpointField)
    case IntervalNonZero => ZeroSyncInterval
    case UpstreamsPresent => NoUpstreams
    case OnUpstream(i, k) =>
      var name := cfg.upstreams[i].name;
      match k
      case NameSet => MissingUpstreamName
      case GroupSet => MissingUpstreamField(AutoscalingGroupField, name)
      case PortNonZero => ZeroUpstreamPort(name)
      case KindAllowed => BadUpstreamKind(name)
  }

  /** No two checks share a position, so the earliest failing check is unique. */
  lemma RankInjective(c: Check, d: Check)
    requires Rank(c) == Rank(d)
    ensures c == d
  {
  }

  /** The validator accepts exactly the configurations on which no check fails. */
  lemma ValidateConfigAcceptsIffNoCheckFails(cfg: Config)
    ensures ValidateConfig(cfg).None? <==> forall c :: !Fails(cfg, c)
  {
    if forall c :: !Fails(cfg, c) {
      assert !Fails(cfg, RegionSet) && !Fails(cfg, ApiEndpointSet);
      assert !Fails(cfg, IntervalNonZero) && !Fails(cfg, UpstreamsPresent);
      forall i | 0 <= i < |cfg.upstreams|
        ensures UpstreamValid(cfg.upstreams[i])
      {
        assert !Fails(cfg, OnUpstream(i, NameSet)) && !Fails(cfg, OnUpstream(i, GroupSet));
        assert !Fails(cfg, OnUpstream(i, PortNonZero)) && !Fails(cfg, OnUpstream(i, KindAllowed));
      }
    }
  }

  /** A run of upstreams that pass every check is stepped over. */
  lemma {:induction false} ValidUpstreamsSkipped(ups: seq<Upstream>, from: nat, to: nat)
    requires from <= to <= |ups|
    requires forall j :: from <= j < to ==> UpstreamValid(ups[j])
    ensures ValidateUpstreamsFrom(ups, from) == ValidateUpstreamsFrom(ups, to)
    decreases (to as int) - (from as int)
  {
    if from < to {
      ValidUpstreamsSkipped(ups, from + 1, to);
    }
  }

  /** The error reported for one upstream is that of its first failing check. */
  lemma FirstUpstreamCheckReported(cfg: Config, i: nat, k: UpstreamCheck)
    requires i < |cfg.upstreams|
    requires UpstreamCheckFails(cfg.upstreams[i], k)
    requires forall k': UpstreamCheck :: k'.Offset() < k.Offset() ==> !UpstreamCheckFails(cfg.upstreams[i], k')
    ensures ValidateUpstream(cfg.upstreams[i]) == Some(Diagnosis(cfg, OnUpstream(i, k)))
  {
    var u := cfg.upstreams[i];
    match k
    case NameSet =>
    case GroupSet =>
      assert !UpstreamCheckFails(u, NameSet);
    case PortNonZero =>
      assert !UpstreamCheckFails(u, NameSet) && !UpstreamCheckFails(u, GroupSet);
    case KindAllowed =>
      assert !UpstreamCheckFails(u, NameSet) && !UpstreamCheckFails(u, GroupSet);
      assert !UpstreamCheckFails(u, PortNonZero);
  }

  /** The main ordering theorem: when check `c` fails and every earlier check
      passes, the validator reports exactly `c`'s error, whatever else is wrong
      with the configuration. */
  lemma {:induction false} FirstFailingCheckReported(cfg: Config, c: Check)
    requires Fails(cfg, c)
    requires forall d :: Rank(d) < Rank(c) ==> !Fails(cfg, d)
    ensures ValidateConfig(cfg) == Some(Diagnosis(cfg, c))
  {
    if c.OnUpstream? {
      var i, k := c.index, c.check;
      var ups := cfg.upstreams;
      assert !Fails(cfg, RegionSet) && !Fails(cfg, ApiEndpointSet);
      assert !Fails(cfg, IntervalNonZero) && !Fails(cfg, UpstreamsPresent);
      forall j | 0 <= j < i
        ensures UpstreamValid(ups[j])
      {
        assert !Fails(cfg, OnUpstream(j, NameSet)) && !Fails(cfg, OnUpstream(j, GroupSet));
        assert !Fails(cfg, OnUpstream(j, PortNonZero)) && !Fails(cfg, OnUpstream(j, KindAllowed));
      }
      forall k': UpstreamCheck | k'.Offset() < k.Offset()
        ensures !UpstreamCheckFails(ups[i], k')
      {
        assert !Fails(cfg, OnUpstream(i, k'));
      }
      FirstUpstreamCheckReported(cfg, i, k);
      ValidUpstreamsSkipped(ups, 0, i);
    } else {
      match c
      case RegionSet =>
      case ApiEndpointSet =>
        assert !Fails(cfg, RegionSet);
      case IntervalNonZero =>
        assert !Fails(cfg, RegionSet) && !Fails(cfg, ApiEndpointSet);
      case UpstreamsPresent =>
        assert !Fails(cfg, RegionSet) && !Fails(cfg, ApiEndpointSet);
        assert !Fails(cfg, IntervalNonZero);
    }
  }

  /** Whenever some check fails, one of the failing checks comes first. */
  lemma {:induction false} EarliestFailingCheckExists(cfg: Config, c: Check)
    requires Fails(cfg, c)
    ensures exists first :: Fails(cfg, first) && forall d :: Fails(cfg, d) ==> Rank(first) <= Rank(d)
    decreases Rank(c)
  {
    if exists d :: Fails(cfg, d) && Rank(d) < Rank(c) {
      var d :| Fails(cfg, d) && Rank(d) < Rank(c);
      EarliestFailingCheckExists(cfg, d);
    } else {
      assert forall d :: Fails(cfg, d) ==> Rank(c) <= Rank(d);
    }
  }

  /** Every error the validator reports is the error of the earliest failing check. */
  lemma ReportedErrorIsEarliestFailure(cfg: Config)
    requires ValidateConfig(cfg).Some?
    ensures exists c :: && Fails(cfg, c)
                        && (forall d :: Fails(cfg, d) ==> Rank(c) <= Rank(d))
                        && ValidateConfig(cfg) == Some(Diagnosis(cfg, c))
  {
    ValidateConfigAcceptsIffNoCheckFails(cfg);
    var some :| Fails(cfg, some);
    EarliestFailingCheckExists(cfg, some);
    var first :| Fails(cfg, first) && forall d :: Fails(cfg, d) ==> Rank(first) <= Rank(d);
    forall d | Rank(d) < Rank(first)
      ensures !Fails(cfg, d)
    {
    }
    FirstFailingCheckReported(cfg, first);
  }
}

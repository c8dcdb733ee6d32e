/** The older rollout: always create a minute-stamped configuration, then update the endpoint
    when the service describes it, or create it when the describe or the update answers
    `ValidationException`; nothing is waited for. */
module EndpointRolloutLegacy {
  import opened Common
  import opened Text
  import opened ControlPlane

  datatype Env = Dev | Stage | Prod | Test

  /** The one model every environment deploys. */
  const Model := "defenderImageAnalyzer"

  function EndpointFor(env: Env): (endpoint: string)
    ensures env.Test? <==> endpoint == "defenderImageAnalyzerEndpointC5i-test"
  {
    if env.Dev? || env.Stage? || env.Prod? then "defenderImageAnalyzerEndpointC5i"
    else "defenderImageAnalyzerEndpointC5i-test"
  }

  /** The configuration name: the endpoint name and a `%Y%m%d-%H%M` stamp of the clock. */
  function ConfigName(endpoint: string, t: DateTime): (name: string)
    requires t.Valid()
    ensures |name| == |endpoint| + 14 && name[..|endpoint|] == endpoint
  {
    endpoint + "-" + MinutesStamp(t)
  }

  /** The single production variant. */
  function ProductionVariant(): Variant {
    Variant(Model, "ml.c5.large", 1, "AllTraffic")
  }

  /** `create_endpoint` on its own: an error code escapes. */
  function CreateRun(r: Remote, endpoint: string, config: string): (run: Run<()>)
    ensures run.state == r.Submit(CreateEndpoint(endpoint, config))
    ensures run.result.Ok? <==> r.Rejection(CreateEndpoint(endpoint, config)).None?
  {
    match r.Rejection(CreateEndpoint(endpoint, config))
    case Some(code) => Run(r.Submit(CreateEndpoint(endpoint, config)), Err(ClientError(code)))
    case None => Run(r.Submit(CreateEndpoint(endpoint, config)), Ok(()))
  }

  /** The `try` block and its handler: update an endpoint the service describes; a
      `ValidationException` from the describe or the update creates it instead, and any other
      code escapes. */
  function UpdateOrCreate(r: Remote, endpoint: string, config: string): (run: Run<()>)
    ensures r.trace <= run.state.trace
    ensures run.state.models == r.models && run.state.configs == r.configs && run.state.images == r.images
    ensures run.result.Ok? ==>
      endpoint in run.state.endpoints && run.state.endpoints[endpoint].config == config &&
      run.state.endpoints[endpoint].status in {Creating, Updating}
  {
    match r.DescribeEndpoint(endpoint)
    case Err(code) =>
      if code == ValidationException then CreateRun(r, endpoint, config) else Run(r, Err(ClientError(code)))
    case Ok(_) =>
      var update := UpdateEndpoint(endpoint, config);
      match r.Rejection(update)
      case None => Run(r.Submit(update), Ok(()))
      case Some(code) =>
        if code == ValidationException then CreateRun(r.Submit(update), endpoint, config)
        else Run(r.Submit(update), Err(ClientError(code)))
  }

  /** The whole script `update_endpoint_c5i.py`; `now` is the clock. */
  function LegacyRolloutRun(r: Remote, env: Env, now: DateTime): (run: Run<()>)
    requires now.Valid()
    ensures r.trace <= run.state.trace
    ensures run.state.models == r.models && run.state.images == r.images
    ensures run.result.Ok? ==>
      var endpoint := EndpointFor(env);
      var config := ConfigName(endpoint, now);
      config in run.state.configs && run.state.configs[config] == ProductionVariant() &&
      endpoint in run.state.endpoints && run.state.endpoints[endpoint].config == config &&
      run.state.endpoints[endpoint].status in {Creating, Updating}
  {
    var endpoint := EndpointFor(env);
    var config := ConfigName(endpoint, now);
    var withConfig := r.Submit(CreateEndpointConfig(config, ProductionVariant()));
    match r.Rejection(CreateEndpointConfig(config, ProductionVariant()))
    case Some(code) => Run(withConfig, Err(ClientError(code)))
    case None => UpdateOrCreate(withConfig, endpoint, config)
  }

  method LegacyRollout(cloud: Cloud, env: Env, now: DateTime) returns (res: Result<(), Failure>)
    requires now.Valid()
    modifies cloud
    ensures Run(cloud.State(), res) == LegacyRolloutRun(old(cloud.State()), env, now)
  {
    var endpoint := EndpointFor(env);
    var config := ConfigName(endpoint, now);
    var rejected := cloud.Execute(CreateEndpointConfig(config, ProductionVariant()));
    if rejected.Some? {
      return Err(ClientError(rejected.value));
    }
    var described := cloud.State().DescribeEndpoint(endpoint);
    var failed: Option<ErrorCode> := None;
    if described.Err? {
      failed := Some(described.error);
    } else {
      failed := cloud.Execute(UpdateEndpoint(endpoint, config));
    }
    if failed.None? {
      return Ok(());
    }
    if failed.value != ValidationException {
      return Err(ClientError(failed.value));
    }
    rejected := cloud.Execute(CreateEndpoint(endpoint, config));
    res := if rejected.Some? then Err(ClientError(rejected.value)) else Ok(());
  }

  /** The calls a run sends after the configuration. */
  function EndpointCalls(r: Remote, env: Env, now: DateTime): seq<Call>
    requires now.Valid()
  {
    var trace := LegacyRolloutRun(r, env, now).state.trace;
    if |trace| > |r.trace| then trace[|r.trace| + 1..] else []
  }

  /** Every run first creates a configuration named for this minute. */
  lemma ConfigFirst(r: Remote, env: Env, now: DateTime)
    requires now.Valid()
    ensures
      var trace := LegacyRolloutRun(r, env, now).state.trace;
      |trace| > |r.trace| &&
      trace[|r.trace|] == Issued(CreateEndpointConfig(ConfigName(EndpointFor(env), now), ProductionVariant()))
  {
    var config := ConfigName(EndpointFor(env), now);
    var withConfig := r.Submit(CreateEndpointConfig(config, ProductionVariant()));
    var trace := LegacyRolloutRun(r, env, now).state.trace;
    assert withConfig.trace <= trace;
    assert trace[|r.trace|] == withConfig.trace[|r.trace|];
  }

  /** `update_endpoint` is sent only to an endpoint the service described, `create_endpoint`
      only after a `ValidationException`, and the run sends at most one of each. */
  lemma EndpointCallsFollowDescribe(r: Remote, env: Env, now: DateTime)
    requires now.Valid()
    ensures
      var endpoint := EndpointFor(env);
      var config := ConfigName(endpoint, now);
      var calls := EndpointCalls(r, env, now);
      var described := r.DescribeEndpoint(endpoint);
      |calls| <= 2 &&
      (Issued(UpdateEndpoint(endpoint, config)) in calls ==> described.Ok? && calls[0] == Issued(UpdateEndpoint(endpoint, config))) &&
      (Issued(CreateEndpoint(endpoint, config)) in calls ==>
        described == Err(ValidationException) ||
        (described.Ok? && calls == [Issued(UpdateEndpoint(endpoint, config)), Issued(CreateEndpoint(endpoint, config))]))
  {
    var endpoint := EndpointFor(env);
    var config := ConfigName(endpoint, now);
    var withConfig := r.Submit(CreateEndpointConfig(config, ProductionVariant()));
    assert withConfig.DescribeEndpoint(endpoint) == r.DescribeEndpoint(endpoint);
    var trace := LegacyRolloutRun(r, env, now).state.trace;
    if r.Rejection(CreateEndpointConfig(config, ProductionVariant())).None? {
      var run := UpdateOrCreate(withConfig, endpoint, config);
      assert trace == run.state.trace;
      UpdateOrCreateCalls(withConfig, endpoint, config);
      assert EndpointCalls(r, env, now) == run.state.trace[|withConfig.trace|..];
    } else {
      assert trace == withConfig.trace;
    }
  }

  /** The calls `UpdateOrCreate` sends, in terms of what the describe answered. */
  lemma UpdateOrCreateCalls(r: Remote, endpoint: string, config: string)
    ensures
      var calls := UpdateOrCreate(r, endpoint, config).state.trace[|r.trace|..];
      var described := r.DescribeEndpoint(endpoint);
      |calls| <= 2 &&
      (Issued(UpdateEndpoint(endpoint, config)) in calls ==> described.Ok? && calls[0] == Issued(UpdateEndpoint(endpoint, config))) &&
      (Issued(CreateEndpoint(endpoint, config)) in calls ==>
        described == Err(ValidationException) ||
        (described.Ok? && calls == [Issued(UpdateEndpoint(endpoint, config)), Issued(CreateEndpoint(endpoint, config))]))
  {
    var update := UpdateEndpoint(endpoint, config);
    var create := CreateEndpoint(endpoint, config);
    var calls := UpdateOrCreate(r, endpoint, config).state.trace[|r.trace|..];
    match r.DescribeEndpoint(endpoint)
    case Err(code) =>
      if code == ValidationException {
        assert calls == [Issued(create)];
      } else {
        assert calls == [];
      }
    case Ok(_) =>
      if r.Rejection(update).Some? && r.Rejection(update).value == ValidationException {
        assert r.Submit(update).trace == r.trace + [Issued(update)];
        assert calls == [Issued(update), Issued(create)];
      } else {
        assert calls == [Issued(update)];
      }
  }

  /** Any other `describe_endpoint` error code is raised again, with no create. */
  lemma OtherErrorReraised(r: Remote, env: Env, now: DateTime, code: ErrorCode)
    requires now.Valid()
    requires r.Rejection(CreateEndpointConfig(ConfigName(EndpointFor(env), now), ProductionVariant())).None?
    requires r.Fault("describe_endpoint") == Some(code) && code != ValidationException
    ensures LegacyRolloutRun(r, env, now).result == Err(ClientError(code))
    ensures EndpointCalls(r, env, now) == []
  {
  }

  /** Nothing is waited for: the run records no waiter, and an accepted update leaves the
      endpoint `Updating` on the new configuration. */
  lemma NoWaiting(r: Remote, env: Env, now: DateTime)
    requires now.Valid()
    ensures forall i :: 0 <= i < |EndpointCalls(r, env, now)| ==> EndpointCalls(r, env, now)[i].Issued?
    ensures
      var endpoint := EndpointFor(env);
      var config := ConfigName(endpoint, now);
      var run := LegacyRolloutRun(r, env, now);
      EndpointCalls(r, env, now) == [Issued(UpdateEndpoint(endpoint, config))] && run.result.Ok? ==>
        run.state.endpoints[endpoint].status == Updating && run.state.endpoints[endpoint].config == config
  {
    var endpoint := EndpointFor(env);
    var config := ConfigName(endpoint, now);
    var calls := EndpointCalls(r, env, now);
    var withConfig := r.Submit(CreateEndpointConfig(config, ProductionVariant()));
    if r.Rejection(CreateEndpointConfig(config, ProductionVariant())).None? {
      var run := UpdateOrCreate(withConfig, endpoint, config);
      assert calls == run.state.trace[|withConfig.trace|..];
      var update := UpdateEndpoint(endpoint, config);
      if withConfig.DescribeEndpoint(endpoint).Ok? && withConfig.Rejection(update).None? {
        assert run.state == withConfig.Submit(update);
        assert calls == [Issued(update)];
      } else if withConfig.DescribeEndpoint(endpoint).Ok? && withConfig.Rejection(update) == Some(ValidationException) {
        assert calls == [Issued(update), Issued(CreateEndpoint(endpoint, config))];
      } else if withConfig.DescribeEndpoint(endpoint).Ok? {
        assert calls == [Issued(update)];
        assert run.result.Err?;
      } else if withConfig.DescribeEndpoint(endpoint) == Err(ValidationException) {
        assert calls == [Issued(CreateEndpoint(endpoint, config))];
      } else {
        assert calls == [];
      }
    } else {
      assert calls == [];
    }
  }

  /** Two runs in the same minute name the same configuration, so the second run's
      `create_endpoint_config` is refused and it raises before touching the endpoint. */
  lemma SameMinuteCollides(r: Remote, env: Env, t1: DateTime, t2: DateTime)
    requires t1.Valid() && t2.Valid() && t1.(second := 0) == t2.(second := 0)
    requires "create_endpoint_config" !in r.faults
    ensures ConfigName(EndpointFor(env), t1) == ConfigName(EndpointFor(env), t2)
    ensures
      var first := LegacyRolloutRun(r, env, t1).state;
      var second := LegacyRolloutRun(first, env, t2);
      second.result == Err(ClientError(ValidationException)) && EndpointCalls(first, env, t2) == [] &&
      second.state.endpoints == first.endpoints
  {
    MinutesStampIgnoresSeconds(t1, t2);
    var endpoint := EndpointFor(env);
    var config := ConfigName(endpoint, t1);
    var withConfig := r.Submit(CreateEndpointConfig(config, ProductionVariant()));
    assert config in withConfig.configs;
    var first := LegacyRolloutRun(r, env, t1).state;
    assert config in first.configs by {
      if r.Rejection(CreateEndpointConfig(config, ProductionVariant())).None? {
        UpdateOrCreateKeepsConfigs(withConfig, endpoint, config);
      }
    }
  }

  /** The endpoint calls leave the configurations alone. */
  lemma UpdateOrCreateKeepsConfigs(r: Remote, endpoint: string, config: string)
    ensures UpdateOrCreate(r, endpoint, config).state.configs == r.configs
  {
  }
}

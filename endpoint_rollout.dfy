/** Rolling an endpoint onto a fresh configuration: check the model exists, create a
    second-stamped configuration for it, then wait out any transition in progress and update the
    endpoint, or create the endpoint when the service says it does not exist, and finally read
    back the image the endpoint runs. */
module EndpointRollout {
  import opened Common
  import opened Text
  import opened ControlPlane

  datatype Env = Dev | Stage | Prod | Test | Personal | Soc2

  /** The model an environment deploys and the endpoint that serves it. */
  datatype Names = Names(model: string, endpoint: string)

  function NamesFor(env: Env): (names: Names)
    ensures env.Personal? ==> names == Names("defenderImageAnalyzerPersonal", "defenderImageAnalyzerPersonalC5i")
    ensures env.Soc2? ==> names.model == "defenderImageAnalyzerSOC2Hardened"
    ensures !env.Personal? && !env.Soc2? ==> names.model == "defenderImageAnalyzer"
    ensures env.Dev? || env.Stage? || env.Prod? ==> names.endpoint == "defenderImageAnalyzerEndpointC5i"
  {
    match env
    case Personal => Names("defenderImageAnalyzerPersonal", "defenderImageAnalyzerPersonalC5i")
    case Soc2 => Names("defenderImageAnalyzerSOC2Hardened", "defenderImageAnalyzerSOC2HardenedDev")
    case Test => Names("defenderImageAnalyzer", "defenderImageAnalyzerEndpointC5i-test")
    case _ => Names("defenderImageAnalyzer", "defenderImageAnalyzerEndpointC5i")
  }

  /** The test environment shares the model of dev, stage and prod but has an endpoint of its own. */
  lemma TestEndpointSeparate(env: Env)
    requires env.Dev? || env.Stage? || env.Prod?
    ensures NamesFor(Test).model == NamesFor(env).model
    ensures NamesFor(Test).endpoint != NamesFor(env).endpoint
  {
    assert |NamesFor(Test).endpoint| != |NamesFor(env).endpoint|;
  }

  /** The configuration name: the endpoint name and a `%Y%m%d-%H%M%S` stamp of the clock. */
  function ConfigName(endpoint: string, t: DateTime): (name: string)
    requires t.Valid()
    ensures |name| == |endpoint| + 16 && name[..|endpoint|] == endpoint
  {
    endpoint + "-" + SecondsStamp(t)
  }

  /** Runs at different seconds never reuse a configuration name. */
  lemma ConfigNamesDistinct(endpoint: string, t1: DateTime, t2: DateTime)
    requires t1.Valid() && t2.Valid() && t1 != t2
    ensures ConfigName(endpoint, t1) != ConfigName(endpoint, t2)
  {
    if ConfigName(endpoint, t1) == ConfigName(endpoint, t2) {
      assert SecondsStamp(t1) == ConfigName(endpoint, t1)[|endpoint| + 1..];
      assert SecondsStamp(t2) == ConfigName(endpoint, t2)[|endpoint| + 1..];
      SecondsStampInjective(t1, t2);
    }
  }

  /** The single production variant: one `ml.c5.large` instance serving all traffic. */
  function ProductionVariant(model: string): Variant {
    Variant(model, "ml.c5.large", 1, "AllTraffic")
  }

  /** Everything but the endpoints and the log is as it was. */
  predicate Hosting(before: Remote, after: Remote) {
    after.models == before.models && after.configs == before.configs && after.images == before.images &&
    after.repositories == before.repositories && after.roles == before.roles &&
    after.account == before.account && after.faults == before.faults
  }

  /** The waiter after an accepted `update_endpoint` or `create_endpoint`. */
  function Settle(r: Remote, endpoint: string, settle: seq<bool>): (run: Run<()>)
    ensures run.state == r.AfterWait(endpoint, settle)
    ensures run.result.Ok? <==> r.WaitSucceeds(endpoint, settle)
    ensures run.result.Err? ==> run.result.error == WaiterError(endpoint)
    ensures run.result.Ok? ==>
      endpoint in r.endpoints &&
      run.state.endpoints == r.endpoints[endpoint := Endpoint(InService, r.endpoints[endpoint].config, r.ServedImages(r.endpoints[endpoint].config))]
  {
    var waited := r.AfterWait(endpoint, settle);
    if r.WaitSucceeds(endpoint, settle) then Run(waited, Ok(())) else Run(waited, Err(WaiterError(endpoint)))
  }

  /** The `ValidationException` branch: create the endpoint and wait for it. */
  function CreateFresh(r: Remote, endpoint: string, config: string, settle: seq<bool>): (run: Run<()>)
    ensures r.trace + [Issued(CreateEndpoint(endpoint, config))] <= run.state.trace
    ensures Hosting(r, run.state)
    ensures run.result.Ok? ==> run.state.endpoints == r.endpoints[endpoint := Endpoint(InService, config, r.ServedImages(config))]
  {
    var created := r.Submit(CreateEndpoint(endpoint, config));
    match r.Rejection(CreateEndpoint(endpoint, config))
    case Some(code) => Run(created, Err(ClientError(code)))
    case None => Settle(created, endpoint, settle)
  }

  /** The `try` block and its handler: describe the endpoint, wait out a `Creating` or `Updating`
      status, update and wait; a `ValidationException` from the describe or the update turns into
      a create, any other `ClientError` escapes, and a failed waiter escapes too. */
  function Converge(r: Remote, endpoint: string, config: string, drain: seq<bool>, settle: seq<bool>): (run: Run<()>)
    ensures r.trace <= run.state.trace
    ensures Hosting(r, run.state)
    ensures run.result.Ok? ==>
      endpoint in run.state.endpoints &&
      run.state.endpoints[endpoint] == Endpoint(InService, config, r.ServedImages(config))
  {
    match r.DescribeEndpoint(endpoint)
    case Err(code) =>
      if code == ValidationException then CreateFresh(r, endpoint, config, settle)
      else Run(r, Err(ClientError(code)))
    case Ok(ep) =>
      var busy := ep.status == Creating || ep.status == Updating;
      var drained := if busy then r.AfterWait(endpoint, drain) else r;
      if busy && !r.WaitSucceeds(endpoint, drain) then Run(drained, Err(WaiterError(endpoint)))
      else
        var update := UpdateEndpoint(endpoint, config);
        match drained.Rejection(update)
        case Some(code) =>
          if code == ValidationException then CreateFresh(drained.Submit(update), endpoint, config, settle)
          else Run(drained.Submit(update), Err(ClientError(code)))
        case None => Settle(drained.Submit(update), endpoint, settle)
  }

  /** What the final `describe_endpoint` reports: the configuration rolled onto, the image the
      endpoint runs, and its digest when the image is pinned by one. */
  datatype Outcome = Outcome(config: string, finalImage: string, digest: Option<string>)

  /** The final verification: the first deployed image, or an `IndexError` when there is none. */
  function FinalCheck(r: Remote, endpoint: string, config: string): (run: Run<Outcome>)
    ensures run.state == r
    ensures run.result.Ok? <==> r.DescribeEndpoint(endpoint).Ok? && r.DescribeEndpoint(endpoint).value.deployedImages != []
    ensures run.result.Ok? ==>
      var image := r.endpoints[endpoint].deployedImages[0];
      run.result.value.finalImage == image &&
      (run.result.value.digest.Some? <==> IsDigestReference(image)) &&
      (run.result.value.digest.Some? ==> run.result.value.digest.value == DigestOf(image))
  {
    match r.DescribeEndpoint(endpoint)
    case Err(code) => Run(r, Err(ClientError(code)))
    case Ok(ep) =>
      if ep.deployedImages == [] then Run(r, Err(IndexError))
      else
        var image := ep.deployedImages[0];
        Run(r, Ok(Outcome(config, image, if IsDigestReference(image) then Some(DigestOf(image)) else None)))
  }

  /** The whole script `update_endpoint_c5i_fixed.py`; `now` is the clock, `drain` and `settle`
      what the two waiters observe. */
  function RolloutRun(r: Remote, env: Env, now: DateTime, drain: seq<bool>, settle: seq<bool>): (run: Run<Outcome>)
    requires now.Valid()
    ensures r.trace <= run.state.trace
    ensures run.state.models == r.models && run.state.images == r.images &&
      run.state.repositories == r.repositories && run.state.roles == r.roles && run.state.account == r.account
  {
    var names := NamesFor(env);
    var config := ConfigName(names.endpoint, now);
    match r.DescribeModel(names.model)
    case Err(code) => Run(r, Err(ClientError(code)))
    case Ok(_) =>
      var create := CreateEndpointConfig(config, ProductionVariant(names.model));
      match r.Rejection(create)
      case Some(code) => Run(r.Submit(create), Err(ClientError(code)))
      case None =>
        var converged := Converge(r.Submit(create), names.endpoint, config, drain, settle);
        if converged.result.Err? then Run(converged.state, Err(converged.result.error))
        else FinalCheck(converged.state, names.endpoint, config)
  }

  /** `create_endpoint` and its waiter. */
  method CreateAndSettle(cloud: Cloud, endpoint: string, config: string, settle: seq<bool>) returns (res: Result<(), Failure>)
    modifies cloud
    ensures Run(cloud.State(), res) == CreateFresh(old(cloud.State()), endpoint, config, settle)
  {
    var rejected := cloud.Execute(CreateEndpoint(endpoint, config));
    if rejected.Some? {
      return Err(ClientError(rejected.value));
    }
    var settled := cloud.WaitInService(endpoint, settle);
    res := if settled then Ok(()) else Err(WaiterError(endpoint));
  }

  /** The `try` block and its `except ClientError` handler. */
  method ConvergeEndpoint(cloud: Cloud, endpoint: string, config: string, drain: seq<bool>, settle: seq<bool>)
    returns (res: Result<(), Failure>)
    modifies cloud
    ensures Run(cloud.State(), res) == Converge(old(cloud.State()), endpoint, config, drain, settle)
  {
    var existing := cloud.State().DescribeEndpoint(endpoint);
    if existing.Err? {
      if existing.error != ValidationException {
        return Err(ClientError(existing.error));
      }
      res := CreateAndSettle(cloud, endpoint, config, settle);
      return;
    }
    if existing.value.status == Creating || existing.value.status == Updating {
      var drained := cloud.WaitInService(endpoint, drain);
      if !drained {
        return Err(WaiterError(endpoint));
      }
    }
    var rejected := cloud.Execute(UpdateEndpoint(endpoint, config));
    if rejected.Some? {
      if rejected.value != ValidationException {
        return Err(ClientError(rejected.value));
      }
      res := CreateAndSettle(cloud, endpoint, config, settle);
      return;
    }
    var settled := cloud.WaitInService(endpoint, settle);
    res := if settled then Ok(()) else Err(WaiterError(endpoint));
  }

  /** The script `update_endpoint_c5i_fixed.py`. */
  method Rollout(cloud: Cloud, env: Env, now: DateTime, drain: seq<bool>, settle: seq<bool>) returns (res: Result<Outcome, Failure>)
    requires now.Valid()
    modifies cloud
    ensures Run(cloud.State(), res) == RolloutRun(old(cloud.State()), env, now, drain, settle)
  {
    var names := NamesFor(env);
    var config := ConfigName(names.endpoint, now);
    var model := cloud.State().DescribeModel(names.model);
    if model.Err? {
      return Err(ClientError(model.error));
    }
    var rejected := cloud.Execute(CreateEndpointConfig(config, ProductionVariant(names.model)));
    if rejected.Some? {
      return Err(ClientError(rejected.value));
    }
    var converged := ConvergeEndpoint(cloud, names.endpoint, config, drain, settle);
    if converged.Err? {
      return Err(converged.error);
    }
    var final := cloud.State().DescribeEndpoint(names.endpoint);
    if final.Err? {
      return Err(ClientError(final.error));
    }
    if final.value.deployedImages == [] {
      return Err(IndexError);
    }
    var image := final.value.deployedImages[0];
    var digest := if IsDigestReference(image) then Some(DigestOf(image)) else None;
    return Ok(Outcome(config, image, digest));
  }

  /** If the model does not exist, the script raises before any configuration is created. */
  lemma MissingModelCreatesNothing(r: Remote, env: Env, now: DateTime, drain: seq<bool>, settle: seq<bool>, code: ErrorCode)
    requires now.Valid()
    requires r.DescribeModel(NamesFor(env).model) == Err(code)
    ensures RolloutRun(r, env, now, drain, settle) == Run(r, Err(ClientError(code)))
  {
  }

  /** Once the model is found, the first call of every run creates a new configuration for it,
      before the endpoint is probed. */
  lemma ConfigCreatedFirst(r: Remote, env: Env, now: DateTime, drain: seq<bool>, settle: seq<bool>)
    requires now.Valid()
    requires r.DescribeModel(NamesFor(env).model).Ok?
    ensures
      var trace := RolloutRun(r, env, now, drain, settle).state.trace;
      var names := NamesFor(env);
      |trace| > |r.trace| &&
      trace[|r.trace|] == Issued(CreateEndpointConfig(ConfigName(names.endpoint, now), ProductionVariant(names.model)))
  {
    var names := NamesFor(env);
    var create := CreateEndpointConfig(ConfigName(names.endpoint, now), ProductionVariant(names.model));
    var trace := RolloutRun(r, env, now, drain, settle).state.trace;
    assert r.Submit(create).trace <= trace;
    assert trace[|r.trace|] == r.Submit(create).trace[|r.trace|];
  }

  /** An endpoint found `Creating` or `Updating` is waited on before anything else is sent to
      it; when that wait fails the script raises without updating. */
  lemma BusyEndpointWaitsFirst(r: Remote, env: Env, now: DateTime, drain: seq<bool>, settle: seq<bool>)
    requires now.Valid()
    requires r.DescribeModel(NamesFor(env).model).Ok?
    requires r.Rejection(CreateEndpointConfig(ConfigName(NamesFor(env).endpoint, now), ProductionVariant(NamesFor(env).model))).None?
    requires r.DescribeEndpoint(NamesFor(env).endpoint).Ok?
    requires r.endpoints[NamesFor(env).endpoint].status in {Creating, Updating}
    ensures
      var run := RolloutRun(r, env, now, drain, settle);
      var endpoint := NamesFor(env).endpoint;
      |run.state.trace| > |r.trace| + 1 &&
      run.state.trace[|r.trace| + 1] == Waited(endpoint, r.WaitAttempts(endpoint, drain), r.WaitSucceeds(endpoint, drain))
    ensures
      var run := RolloutRun(r, env, now, drain, settle);
      !r.WaitSucceeds(NamesFor(env).endpoint, drain) ==>
        run.result == Err(WaiterError(NamesFor(env).endpoint)) && |run.state.trace| == |r.trace| + 2
  {
    var names := NamesFor(env);
    var config := ConfigName(names.endpoint, now);
    var withConfig := r.Submit(CreateEndpointConfig(config, ProductionVariant(names.model)));
    assert withConfig.endpoints == r.endpoints;
    var drained := withConfig.AfterWait(names.endpoint, drain);
    var trace := RolloutRun(r, env, now, drain, settle).state.trace;
    assert drained.trace <= trace;
    assert trace[|r.trace| + 1] == drained.trace[|r.trace| + 1];
  }

  /** The service's state after a run that updated or created the endpoint and saw it settle. */
  predicate RolledOnto(before: Remote, after: Remote, endpoint: string, config: string, model: string)
    requires model in before.models
  {
    endpoint in after.endpoints &&
    after.endpoints[endpoint] == Endpoint(InService, config, [before.Resolve(before.models[model].image)]) &&
    after.models == before.models
  }

  /** An existing endpoint neither in transition nor failed is updated to the new configuration and waited on;
      when the waiter sees it in service, the endpoint runs the model's image, resolved against
      the registry, and the run reports that image. */
  lemma UpdatesExistingEndpoint(r: Remote, env: Env, now: DateTime, drain: seq<bool>, settle: seq<bool>)
    requires now.Valid()
    requires
      var names := NamesFor(env);
      names.model in r.models && names.endpoint in r.endpoints &&
      !r.endpoints[names.endpoint].status.RefusesUpdate() &&
      ConfigName(names.endpoint, now) !in r.configs
    requires forall op :: op in r.faults ==> op !in {"describe_model", "create_endpoint_config", "describe_endpoint", "update_endpoint"}
    ensures
      var run := RolloutRun(r, env, now, drain, settle);
      var names := NamesFor(env);
      var config := ConfigName(names.endpoint, now);
      run.state.trace == r.trace + [
        Issued(CreateEndpointConfig(config, ProductionVariant(names.model))),
        Issued(UpdateEndpoint(names.endpoint, config)),
        Waited(names.endpoint, r.WaitAttempts(names.endpoint, settle), r.WaitSucceeds(names.endpoint, settle))] &&
      (run.result.Ok? <==> r.WaitSucceeds(names.endpoint, settle)) &&
      (run.result.Ok? ==>
        RolledOnto(r, run.state, names.endpoint, config, names.model) &&
        run.result.value.finalImage == r.Resolve(r.models[names.model].image))
  {
    var names := NamesFor(env);
    var config := ConfigName(names.endpoint, now);
    var withConfig := r.Submit(CreateEndpointConfig(config, ProductionVariant(names.model)));
    assert withConfig.configs == r.configs[config := ProductionVariant(names.model)];
    var updated := withConfig.Submit(UpdateEndpoint(names.endpoint, config));
    assert updated.endpoints[names.endpoint].config == config;
    assert updated.account == r.account && updated.images == r.images && updated.models == r.models;
    assert updated.ServedImages(config) == [r.Resolve(r.models[names.model].image)];
  }

  /** A missing endpoint is created with the new configuration and waited on; when the waiter
      sees it in service, it runs the model's image, resolved. */
  lemma CreatesMissingEndpoint(r: Remote, env: Env, now: DateTime, drain: seq<bool>, settle: seq<bool>)
    requires now.Valid()
    requires
      var names := NamesFor(env);
      names.model in r.models && names.endpoint !in r.endpoints &&
      ConfigName(names.endpoint, now) !in r.configs
    requires forall op :: op in r.faults ==> op !in {"describe_model", "create_endpoint_config", "describe_endpoint", "create_endpoint"}
    ensures
      var run := RolloutRun(r, env, now, drain, settle);
      var names := NamesFor(env);
      var config := ConfigName(names.endpoint, now);
      run.state.trace == r.trace + [
        Issued(CreateEndpointConfig(config, ProductionVariant(names.model))),
        Issued(CreateEndpoint(names.endpoint, config)),
        Waited(names.endpoint, FirstReady(settle, 0) + 1, true)] || 
      run.state.trace == r.trace + [
        Issued(CreateEndpointConfig(config, ProductionVariant(names.model))),
        Issued(CreateEndpoint(names.endpoint, config)),
        Waited(names.endpoint, MaxWaiterAttempts, false)]
    ensures
      var run := RolloutRun(r, env, now, drain, settle);
      var names := NamesFor(env);
      (run.result.Ok? <==> FirstReady(settle, 0) < MaxWaiterAttempts) &&
      (run.result.Ok? ==>
        RolledOnto(r, run.state, names.endpoint, ConfigName(names.endpoint, now), names.model) &&
        run.result.value.finalImage == r.Resolve(r.models[names.model].image))
  {
    var names := NamesFor(env);
    var config := ConfigName(names.endpoint, now);
    var created := MissingEndpointCreated(r, env, now);
    var converged := Settle(created, names.endpoint, settle);
    assert RolloutRun(r, env, now, drain, settle) ==
      if converged.result.Err? then Run(converged.state, Err(converged.result.error))
      else FinalCheck(converged.state, names.endpoint, config)
    by {
      MissingEndpointStages(r, env, now, drain, settle);
    }
    assert created.WaitSucceeds(names.endpoint, settle) <==> FirstReady(settle, 0) < MaxWaiterAttempts;
  }

  /** The state once the configuration and the endpoint are both created. */
  function MissingEndpointCreated(r: Remote, env: Env, now: DateTime): (created: Remote)
    requires now.Valid()
    requires
      var names := NamesFor(env);
      names.model in r.models && names.endpoint !in r.endpoints &&
      ConfigName(names.endpoint, now) !in r.configs
    requires forall op :: op in r.faults ==> op !in {"create_endpoint_config", "create_endpoint"}
    ensures
      var names := NamesFor(env);
      var config := ConfigName(names.endpoint, now);
      created.trace == r.trace + [
        Issued(CreateEndpointConfig(config, ProductionVariant(names.model))),
        Issued(CreateEndpoint(names.endpoint, config))] &&
      names.endpoint in created.endpoints && created.endpoints[names.endpoint].config == config &&
      created.ServedImages(config) == [r.Resolve(r.models[names.model].image)] &&
      created.models == r.models && created.images == r.images && created.account == r.account
  {
    var names := NamesFor(env);
    var config := ConfigName(names.endpoint, now);
    var withConfig := r.Submit(CreateEndpointConfig(config, ProductionVariant(names.model)));
    assert withConfig.configs == r.configs[config := ProductionVariant(names.model)];
    var created := withConfig.Submit(CreateEndpoint(names.endpoint, config));
    assert created.endpoints[names.endpoint].config == config;
    assert created.account == r.account && created.images == r.images && created.models == r.models;
    assert created.ServedImages(config) == [r.Resolve(r.models[names.model].image)];
    created
  }

  /** Without faults, a missing endpoint takes the create branch: the run is the waiter on the
      created endpoint followed by the final describe. */
  lemma MissingEndpointStages(r: Remote, env: Env, now: DateTime, drain: seq<bool>, settle: seq<bool>)
    requires now.Valid()
    requires
      var names := NamesFor(env);
      names.model in r.models && names.endpoint !in r.endpoints &&
      ConfigName(names.endpoint, now) !in r.configs
    requires forall op :: op in r.faults ==> op !in {"describe_model", "create_endpoint_config", "describe_endpoint", "create_endpoint"}
    ensures
      var names := NamesFor(env);
      var config := ConfigName(names.endpoint, now);
      var converged := Settle(MissingEndpointCreated(r, env, now), names.endpoint, settle);
      RolloutRun(r, env, now, drain, settle) ==
        if converged.result.Err? then Run(converged.state, Err(converged.result.error))
        else FinalCheck(converged.state, names.endpoint, config)
  {
    var names := NamesFor(env);
    var config := ConfigName(names.endpoint, now);
    var withConfig := r.Submit(CreateEndpointConfig(config, ProductionVariant(names.model)));
    assert withConfig.configs == r.configs[config := ProductionVariant(names.model)];
    assert withConfig.DescribeEndpoint(names.endpoint) == Err(ValidationException);
    assert withConfig.Rejection(CreateEndpoint(names.endpoint, config)).None?;
    assert MissingEndpointCreated(r, env, now) == withConfig.Submit(CreateEndpoint(names.endpoint, config));
  }

  /** Any `describe_endpoint` error code other than `ValidationException` is raised again, with
      nothing sent after the configuration. */
  lemma OtherProbeErrorReraised(r: Remote, env: Env, now: DateTime, drain: seq<bool>, settle: seq<bool>, code: ErrorCode)
    requires now.Valid()
    requires r.DescribeModel(NamesFor(env).model).Ok?
    requires r.Rejection(CreateEndpointConfig(ConfigName(NamesFor(env).endpoint, now), ProductionVariant(NamesFor(env).model))).None?
    requires r.Fault("describe_endpoint") == Some(code) && code != ValidationException
    ensures
      var run := RolloutRun(r, env, now, drain, settle);
      run.result == Err(ClientError(code)) && |run.state.trace| == |r.trace| + 1 &&
      run.state.endpoints == r.endpoints
  {
  }

  /** An `update_endpoint` refused with a code other than `ValidationException` is raised again
      without a create. */
  lemma OtherUpdateErrorReraised(r: Remote, env: Env, now: DateTime, drain: seq<bool>, settle: seq<bool>, code: ErrorCode)
    requires now.Valid()
    requires NamesFor(env).model in r.models && NamesFor(env).endpoint in r.endpoints
    requires !r.endpoints[NamesFor(env).endpoint].status.InTransition()
    requires ConfigName(NamesFor(env).endpoint, now) !in r.configs
    requires forall op :: op in r.faults ==> op !in {"describe_model", "create_endpoint_config", "describe_endpoint"}
    requires r.Fault("update_endpoint") == Some(code) && code != ValidationException
    ensures
      var run := RolloutRun(r, env, now, drain, settle);
      var names := NamesFor(env);
      run.result == Err(ClientError(code)) &&
      run.state.trace == r.trace + [
        Issued(CreateEndpointConfig(ConfigName(names.endpoint, now), ProductionVariant(names.model))),
        Issued(UpdateEndpoint(names.endpoint, ConfigName(names.endpoint, now)))] &&
      run.state.endpoints == r.endpoints
  {
  }

  /** Only `Creating` and `Updating` are waited out: an endpoint in any other transition, or a
      failed one, refuses the update, the handler then tries to create an endpoint that exists, and the run raises
      with the endpoint untouched. */
  lemma UnwaitedTransitionFails(r: Remote, env: Env, now: DateTime, drain: seq<bool>, settle: seq<bool>)
    requires now.Valid()
    requires NamesFor(env).model in r.models && NamesFor(env).endpoint in r.endpoints
    requires r.endpoints[NamesFor(env).endpoint].status in {SystemUpdating, RollingBack, Deleting, Failed}
    requires ConfigName(NamesFor(env).endpoint, now) !in r.configs
    requires forall op :: op in r.faults ==> op !in {"describe_model", "create_endpoint_config", "describe_endpoint", "update_endpoint", "create_endpoint"}
    ensures
      var run := RolloutRun(r, env, now, drain, settle);
      var names := NamesFor(env);
      var config := ConfigName(names.endpoint, now);
      run.result == Err(ClientError(ValidationException)) &&
      run.state.trace == r.trace + [
        Issued(CreateEndpointConfig(config, ProductionVariant(names.model))),
        Issued(UpdateEndpoint(names.endpoint, config)),
        Issued(CreateEndpoint(names.endpoint, config))] &&
      run.state.endpoints == r.endpoints
  {
    var names := NamesFor(env);
    var config := ConfigName(names.endpoint, now);
    var withConfig := r.Submit(CreateEndpointConfig(config, ProductionVariant(names.model)));
    assert withConfig.endpoints == r.endpoints;
    var status := r.endpoints[names.endpoint].status;
    assert withConfig.DescribeEndpoint(names.endpoint) == Ok(r.endpoints[names.endpoint]);
    assert status != Creating && status != Updating && status.RefusesUpdate();
    assert withConfig.Rejection(UpdateEndpoint(names.endpoint, config)) == Some(ValidationException);
    var refused := withConfig.Submit(UpdateEndpoint(names.endpoint, config));
    assert refused.endpoints == r.endpoints;
    assert refused.Rejection(CreateEndpoint(names.endpoint, config)) == Some(ValidationException);
    var failed := Run(refused.Submit(CreateEndpoint(names.endpoint, config)), Err(ClientError(ValidationException)));
    assert Converge(withConfig, names.endpoint, config, drain, settle) == failed;
    assert RolloutRun(r, env, now, drain, settle) == Run(failed.state, Err(ClientError(ValidationException)));
  }

  /** Every waiter a run records stops within 120 attempts. */
  lemma {:induction false} RolloutWaitsBounded(r: Remote, env: Env, now: DateTime, drain: seq<bool>, settle: seq<bool>)
    requires now.Valid()
    requires WaitsBounded(r.trace)
    ensures WaitsBounded(RolloutRun(r, env, now, drain, settle).state.trace)
  {
    var names := NamesFor(env);
    var config := ConfigName(names.endpoint, now);
    var create := CreateEndpointConfig(config, ProductionVariant(names.model));
    SubmitKeepsWaitsBounded(r, create);
    if r.DescribeModel(names.model).Ok? && r.Rejection(create).None? {
      ConvergeWaitsBounded(r.Submit(create), names.endpoint, config, drain, settle);
    }
  }

  lemma ConvergeWaitsBounded(r: Remote, endpoint: string, config: string, drain: seq<bool>, settle: seq<bool>)
    requires WaitsBounded(r.trace)
    ensures WaitsBounded(Converge(r, endpoint, config, drain, settle).state.trace)
  {
    var update := UpdateEndpoint(endpoint, config);
    var create := CreateEndpoint(endpoint, config);
    AfterWaitKeepsWaitsBounded(r, endpoint, drain);
    var drained := r.AfterWait(endpoint, drain);
    SubmitKeepsWaitsBounded(r, create);
    SubmitKeepsWaitsBounded(r, update);
    SubmitKeepsWaitsBounded(drained, update);
    SubmitKeepsWaitsBounded(r.Submit(update), create);
    SubmitKeepsWaitsBounded(drained.Submit(update), create);
    AfterWaitKeepsWaitsBounded(r.Submit(create), endpoint, settle);
    AfterWaitKeepsWaitsBounded(r.Submit(update), endpoint, settle);
    AfterWaitKeepsWaitsBounded(drained.Submit(update), endpoint, settle);
    AfterWaitKeepsWaitsBounded(r.Submit(update).Submit(create), endpoint, settle);
    AfterWaitKeepsWaitsBounded(drained.Submit(update).Submit(create), endpoint, settle);
  }

  /** A run that completes leaves the endpoint in service on the new configuration, running the
      image of the model as it was before the run, resolved against the registry, and reports it. */
  lemma CompletedRolloutServesModel(r: Remote, env: Env, now: DateTime, drain: seq<bool>, settle: seq<bool>)
    requires now.Valid()
    requires RolloutRun(r, env, now, drain, settle).result.Ok?
    ensures
      var run := RolloutRun(r, env, now, drain, settle);
      var names := NamesFor(env);
      names.model in r.models &&
      RolledOnto(r, run.state, names.endpoint, ConfigName(names.endpoint, now), names.model) &&
      run.result.value.finalImage == r.Resolve(r.models[names.model].image)
  {
    var names := NamesFor(env);
    var config := ConfigName(names.endpoint, now);
    var withConfig := r.Submit(CreateEndpointConfig(config, ProductionVariant(names.model)));
    assert withConfig.ServedImages(config) == [r.Resolve(r.models[names.model].image)];
  }
}

/** Creating or replacing the hosted model: resolve its name, repository and execution role,
    build a digest-pinned image reference, delete any model of the same name and wait until the
    service stops reporting it, create the model, then re-read it and compare digests. */
module ModelLifecycle {
  import opened Common
  import opened Text
  import opened ControlPlane

  datatype Env = Dev | Stage | Prod | Personal | Soc2
  {
    /** The environments whose role and registry are fixed configuration. */
    predicate Configured() {
      Dev? || Stage? || Prod?
    }
  }

  /** The command-line arguments `--env`, `--image-digest`, `--repository-name`, `--model-name`. */
  datatype Args = Args(env: Env, imageDigest: Option<string>, repositoryName: Option<string>, modelName: Option<string>)

  function ConfiguredRole(env: Env): string
    requires env.Configured()
  {
    match env
    case Dev => "arn:aws:iam::{{DEV_ACCOUNT_ID}}:role/aws-sagemaker-role"
    case Stage => "arn:aws:iam::{{STAGE_ACCOUNT_ID}}:role/aws-sagemaker-role"
    case Prod => "arn:aws:iam::{{PROD_ACCOUNT_ID}}:role/sagemaker-execution-role"
  }

  /** The registry host: configured for dev, stage and prod, the caller's account otherwise. */
  function Registry(env: Env, account: string): string {
    match env
    case Dev => "{{DEV_ACCOUNT_ID}}.dkr.ecr.us-east-1.amazonaws.com"
    case Stage => "{{STAGE_ACCOUNT_ID}}.dkr.ecr.us-east-1.amazonaws.com"
    case Prod => "{{PROD_ACCOUNT_ID}}.dkr.ecr.us-east-1.amazonaws.com"
    case _ => account + ".dkr.ecr.us-east-1.amazonaws.com"
  }

  /** The role used when no candidate exists; it is also the first candidate. */
  const DefaultRole := "SageMakerExecutionRole"

  /** The role names tried, in order, for the personal and soc2 environments. */
  function CandidateRoles(account: string): seq<string> {
    [DefaultRole, "SageMaker-ExecutionRole", "AmazonSageMaker-ExecutionRole",
     "SageMaker-ExecutionRole-" + account, "service-role/SageMakerRole"]
  }

  /** The ARN of the first candidate `get_role` finds; a `NoSuchEntity` moves on to the next
      candidate and any other error code escapes. */
  function FirstExistingRole(r: Remote, candidates: seq<string>): (res: Result<Option<string>, ErrorCode>)
    ensures res.Ok? && res.value.Some? ==>
      exists i :: 0 <= i < |candidates| && res.value.value == RoleArn(r.account, candidates[i])
    ensures res.Err? ==> res.error != NoSuchEntity && r.Fault("get_role") == Some(res.error)
    decreases |candidates|
  {
    if candidates == [] then Ok(None)
    else
      match r.GetRole(candidates[0])
      case Ok(_) => Ok(Some(RoleArn(r.account, candidates[0])))
      case Err(code) =>
        if code == NoSuchEntity then
          var rest := FirstExistingRole(r, candidates[1..]);
          assert rest.Ok? && rest.value.Some? ==>
            exists i :: 1 <= i < |candidates| && rest.value.value == RoleArn(r.account, candidates[i]) by {
            if rest.Ok? && rest.value.Some? {
              var i :| 0 <= i < |candidates[1..]| && rest.value.value == RoleArn(r.account, candidates[1..][i]);
              assert candidates[1..][i] == candidates[i + 1];
            }
          }
          rest
        else Err(code)
  }

  /** The role search loop: `get_role` on each candidate until one exists. */
  method SearchRoles(cloud: Cloud, candidates: seq<string>) returns (res: Result<Option<string>, ErrorCode>)
    ensures res == FirstExistingRole(cloud.State(), candidates)
  {
    var role: Option<string> := None;
    for i := 0 to |candidates|
      invariant role == None
      invariant FirstExistingRole(cloud.State(), candidates) == FirstExistingRole(cloud.State(), candidates[i..])
    {
      assert candidates[i..][0] == candidates[i] && candidates[i..][1..] == candidates[i + 1..];
      var found := cloud.State().GetRole(candidates[i]);
      if found.Ok? {
        role := Some(RoleArn(cloud.account, candidates[i]));
        break;
      } else if found.error != NoSuchEntity {
        return Err(found.error);
      }
    }
    return Ok(role);
  }

  /** With `get_role` answering normally, the search yields the first candidate that exists,
      and none when no candidate exists. */
  lemma {:induction false} FirstExistingRoleIsFirst(r: Remote, candidates: seq<string>)
    requires "get_role" !in r.faults
    ensures FirstExistingRole(r, candidates).Ok?
    ensures FirstExistingRole(r, candidates).value.None? <==>
      forall j :: 0 <= j < |candidates| ==> candidates[j] !in r.roles
    ensures FirstExistingRole(r, candidates).value.Some? ==>
      exists i :: 0 <= i < |candidates| && candidates[i] in r.roles &&
        FirstExistingRole(r, candidates).value.value == RoleArn(r.account, candidates[i]) &&
        forall j :: 0 <= j < i ==> candidates[j] !in r.roles
    decreases |candidates|
  {
    if candidates != [] && candidates[0] !in r.roles {
      FirstExistingRoleIsFirst(r, candidates[1..]);
      var rest := FirstExistingRole(r, candidates[1..]);
      assert forall j :: 1 <= j < |candidates| ==> candidates[j] == candidates[1..][j - 1];
      if rest.value.Some? {
        var i :| 0 <= i < |candidates[1..]| && candidates[1..][i] in r.roles &&
          rest.value.value == RoleArn(r.account, candidates[1..][i]) &&
          forall j :: 0 <= j < i ==> candidates[1..][j] !in r.roles;
        assert candidates[i + 1] == candidates[1..][i];
        assert forall j :: 0 <= j < i + 1 ==> candidates[j] !in r.roles by {
          forall j | 0 <= j < i + 1 ensures candidates[j] !in r.roles {
            if j > 0 { assert candidates[j] == candidates[1..][j - 1]; }
          }
        }
      }
    }
  }

  /** The execution role: configured for dev, stage and prod; otherwise an existing candidate
      role of the caller's account, or the default name when none exists. */
  function ExecutionRole(r: Remote, env: Env): (res: Result<string, ErrorCode>)
    ensures env.Configured() ==> res == Ok(ConfiguredRole(env))
    ensures !env.Configured() && res.Ok? ==>
      res.value == RoleArn(r.account, DefaultRole) ||
      exists c :: c in CandidateRoles(r.account) && res.value == RoleArn(r.account, c)
  {
    if env.Configured() then Ok(ConfiguredRole(env))
    else
      match FirstExistingRole(r, CandidateRoles(r.account))
      case Err(code) => Err(code)
      case Ok(Some(arn)) => Ok(arn)
      case Ok(None) => Ok(RoleArn(r.account, DefaultRole))
  }

  /** Unless `get_role` itself fails, the role search always settles on a role: the first
      candidate that exists, else the default name. */
  lemma ExecutionRoleResolves(r: Remote, env: Env)
    requires !env.Configured() && "get_role" !in r.faults
    ensures ExecutionRole(r, env).Ok?
    ensures (forall c :: c in CandidateRoles(r.account) ==> c !in r.roles) ==>
      ExecutionRole(r, env) == Ok(RoleArn(r.account, DefaultRole))
    ensures DefaultRole in r.roles ==> ExecutionRole(r, env) == Ok(RoleArn(r.account, DefaultRole))
    ensures forall i ::
      (0 <= i < |CandidateRoles(r.account)| && CandidateRoles(r.account)[i] in r.roles &&
       forall j :: 0 <= j < i ==> CandidateRoles(r.account)[j] !in r.roles) ==>
        ExecutionRole(r, env) == Ok(RoleArn(r.account, CandidateRoles(r.account)[i]))
  {
    var cands := CandidateRoles(r.account);
    FirstExistingRoleIsFirst(r, cands);
    if DefaultRole in r.roles {
      assert cands[0] in r.roles;
    }
    forall i | 0 <= i < |cands| && cands[i] in r.roles && (forall j :: 0 <= j < i ==> cands[j] !in r.roles)
      ensures ExecutionRole(r, env) == Ok(RoleArn(r.account, cands[i]))
    {
      var found := FirstExistingRole(r, cands);
      assert found.value.Some?;
      var k :| 0 <= k < |cands| && cands[k] in r.roles &&
        found.value.value == RoleArn(r.account, cands[k]) &&
        forall j :: 0 <= j < k ==> cands[j] !in r.roles;
      assert k == i;
    }
  }

  /** The model name: an explicit `--model-name`, else the environment's default. */
  function ModelName(args: Args): (name: string)
    ensures Given(args.modelName) ==> name == args.modelName.value
    ensures !Given(args.modelName) ==> StartsWith(name, "soc2MlImageAnalyzer")
  {
    if Given(args.modelName) then args.modelName.value
    else match args.env
      case Personal => "soc2MlImageAnalyzerPersonal"
      case Soc2 => "soc2MlImageAnalyzerHardened"
      case _ => "soc2MlImageAnalyzer"
  }

  /** The repository name: an explicit `--repository-name`, else the environment's default. */
  function RepositoryName(args: Args): (repo: string)
    ensures Given(args.repositoryName) ==> repo == args.repositoryName.value
    ensures !Given(args.repositoryName) ==> StartsWith(repo, "soc2-ml-image-analyzer")
  {
    if Given(args.repositoryName) then args.repositoryName.value
    else match args.env
      case Personal => "soc2-ml-image-analyzer-personal"
      case Soc2 => "soc2-ml-image-analyzer-hardened"
      case _ => "soc2-ml-image-analyzer"
  }

  /** Each environment falls back to its own model and repository. */
  lemma DefaultNamesDistinct(a: Args, b: Args)
    requires !Given(a.modelName) && !Given(b.modelName)
    requires !Given(a.repositoryName) && !Given(b.repositoryName)
    requires a.env.Personal? && (b.env.Soc2? || b.env.Configured())
    ensures ModelName(a) != ModelName(b) && RepositoryName(a) != RepositoryName(b)
  {
    assert ModelName(a)[19] == 'P';
    assert RepositoryName(a)[22] == '-';
    if b.env.Soc2? {
      assert ModelName(b)[19] == 'H';
      assert RepositoryName(a)[23] == 'p' && RepositoryName(b)[23] == 'h';
    } else {
      assert |ModelName(b)| == 19 && |RepositoryName(b)| == 22;
    }
  }

  function DigestUrl(registry: string, repo: string, digest: string): string {
    registry + "/" + repo + "@" + digest
  }

  function TagUrl(registry: string, repo: string): string {
    registry + "/" + repo + ":latest"
  }

  /** The image reference: the supplied digest, else the first digest tagged `latest`; a
      registry `ClientError` falls back to the tag reference, while an empty listing raises. */
  function ImageUrl(r: Remote, registry: string, repo: string, digest: Option<string>): (res: Result<string, Failure>)
    ensures Given(digest) ==> res == Ok(DigestUrl(registry, repo, digest.value))
    ensures !Given(digest) && r.DescribeImages(repo, "latest").Err? ==> res == Ok(TagUrl(registry, repo))
    ensures !Given(digest) ==> (res.Err? <==> r.DescribeImages(repo, "latest") == Ok([]))
    ensures !Given(digest) && r.DescribeImages(repo, "latest").Ok? && res.Ok? ==>
      res.value == DigestUrl(registry, repo, r.images[(repo, "latest")][0])
    ensures res.Err? ==> res.error == NoImageWithLatestTag
  {
    if Given(digest) then Ok(DigestUrl(registry, repo, digest.value))
    else
      match r.DescribeImages(repo, "latest")
      case Err(_) => Ok(TagUrl(registry, repo))
      case Ok(details) =>
        if details != [] then Ok(DigestUrl(registry, repo, details[0]))
        else Err(NoImageWithLatestTag)
  }

  /** The number of re-checks after the settle delay. */
  const MaxDeletionChecks: nat := 10

  /** What re-check `k` of the deletion poll is told by the eventual-consistency oracle. */
  predicate Lingers(lingering: seq<bool>, k: nat) {
    k < |lingering| && lingering[k]
  }

  /** The deletion poll from re-check `retries` on: a model still reported costs a retry, a
      `ValidationException` confirms the deletion (the result is that re-check's index), any other
      code escapes, and ten reports in a row raise. */
  function PollDeletion(r: Remote, name: string, lingering: seq<bool>, retries: nat): (res: Result<nat, Failure>)
    requires retries <= MaxDeletionChecks
    ensures res.Ok? ==>
      retries <= res.value < MaxDeletionChecks &&
      r.ProbeModel(name, Lingers(lingering, res.value)) == Some(ValidationException) &&
      forall k :: retries <= k < res.value ==> r.ProbeModel(name, Lingers(lingering, k)).None?
    ensures res == Err(DeletionTimedOut) <==>
      forall k :: retries <= k < MaxDeletionChecks ==> r.ProbeModel(name, Lingers(lingering, k)).None?
    ensures res.Err? ==> res.error == DeletionTimedOut || (res.error.ClientError? && res.error.code != ValidationException)
    decreases MaxDeletionChecks - retries
  {
    if retries == MaxDeletionChecks then Err(DeletionTimedOut)
    else
      match r.ProbeModel(name, Lingers(lingering, retries))
      case None => PollDeletion(r, name, lingering, retries + 1)
      case Some(code) =>
        if code == ValidationException then Ok(retries) else Err(ClientError(code))
  }

  /** Once the model is gone from the service, the poll times out exactly when the oracle
      reports it on all ten re-checks. */
  lemma PollTimesOutIffAlwaysReported(r: Remote, name: string, lingering: seq<bool>)
    requires "describe_model" !in r.faults && name !in r.models
    ensures PollDeletion(r, name, lingering, 0) == Err(DeletionTimedOut) <==>
      forall k :: 0 <= k < MaxDeletionChecks ==> Lingers(lingering, k)
    ensures PollDeletion(r, name, lingering, 0) != Err(DeletionTimedOut) ==> PollDeletion(r, name, lingering, 0).Ok?
  {
    assert forall k :: r.ProbeModel(name, Lingers(lingering, k)).None? <==> Lingers(lingering, k);
  }

  /** The force-delete step: probe, delete, wait for the deletion to show. A `ValidationException`
      from the probe (no such model) or from `delete_model` itself lets the script go on to
      create; any other `ClientError` escapes. */
  function RemoveExisting(r: Remote, name: string, lingering: seq<bool>): (run: Run<()>)
    ensures run.state == r || run.state == r.Submit(DeleteModel(name))
    ensures run.state.images == r.images && run.state.repositories == r.repositories && run.state.roles == r.roles
    ensures run.state.trace == r.trace || run.state.trace == r.trace + [Issued(DeleteModel(name))]
    ensures run.state == r <==> r.ProbeModel(name, false).Some?
    ensures r.ProbeModel(name, false).Some? ==>
      run.result == if r.ProbeModel(name, false) == Some(ValidationException) then Ok(()) else Err(ClientError(r.ProbeModel(name, false).value))
    ensures run.result.Err? ==>
      run.result.error == DeletionTimedOut || (run.result.error.ClientError? && run.result.error.code != ValidationException)
    ensures run.result.Ok? ==>
      r.ProbeModel(name, false) == Some(ValidationException) ||
      r.Rejection(DeleteModel(name)) == Some(ValidationException) ||
      name !in run.state.models
    ensures r.ProbeModel(name, false).None? && r.Rejection(DeleteModel(name)).None? ==>
      name !in run.state.models &&
      (run.result.Ok? <==> PollDeletion(r.Submit(DeleteModel(name)), name, lingering, 0).Ok?)
  {
    match r.ProbeModel(name, false)
    case Some(code) =>
      if code == ValidationException then Run(r, Ok(())) else Run(r, Err(ClientError(code)))
    case None =>
      var deleted := r.Submit(DeleteModel(name));
      match r.Rejection(DeleteModel(name))
      case Some(code) =>
        if code == ValidationException then Run(deleted, Ok(())) else Run(deleted, Err(ClientError(code)))
      case None =>
        match PollDeletion(deleted, name, lingering, 0)
        case Ok(_) => Run(deleted, Ok(()))
        case Err(f) => Run(deleted, Err(f))
  }

  method RemovePrevious(cloud: Cloud, name: string, lingering: seq<bool>) returns (res: Result<(), Failure>)
    modifies cloud
    ensures Run(cloud.State(), res) == RemoveExisting(old(cloud.State()), name, lingering)
  {
    var probe := cloud.State().ProbeModel(name, false);
    if probe.Some? {
      if probe.value == ValidationException {
        return Ok(());
      }
      return Err(ClientError(probe.value));
    }
    var rejected := cloud.Execute(DeleteModel(name));
    if rejected.Some? {
      if rejected.value == ValidationException {
        return Ok(());
      }
      return Err(ClientError(rejected.value));
    }
    var retries := 0;
    while retries < MaxDeletionChecks
      invariant retries <= MaxDeletionChecks
      invariant cloud.State() == old(cloud.State()).Submit(DeleteModel(name))
      invariant PollDeletion(cloud.State(), name, lingering, 0) == PollDeletion(cloud.State(), name, lingering, retries)
    {
      var seen := cloud.State().ProbeModel(name, Lingers(lingering, retries));
      if seen.None? {
        retries := retries + 1;
      } else if seen.value == ValidationException {
        break;
      } else {
        return Err(ClientError(seen.value));
      }
    }
    if retries >= MaxDeletionChecks {
      return Err(DeletionTimedOut);
    }
    return Ok(());
  }

  /** The keys added to the container environment for the soc2 environment only. */
  const Soc2Keys: set<string> :=
    {"SAGEMAKER_CONTAINER_LOG_LEVEL", "SAGEMAKER_REGION", "SOC2_COMPLIANT", "SECURITY_HARDENED"}

  /** The container environment: the entry point and a refresh stamp (`str(int(time.time()))`)
      always, the four SOC 2 settings for soc2 only. */
  function ContainerEnvironment(env: Env, epochSeconds: nat): (vars: map<string, string>)
    ensures "SAGEMAKER_PROGRAM" in vars && vars["SAGEMAKER_PROGRAM"] == "image-analyzer.py"
    ensures "FORCE_REFRESH" in vars && DecimalValue(vars["FORCE_REFRESH"]) == epochSeconds
    ensures vars.Keys == {"SAGEMAKER_PROGRAM", "FORCE_REFRESH"} + (if env.Soc2? then Soc2Keys else {})
    ensures env.Soc2? ==> vars["SOC2_COMPLIANT"] == "true" && vars["SECURITY_HARDENED"] == "true"
    ensures env.Soc2? ==> vars["SAGEMAKER_CONTAINER_LOG_LEVEL"] == "20" && vars["SAGEMAKER_REGION"] == "us-east-1"
  {
    var vars := map["SAGEMAKER_PROGRAM" := "image-analyzer.py", "FORCE_REFRESH" := Decimal(epochSeconds)];
    if env.Soc2? then
      vars + map[
        "SAGEMAKER_CONTAINER_LOG_LEVEL" := "20",
        "SAGEMAKER_REGION" := "us-east-1",
        "SOC2_COMPLIANT" := "true",
        "SECURITY_HARDENED" := "true"]
    else vars
  }

  /** The advisory comparison after create: it reports, it never raises. */
  datatype DigestCheck =
    | Confirmed(digest: string)
    | Mismatch(expected: string, created: string)
    | TagReference(image: string)

  /** The digest the script expects: the text after `@` in the URL it sent, else `latest`. */
  function ExpectedDigest(imageUrl: string): (expected: string)
    ensures '@' !in imageUrl ==> expected == "latest"
  {
    if '@' in imageUrl then SecondField(imageUrl, '@') else "latest"
  }

  /** The expected digest of a reference pinned with `@` is the text after it. */
  lemma ExpectedDigestOf(location: string, digest: string)
    requires '@' !in location && '@' !in digest
    ensures ExpectedDigest(location + "@" + digest) == digest
  {
    SecondFieldOf(location, digest, '@');
    assert location + ['@'] + digest == location + "@" + digest;
  }

  function PostCreateCheck(imageUrl: string, createdImage: string): (check: DigestCheck)
    ensures check.TagReference? <==> !IsDigestReference(createdImage)
    ensures check.Confirmed? ==> check.digest == DigestOf(createdImage) && check.digest == ExpectedDigest(imageUrl)
    ensures check.Mismatch? ==>
      check.created == DigestOf(createdImage) && check.expected == ExpectedDigest(imageUrl) &&
      check.created != check.expected
  {
    if IsDigestReference(createdImage) then
      var created := DigestOf(createdImage);
      var expected := ExpectedDigest(imageUrl);
      if created == expected then Confirmed(created) else Mismatch(expected, created)
    else TagReference(createdImage)
  }

  /** What a completed run reports. */
  datatype Report = Report(model: string, image: string, check: DigestCheck)

  /** `create_model` followed by the `describe_model` that reads the result back. */
  function Launch(r: Remote, name: string, spec: ContainerModel): (run: Run<Report>)
    ensures run.state == r.Submit(CreateModel(name, spec))
    ensures run.state.images == r.images && run.state.repositories == r.repositories && run.state.roles == r.roles
    ensures run.result.Ok? ==> run.result.value == Report(name, spec.image, PostCreateCheck(spec.image, spec.image))
    ensures run.result.Ok? ==> name !in r.models && run.state.models == r.models[name := spec]
  {
    var created := r.Submit(CreateModel(name, spec));
    match r.Rejection(CreateModel(name, spec))
    case Some(code) => Run(created, Err(ClientError(code)))
    case None =>
      match created.DescribeModel(name)
      case Err(code) => Run(created, Err(ClientError(code)))
      case Ok(model) => Run(created, Ok(Report(name, spec.image, PostCreateCheck(spec.image, model.image))))
  }

  /** The model definition the script sends. */
  function ModelSpec(args: Args, epochSeconds: nat, url: string, role: string): ContainerModel {
    ContainerModel(url, ContainerEnvironment(args.env, epochSeconds), role)
  }

  /** The image reference the script resolves for `args`. */
  function ImageFor(r: Remote, args: Args): Result<string, Failure> {
    ImageUrl(r, Registry(args.env, r.account), RepositoryName(args), args.imageDigest)
  }

  /** The whole script, from the role search to the post-create check. */
  function EnsureModelRun(r: Remote, args: Args, epochSeconds: nat, lingering: seq<bool>): (run: Run<Report>)
    ensures ExecutionRole(r, args.env).Err? || ImageFor(r, args).Err? ==> run.state == r && run.result.Err?
    ensures run.state.account == r.account && run.state.images == r.images &&
      run.state.repositories == r.repositories && run.state.roles == r.roles
    ensures run.result.Ok? ==>
      ExecutionRole(r, args.env).Ok? && ImageFor(r, args).Ok? &&
      var spec := ModelSpec(args, epochSeconds, ImageFor(r, args).value, ExecutionRole(r, args.env).value);
      run.result.value.model == ModelName(args) && run.result.value.image == spec.image &&
      ModelName(args) in run.state.models && run.state.models[ModelName(args)] == spec
  {
    match ExecutionRole(r, args.env)
    case Err(code) => Run(r, Err(ClientError(code)))
    case Ok(role) =>
      match ImageFor(r, args)
      case Err(f) => Run(r, Err(f))
      case Ok(url) =>
        var removed := RemoveExisting(r, ModelName(args), lingering);
        if removed.result.Err? then Run(removed.state, Err(removed.result.error))
        else Launch(removed.state, ModelName(args), ModelSpec(args, epochSeconds, url, role))
  }

  /** The script `create_fixed.py`. */
  method EnsureModel(cloud: Cloud, args: Args, epochSeconds: nat, lingering: seq<bool>) returns (res: Result<Report, Failure>)
    modifies cloud
    ensures Run(cloud.State(), res) == EnsureModelRun(old(cloud.State()), args, epochSeconds, lingering)
  {
    var role: string;
    if args.env.Configured() {
      role := ConfiguredRole(args.env);
    } else {
      var found := SearchRoles(cloud, CandidateRoles(cloud.account));
      match found {
        case Err(code) => return Err(ClientError(code));
        case Ok(Some(arn)) => role := arn;
        case Ok(None) => role := RoleArn(cloud.account, DefaultRole);
      }
    }
    var name := ModelName(args);
    var image := ImageFor(cloud.State(), args);
    if image.Err? {
      return Err(image.error);
    }
    var removed := RemovePrevious(cloud, name, lingering);
    if removed.Err? {
      return Err(removed.error);
    }
    var spec := ModelSpec(args, epochSeconds, image.value, role);
    var rejected := cloud.Execute(CreateModel(name, spec));
    if rejected.Some? {
      return Err(ClientError(rejected.value));
    }
    var described := cloud.State().DescribeModel(name);
    if described.Err? {
      return Err(ClientError(described.error));
    }
    return Ok(Report(name, image.value, PostCreateCheck(image.value, described.value.image)));
  }

  /** A model still hosted under the name is deleted before it is created again: the run issues
      `delete_model` then `create_model`, and completes with the new definition in place. */
  lemma ReplacesExistingModel(r: Remote, args: Args, epochSeconds: nat, lingering: seq<bool>)
    requires ExecutionRole(r, args.env).Ok? && ImageFor(r, args).Ok?
    requires ModelName(args) in r.models
    requires "describe_model" !in r.faults && "delete_model" !in r.faults && "create_model" !in r.faults
    requires exists k :: 0 <= k < MaxDeletionChecks && !Lingers(lingering, k)
    ensures
      var run := EnsureModelRun(r, args, epochSeconds, lingering);
      var name := ModelName(args);
      var spec := ModelSpec(args, epochSeconds, ImageFor(r, args).value, ExecutionRole(r, args.env).value);
      run.state.trace == r.trace + [Issued(DeleteModel(name)), Issued(CreateModel(name, spec))] &&
      run.state.models == r.models[name := spec] &&
      run.result.Ok? && run.result.value.model == name
  {
    var name := ModelName(args);
    var spec := ModelSpec(args, epochSeconds, ImageFor(r, args).value, ExecutionRole(r, args.env).value);
    var deleted := r.Submit(DeleteModel(name));
    assert deleted.models == r.models - {name};
    PollTimesOutIffAlwaysReported(deleted, name, lingering);
    assert RemoveExisting(r, name, lingering) == Run(deleted, Ok(()));
    assert EnsureModelRun(r, args, epochSeconds, lingering) == Launch(deleted, name, spec);
    LaunchAccepted(deleted, name, spec);
    assert (r.models - {name})[name := spec] == r.models[name := spec];
  }

  /** A name the service does not host skips the delete: the run sends only `create_model` and
      completes with the new definition in place. */
  lemma CreatesAbsentModel(r: Remote, args: Args, epochSeconds: nat, lingering: seq<bool>)
    requires ExecutionRole(r, args.env).Ok? && ImageFor(r, args).Ok?
    requires ModelName(args) !in r.models
    requires "describe_model" !in r.faults && "create_model" !in r.faults
    ensures
      var run := EnsureModelRun(r, args, epochSeconds, lingering);
      var name := ModelName(args);
      var spec := ModelSpec(args, epochSeconds, ImageFor(r, args).value, ExecutionRole(r, args.env).value);
      run.state.trace == r.trace + [Issued(CreateModel(name, spec))] &&
      run.state.models == r.models[name := spec] &&
      run.result.Ok? && run.result.value.model == name
  {
    var name := ModelName(args);
    var spec := ModelSpec(args, epochSeconds, ImageFor(r, args).value, ExecutionRole(r, args.env).value);
    assert RemoveExisting(r, name, lingering) == Run(r, Ok(()));
    assert EnsureModelRun(r, args, epochSeconds, lingering) == Launch(r, name, spec);
    LaunchAccepted(r, name, spec);
  }

  /** `create_model` under a free name is accepted and the describe that follows succeeds. */
  lemma LaunchAccepted(r: Remote, name: string, spec: ContainerModel)
    requires name !in r.models && "create_model" !in r.faults && "describe_model" !in r.faults
    ensures Launch(r, name, spec).result.Ok?
    ensures Launch(r, name, spec).state.models == r.models[name := spec]
  {
    var created := r.Submit(CreateModel(name, spec));
    assert created.DescribeModel(name) == Ok(spec);
  }

  /** A deleted model the service keeps reporting on all ten re-checks stops the run: either the
      run ends before the delete, or the old model is gone and no new one is created. */
  lemma LingeringModelNeverReplaced(r: Remote, args: Args, epochSeconds: nat, lingering: seq<bool>)
    requires ModelName(args) in r.models
    requires "describe_model" !in r.faults && "delete_model" !in r.faults
    requires forall k :: 0 <= k < MaxDeletionChecks ==> Lingers(lingering, k)
    ensures
      var run := EnsureModelRun(r, args, epochSeconds, lingering);
      var name := ModelName(args);
      run.result.Err? &&
      (run.state == r ||
       (run.state.trace == r.trace + [Issued(DeleteModel(name))] && name !in run.state.models))
    ensures
      ExecutionRole(r, args.env).Ok? && ImageFor(r, args).Ok? ==>
        EnsureModelRun(r, args, epochSeconds, lingering).result == Err(DeletionTimedOut)
  {
    var name := ModelName(args);
    var deleted := r.Submit(DeleteModel(name));
    assert deleted.models == r.models - {name};
    PollTimesOutIffAlwaysReported(deleted, name, lingering);
    assert RemoveExisting(r, name, lingering) == Run(deleted, Err(DeletionTimedOut));
  }

  /** Any error code other than `ValidationException` from the first `describe_model` aborts
      the run before anything is deleted or created. */
  lemma ProbeErrorAborts(r: Remote, args: Args, epochSeconds: nat, lingering: seq<bool>, code: ErrorCode)
    requires r.Fault("describe_model") == Some(code) && code != ValidationException
    ensures EnsureModelRun(r, args, epochSeconds, lingering).state == r
    ensures EnsureModelRun(r, args, epochSeconds, lingering).result.Err?
    ensures ExecutionRole(r, args.env).Ok? && ImageFor(r, args).Ok? ==>
      EnsureModelRun(r, args, epochSeconds, lingering).result == Err(ClientError(code))
  {
    assert RemoveExisting(r, ModelName(args), lingering) == Run(r, Err(ClientError(code)));
  }

  /** A `ValidationException` from `delete_model` itself skips the wait and goes straight on to
      `create_model`. Here that code can only be an injected fault, which leaves the old model in
      place, so the create is refused. */
  lemma DeleteValidationErrorSkipsWait(r: Remote, args: Args, epochSeconds: nat, lingering: seq<bool>)
    requires ExecutionRole(r, args.env).Ok? && ImageFor(r, args).Ok?
    requires ModelName(args) in r.models
    requires "describe_model" !in r.faults && "create_model" !in r.faults
    requires r.Fault("delete_model") == Some(ValidationException)
    ensures
      var run := EnsureModelRun(r, args, epochSeconds, lingering);
      var name := ModelName(args);
      var spec := ModelSpec(args, epochSeconds, ImageFor(r, args).value, ExecutionRole(r, args.env).value);
      run.state.trace == r.trace + [Issued(DeleteModel(name)), Issued(CreateModel(name, spec))] &&
      run.state.models == r.models &&
      run.result == Err(ClientError(ValidationException))
  {
    var name := ModelName(args);
    var spec := ModelSpec(args, epochSeconds, ImageFor(r, args).value, ExecutionRole(r, args.env).value);
    var deleted := r.Submit(DeleteModel(name));
    assert RemoveExisting(r, name, lingering) == Run(deleted, Ok(()));
    assert deleted.models == r.models;
    assert EnsureModelRun(r, args, epochSeconds, lingering) == Launch(deleted, name, spec);
  }

  /** `delete_model` and `create_model` touch only the model they name. */
  lemma ModelCommandTouchesOnlyItsModel(r: Remote, c: Command)
    requires c.DeleteModel? || c.CreateModel?
    ensures
      var after := r.Submit(c);
      after.models - {c.model} == r.models - {c.model} &&
      after.configs == r.configs && after.endpoints == r.endpoints && after.images == r.images &&
      after.repositories == r.repositories && after.roles == r.roles
  {
    if r.Rejection(c).None? && c.CreateModel? {
      assert r.Submit(c).models == r.models[c.model := c.spec];
    }
  }

  /** A run changes no model but its own and no other kind of resource. */
  lemma OnlyOwnModelChanges(r: Remote, args: Args, epochSeconds: nat, lingering: seq<bool>)
    ensures
      var after := EnsureModelRun(r, args, epochSeconds, lingering).state;
      after.models - {ModelName(args)} == r.models - {ModelName(args)} &&
      after.configs == r.configs && after.endpoints == r.endpoints && after.images == r.images &&
      after.repositories == r.repositories && after.roles == r.roles && after.account == r.account
  {
    var name := ModelName(args);
    var removed := RemoveExisting(r, name, lingering);
    ModelCommandTouchesOnlyItsModel(r, DeleteModel(name));
    if ExecutionRole(r, args.env).Ok? && ImageFor(r, args).Ok? && removed.result.Ok? {
      var spec := ModelSpec(args, epochSeconds, ImageFor(r, args).value, ExecutionRole(r, args.env).value);
      assert EnsureModelRun(r, args, epochSeconds, lingering).state == removed.state.Submit(CreateModel(name, spec));
      ModelCommandTouchesOnlyItsModel(removed.state, CreateModel(name, spec));
    }
  }

  /** A reference pinned by digest reads back as confirmed. */
  lemma PinnedImageConfirmed(location: string, digest: string)
    requires '@' !in location && '@' !in digest && StartsWith(digest, "sha256:")
    ensures PostCreateCheck(location + "@" + digest, location + "@" + digest) == Confirmed(digest)
  {
    var url := location + "@" + digest;
    DigestReferenceOf(location, digest);
    ContainsHead(url, "@sha256:");
    assert ExpectedDigest(url) == DigestOf(url);
  }

  /** Whatever the script resolves as the image reference is what a completed run reports. */
  lemma CompletedRunReportsItsImage(r: Remote, args: Args, epochSeconds: nat, lingering: seq<bool>)
    requires EnsureModelRun(r, args, epochSeconds, lingering).result.Ok?
    ensures ImageFor(r, args).Ok?
    ensures
      var url := ImageFor(r, args).value;
      EnsureModelRun(r, args, epochSeconds, lingering).result.value == Report(ModelName(args), url, PostCreateCheck(url, url))
  {
  }

  /** A supplied digest is confirmed by the post-create check: the model is created with the
      pinned reference and the digest read back is the one supplied. */
  lemma SuppliedDigestConfirmed(r: Remote, args: Args, epochSeconds: nat, lingering: seq<bool>)
    requires Given(args.imageDigest) && StartsWith(args.imageDigest.value, "sha256:")
    requires '@' !in args.imageDigest.value && '@' !in Registry(args.env, r.account) && '@' !in RepositoryName(args)
    requires EnsureModelRun(r, args, epochSeconds, lingering).result.Ok?
    ensures EnsureModelRun(r, args, epochSeconds, lingering).result.value.check == Confirmed(args.imageDigest.value)
  {
    var registry := Registry(args.env, r.account);
    var location := registry + "/" + RepositoryName(args);
    assert '@' !in location;
    assert DigestUrl(registry, RepositoryName(args), args.imageDigest.value) == location + "@" + args.imageDigest.value;
    PinnedImageConfirmed(location, args.imageDigest.value);
    CompletedRunReportsItsImage(r, args, epochSeconds, lingering);
  }

  /** A tag reference reads back as a tag reference. */
  lemma TagImageReported(registry: string, repo: string)
    requires '@' !in registry && '@' !in repo
    ensures PostCreateCheck(TagUrl(registry, repo), TagUrl(registry, repo)) == TagReference(TagUrl(registry, repo))
  {
    var url := TagUrl(registry, repo);
    assert forall i :: 0 <= i < |url| ==> url[i] != '@' by {
      forall i | 0 <= i < |url| ensures url[i] != '@' {
        if i < |registry| {
          assert url[i] == registry[i];
        } else if |registry| < i < |registry| + 1 + |repo| {
          assert url[i] == repo[i - |registry| - 1];
        }
      }
    }
    TagReferenceIsNotDigest(url);
  }

  /** Without a digest and with the registry lookup failing, the run falls back to the `latest`
      tag and completes with a warning rather than an error. */
  lemma TagFallbackOnlyWarns(r: Remote, args: Args, epochSeconds: nat, lingering: seq<bool>)
    requires !Given(args.imageDigest) && r.DescribeImages(RepositoryName(args), "latest").Err?
    requires '@' !in Registry(args.env, r.account) && '@' !in RepositoryName(args)
    requires EnsureModelRun(r, args, epochSeconds, lingering).result.Ok?
    ensures EnsureModelRun(r, args, epochSeconds, lingering).result.value.check ==
      TagReference(TagUrl(Registry(args.env, r.account), RepositoryName(args)))
  {
    TagImageReported(Registry(args.env, r.account), RepositoryName(args));
    CompletedRunReportsItsImage(r, args, epochSeconds, lingering);
  }
}

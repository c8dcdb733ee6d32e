/** The local driver for the personal environment: make sure the registry repository and the
    execution role exist, optionally build and push the image, and optionally run the model,
    endpoint and verification scripts with the digest just pushed. */
module LocalDeploy {
  import opened Common
  import opened Text
  import opened ControlPlane
  import ModelLifecycle
  import EndpointRollout
  import VerifyDeployment

  /** The fixed configuration of the personal environment. */
  const Repository := "defender-image-analyzer-personal"
  const ServedModel := "defenderImageAnalyzerPersonal"
  const Endpoint := "defenderImageAnalyzerPersonalC5i"
  const RoleName := "SageMaker-ExecutionRole"

  /** The managed policies attached to a newly created role, in order. */
  const Policies: seq<string> :=
    ["arn:aws:iam::aws:policy/AmazonSageMakerFullAccess", "arn:aws:iam::aws:policy/AmazonS3ReadOnlyAccess"]

  /** The setup steps leave models, configurations, endpoints and images as they were. */
  predicate Untouched(before: Remote, after: Remote) {
    after.models == before.models && after.configs == before.configs &&
    after.endpoints == before.endpoints && after.images == before.images
  }

  /** Get-or-create of the registry repository: a described repository is left alone, a
      `RepositoryNotFoundException` creates it, and any other code escapes. */
  function EnsureRepositoryRun(r: Remote, repo: string): (run: Run<()>)
    ensures run.state == r || run.state == r.Submit(CreateRepository(repo))
    ensures run.result.Ok? ==> repo in run.state.repositories
  {
    match r.DescribeRepository(repo)
    case None => Run(r, Ok(()))
    case Some(code) =>
      if code == RepositoryNotFoundException then
        var created := r.Submit(CreateRepository(repo));
        match r.Rejection(CreateRepository(repo))
        case Some(refused) => Run(created, Err(ClientError(refused)))
        case None => Run(created, Ok(()))
      else Run(r, Err(ClientError(code)))
  }

  /** `create_ecr_repository`. */
  method CreateEcrRepository(cloud: Cloud, repo: string) returns (res: Result<(), Failure>)
    modifies cloud
    ensures Run(cloud.State(), res) == EnsureRepositoryRun(old(cloud.State()), repo)
  {
    var described := cloud.State().DescribeRepository(repo);
    if described.None? {
      return Ok(());
    }
    if described.value != RepositoryNotFoundException {
      return Err(ClientError(described.value));
    }
    var rejected := cloud.Execute(CreateRepository(repo));
    res := if rejected.Some? then Err(ClientError(rejected.value)) else Ok(());
  }

  /** A repository already there is left alone; one that is missing is created. Either way a
      second call finds it and sends nothing. */
  lemma EnsureRepositoryIdempotent(r: Remote, repo: string)
    requires "describe_repositories" !in r.faults
    requires EnsureRepositoryRun(r, repo).result.Ok?
    ensures repo in r.repositories ==> EnsureRepositoryRun(r, repo).state == r
    ensures repo !in r.repositories ==>
      EnsureRepositoryRun(r, repo).state.trace == r.trace + [Issued(CreateRepository(repo))]
    ensures
      var first := EnsureRepositoryRun(r, repo).state;
      EnsureRepositoryRun(first, repo) == Run(first, Ok(()))
  {
  }

  /** Any other code from `describe_repositories` escapes without a create. */
  lemma RepositoryErrorReraised(r: Remote, repo: string, code: ErrorCode)
    requires r.Fault("describe_repositories") == Some(code) && code != RepositoryNotFoundException
    ensures EnsureRepositoryRun(r, repo) == Run(r, Err(ClientError(code)))
  {
  }

  /** The `attach_role_policy` loop from `policies` on; the first refusal escapes. */
  function AttachPolicies(r: Remote, role: string, policies: seq<string>): (run: Run<()>)
    ensures r.trace <= run.state.trace
    ensures Untouched(r, run.state)
    ensures run.state.repositories == r.repositories && run.state.roles.Keys == r.roles.Keys
    ensures run.state.account == r.account
    decreases |policies|
  {
    if policies == [] then Run(r, Ok(()))
    else
      var attached := r.Submit(AttachRolePolicy(role, policies[0]));
      match r.Rejection(AttachRolePolicy(role, policies[0]))
      case Some(code) => Run(attached, Err(ClientError(code)))
      case None => AttachPolicies(attached, role, policies[1..])
  }

  /** Attaching distinct policies to a new role with no refusals records one call per policy,
      in order, and leaves the role holding exactly those policies. */
  lemma {:induction false} AttachPoliciesInOrder(r: Remote, role: string, attached: seq<string>, policies: seq<string>)
    requires "attach_role_policy" !in r.faults && role in r.roles
    requires r.roles[role].policies == attached
    requires forall i, j :: 0 <= i < j < |attached + policies| ==> (attached + policies)[i] != (attached + policies)[j]
    ensures
      var run := AttachPolicies(r, role, policies);
      run.result.Ok? &&
      |run.state.trace| == |r.trace| + |policies| &&
      (forall i :: 0 <= i < |policies| ==> run.state.trace[|r.trace| + i] == Issued(AttachRolePolicy(role, policies[i]))) &&
      role in run.state.roles && run.state.roles[role].policies == attached + policies &&
      run.state.roles[role].arn == r.roles[role].arn &&
      run.state.roles.Keys == r.roles.Keys &&
      (forall n :: n in r.roles && n != role ==> run.state.roles[n] == r.roles[n])
    decreases |policies|
  {
    if policies != [] {
      var next := r.Submit(AttachRolePolicy(role, policies[0]));
      assert policies[0] == (attached + policies)[|attached|];
      assert policies[0] !in attached by {
        forall i | 0 <= i < |attached| ensures attached[i] != policies[0] {
          assert attached[i] == (attached + policies)[i];
        }
      }
      assert next.roles[role].policies == attached + [policies[0]];
      assert attached + [policies[0]] + policies[1..] == attached + policies;
      AttachPoliciesInOrder(next, role, attached + [policies[0]], policies[1..]);
      var run := AttachPolicies(next, role, policies[1..]);
      forall i | 0 <= i < |policies| ensures run.state.trace[|r.trace| + i] == Issued(AttachRolePolicy(role, policies[i])) {
        if i == 0 {
          assert run.state.trace[|r.trace|] == next.trace[|r.trace|];
        } else {
          assert policies[i] == policies[1..][i - 1];
        }
      }
    }
  }

  /** Get-or-create of the execution role: an existing role's ARN is returned as is; on
      `NoSuchEntity` the role is created, the policies attached and the new ARN returned; any
      other code escapes. */
  function EnsureRoleRun(r: Remote): (run: Run<string>)
    ensures r.trace <= run.state.trace
    ensures Untouched(r, run.state) && run.state.repositories == r.repositories && run.state.account == r.account
    ensures run.result.Ok? ==> RoleName in run.state.roles
  {
    match r.GetRole(RoleName)
    case Ok(arn) => Run(r, Ok(arn))
    case Err(code) =>
      if code == NoSuchEntity then
        var created := r.Submit(CreateRole(RoleName));
        match r.Rejection(CreateRole(RoleName))
        case Some(refused) => Run(created, Err(ClientError(refused)))
        case None =>
          var attached := AttachPolicies(created, RoleName, Policies);
          if attached.result.Err? then Run(attached.state, Err(attached.result.error))
          else Run(attached.state, Ok(RoleArn(r.account, RoleName)))
      else Run(r, Err(ClientError(code)))
  }

  /** `create_sagemaker_role`. */
  method CreateSageMakerRole(cloud: Cloud) returns (res: Result<string, Failure>)
    modifies cloud
    ensures Run(cloud.State(), res) == EnsureRoleRun(old(cloud.State()))
  {
    var found := cloud.State().GetRole(RoleName);
    if found.Ok? {
      return Ok(found.value);
    }
    if found.error != NoSuchEntity {
      return Err(ClientError(found.error));
    }
    var rejected := cloud.Execute(CreateRole(RoleName));
    if rejected.Some? {
      return Err(ClientError(rejected.value));
    }
    ghost var created := cloud.State();
    for i := 0 to |Policies|
      invariant cloud.account == created.account
      invariant AttachPolicies(cloud.State(), RoleName, Policies[i..]) == AttachPolicies(created, RoleName, Policies)
    {
      assert Policies[i..][0] == Policies[i] && Policies[i..][1..] == Policies[i + 1..];
      rejected := cloud.Execute(AttachRolePolicy(RoleName, Policies[i]));
      if rejected.Some? {
        return Err(ClientError(rejected.value));
      }
    }
    return Ok(RoleArn(cloud.account, RoleName));
  }

  /** An existing role is returned without creating it or attaching anything. */
  lemma ExistingRoleUntouched(r: Remote)
    requires RoleName in r.roles && "get_role" !in r.faults
    ensures EnsureRoleRun(r) == Run(r, Ok(r.roles[RoleName].arn))
  {
  }

  /** A missing role is created with exactly the two policies, attached in list order, and the
      new role's ARN is returned. */
  lemma NewRoleGetsPolicies(r: Remote)
    requires RoleName !in r.roles
    requires "get_role" !in r.faults && "create_role" !in r.faults && "attach_role_policy" !in r.faults
    ensures
      var run := EnsureRoleRun(r);
      run.result == Ok(RoleArn(r.account, RoleName)) &&
      run.state.trace == r.trace + [
        Issued(CreateRole(RoleName)),
        Issued(AttachRolePolicy(RoleName, Policies[0])),
        Issued(AttachRolePolicy(RoleName, Policies[1]))] &&
      run.state.roles == r.roles[RoleName := Role(RoleArn(r.account, RoleName), Policies)]
  {
    var created := r.Submit(CreateRole(RoleName));
    assert created.roles[RoleName].policies == [];
    assert Policies[0] != Policies[1];
    assert [] + Policies == Policies;
    AttachPoliciesInOrder(created, RoleName, [], Policies);
    var run := AttachPolicies(created, RoleName, Policies);
    assert run.state.trace == r.trace + [
        Issued(CreateRole(RoleName)),
        Issued(AttachRolePolicy(RoleName, Policies[0])),
        Issued(AttachRolePolicy(RoleName, Policies[1]))];
    assert run.state.roles == r.roles[RoleName := Role(RoleArn(r.account, RoleName), Policies)] by {
      assert run.state.roles.Keys == r.roles.Keys + {RoleName};
      assert run.state.roles[RoleName] == Role(RoleArn(r.account, RoleName), Policies);
    }
  }

  /** Any other code from `get_role` escapes without a create. */
  lemma RoleErrorReraised(r: Remote, code: ErrorCode)
    requires r.Fault("get_role") == Some(code) && code != NoSuchEntity
    ensures EnsureRoleRun(r) == Run(r, Err(ClientError(code)))
  {
  }

  /** The command-line switches `--skip-build` and `--skip-deploy`. */
  datatype Options = Options(skipBuild: bool, skipDeploy: bool)

  /** What the machine running the driver contributes: whether the credential and docker checks
      pass, the digest the registry gives the pushed build (none when a login, build or push
      command fails), and the clock and oracles the child scripts see. */
  datatype Host = Host(
    credentials: bool,
    dockerRunning: bool,
    pushedDigest: Option<string>,
    epochSeconds: nat,
    now: DateTime,
    lingering: seq<bool>,
    drain: seq<bool>,
    settle: seq<bool>)

  /** Where a run stopped. */
  datatype Step =
    | Prerequisites
    | RepositorySetup
    | RoleSetup
    | Build
    | DigestLookup
    | ModelCreation
    | EndpointUpdate
    | Verification

  datatype Deployment = Deployment(state: Remote, failedAt: Option<Step>)

  /** The process exit status: 1 for any failure, 0 otherwise. */
  function ExitCode(d: Deployment): (code: int)
    ensures code == 0 <==> d.failedAt.None?
    ensures code == 0 || code == 1
  {
    if d.failedAt.None? then 0 else 1
  }

  /** The arguments the driver passes to the model script. */
  function PersonalArgs(digest: string): ModelLifecycle.Args {
    ModelLifecycle.Args(ModelLifecycle.Personal, Some(digest), None, None)
  }

  /** Step 3: read the digest of `latest`, then run the model, endpoint and verification scripts,
      each of which fails the driver when it exits non-zero. */
  function DeployStep(r: Remote, host: Host): (d: Deployment)
    requires host.now.Valid()
    ensures d.failedAt.None? || d.failedAt.value in {DigestLookup, ModelCreation, EndpointUpdate, Verification}
    ensures d.state.account == r.account && d.state.images == r.images &&
      d.state.repositories == r.repositories && d.state.roles == r.roles
  {
    match r.DescribeImages(Repository, "latest")
    case Err(_) => Deployment(r, Some(DigestLookup))
    case Ok(details) =>
      if details == [] then Deployment(r, Some(DigestLookup))
      else
        var digest := details[0];
        var created := ModelLifecycle.EnsureModelRun(r, PersonalArgs(digest), host.epochSeconds, host.lingering);
        if created.result.Err? then Deployment(created.state, Some(ModelCreation))
        else
          var rolled := EndpointRollout.RolloutRun(created.state, EndpointRollout.Personal, host.now, host.drain, host.settle);
          if rolled.result.Err? then Deployment(rolled.state, Some(EndpointUpdate))
          else if VerifyDeployment.ExitStatus(rolled.state, Endpoint, Repository, Some(digest)) != 0
          then Deployment(rolled.state, Some(Verification))
          else Deployment(rolled.state, None)
  }

  /** The push that a build step ends with. */
  function Push(host: Host): Command
    requires host.pushedDigest.Some?
  {
    PushImage(Repository, "latest", host.pushedDigest.value)
  }

  /** Steps 1 and 2 of `main`, after the prerequisite checks: the repository and the role, then
      the build and push unless `--skip-build`. */
  function SetupRun(r: Remote, opts: Options, host: Host): (d: Deployment)
    ensures d.failedAt.None? || d.failedAt.value in {Prerequisites, RepositorySetup, RoleSetup, Build}
    ensures d.state.models == r.models && d.state.configs == r.configs && d.state.endpoints == r.endpoints
    ensures d.state.account == r.account
    ensures host.credentials && host.dockerRunning ==>
      d.failedAt != Some(Prerequisites) &&
      (d.failedAt.None? ==> Repository in d.state.repositories && RoleName in d.state.roles)
    ensures opts.skipBuild ==> d.state.images == r.images
    ensures !opts.skipBuild && d.failedAt.None? ==>
      host.pushedDigest.Some? && Repository in d.state.repositories &&
      (Repository, "latest") in d.state.images && d.state.images[(Repository, "latest")] == [host.pushedDigest.value]
  {
    if !host.credentials || !host.dockerRunning then Deployment(r, Some(Prerequisites))
    else
      var repo := EnsureRepositoryRun(r, Repository);
      if repo.result.Err? then Deployment(repo.state, Some(RepositorySetup))
      else
        var role := EnsureRoleRun(repo.state);
        if role.result.Err? then Deployment(role.state, Some(RoleSetup))
        else if opts.skipBuild then Deployment(role.state, None)
        else if host.pushedDigest.None? then Deployment(role.state, Some(Build))
        else if role.state.Rejection(Push(host)).Some? then Deployment(role.state.Submit(Push(host)), Some(Build))
        else Deployment(role.state.Submit(Push(host)), None)
  }

  /** The driver `main`, from the prerequisite checks to the verification. */
  function DeployRun(r: Remote, opts: Options, host: Host): (d: Deployment)
    requires host.now.Valid()
    ensures !host.credentials || !host.dockerRunning ==> d == Deployment(r, Some(Prerequisites))
    ensures opts.skipDeploy || (d.failedAt.Some? && d.failedAt.value in {Prerequisites, RepositorySetup, RoleSetup, Build}) ==>
      d.state.models == r.models && d.state.configs == r.configs && d.state.endpoints == r.endpoints
    ensures d.state.account == r.account
  {
    var setup := SetupRun(r, opts, host);
    if setup.failedAt.Some? || opts.skipDeploy then setup else DeployStep(setup.state, host)
  }

  /** The driver script `local_deploy.py`; the result is its exit status. */
  method DeployLocally(cloud: Cloud, opts: Options, host: Host) returns (exitStatus: int)
    requires host.now.Valid()
    modifies cloud
    ensures cloud.State() == DeployRun(old(cloud.State()), opts, host).state
    ensures exitStatus == ExitCode(DeployRun(old(cloud.State()), opts, host))
  {
    if !host.credentials || !host.dockerRunning {
      return 1;
    }
    var repo := CreateEcrRepository(cloud, Repository);
    if repo.Err? {
      return 1;
    }
    var role := CreateSageMakerRole(cloud);
    if role.Err? {
      return 1;
    }
    if !opts.skipBuild {
      if host.pushedDigest.None? {
        return 1;
      }
      var rejected := cloud.Execute(Push(host));
      if rejected.Some? {
        return 1;
      }
    }
    if opts.skipDeploy {
      return 0;
    }
    exitStatus := DeployStepLocally(cloud, host);
  }

  method DeployStepLocally(cloud: Cloud, host: Host) returns (exitStatus: int)
    requires host.now.Valid()
    modifies cloud
    ensures cloud.State() == DeployStep(old(cloud.State()), host).state
    ensures exitStatus == ExitCode(DeployStep(old(cloud.State()), host))
  {
    var details := cloud.State().DescribeImages(Repository, "latest");
    if details.Err? || details.value == [] {
      return 1;
    }
    var digest := details.value[0];
    var created := ModelLifecycle.EnsureModel(cloud, PersonalArgs(digest), host.epochSeconds, host.lingering);
    if created.Err? {
      return 1;
    }
    var rolled := EndpointRollout.Rollout(cloud, EndpointRollout.Personal, host.now, host.drain, host.settle);
    if rolled.Err? {
      return 1;
    }
    var verified := VerifyDeployment.Verify(cloud, Endpoint, Repository, Some(digest));
    exitStatus := if verified != 0 then 1 else 0;
  }

  /** With the prerequisites met, the repository and role setup always runs, and any run that
      gets past it ends with both present. */
  lemma SetupAlwaysRuns(r: Remote, opts: Options, host: Host)
    requires host.now.Valid() && host.credentials && host.dockerRunning
    ensures
      var d := DeployRun(r, opts, host);
      d.failedAt != Some(Prerequisites) &&
      (d.failedAt != Some(RepositorySetup) && d.failedAt != Some(RoleSetup) ==>
        Repository in d.state.repositories && RoleName in d.state.roles)
  {
    var setup := SetupRun(r, opts, host);
    if setup.failedAt.None? && !opts.skipDeploy {
      assert DeployRun(r, opts, host) == DeployStep(setup.state, host);
    } else {
      assert DeployRun(r, opts, host) == setup;
    }
  }

  /** The digest step 3 reads from `latest` is the one it hands on: the model script is run with
      it, so a created model is pinned to it, and the verification checks the endpoint against it. */
  lemma DeployStepHandsOnDigest(r: Remote, host: Host)
    requires host.now.Valid()
    requires r.DescribeImages(Repository, "latest").Ok? && r.DescribeImages(Repository, "latest").value != []
    ensures
      var digest := r.DescribeImages(Repository, "latest").value[0];
      var args := PersonalArgs(digest);
      var created := ModelLifecycle.EnsureModelRun(r, args, host.epochSeconds, host.lingering);
      (DeployStep(r, host).failedAt == Some(ModelCreation) <==> created.result.Err?) &&
      (digest != "" && created.result.Ok? ==>
        ModelLifecycle.ModelName(args) in created.state.models &&
        created.state.models[ModelLifecycle.ModelName(args)].image ==
          ModelLifecycle.DigestUrl(ModelLifecycle.Registry(ModelLifecycle.Personal, r.account), ModelLifecycle.RepositoryName(args), digest))
    ensures
      var digest := r.DescribeImages(Repository, "latest").value[0];
      var created := ModelLifecycle.EnsureModelRun(r, PersonalArgs(digest), host.epochSeconds, host.lingering);
      var rolled := EndpointRollout.RolloutRun(created.state, EndpointRollout.Personal, host.now, host.drain, host.settle);
      created.result.Ok? && rolled.result.Ok? ==>
        DeployStep(r, host).state == rolled.state &&
        (DeployStep(r, host).failedAt == Some(Verification) <==>
          VerifyDeployment.ExitStatus(rolled.state, Endpoint, Repository, Some(digest)) != 0)
  {
    var digest := r.DescribeImages(Repository, "latest").value[0];
    var args := PersonalArgs(digest);
    var created := ModelLifecycle.EnsureModelRun(r, args, host.epochSeconds, host.lingering);
    if digest != "" && created.result.Ok? {
      assert ModelLifecycle.ImageFor(r, args).value ==
        ModelLifecycle.DigestUrl(ModelLifecycle.Registry(ModelLifecycle.Personal, r.account), ModelLifecycle.RepositoryName(args), digest);
    }
  }

  /** Under `--skip-build` the registry's images are left as they were. */
  lemma SkipBuildPushesNothing(r: Remote, opts: Options, host: Host)
    requires host.now.Valid() && opts.skipBuild
    ensures DeployRun(r, opts, host).state.images == r.images
  {
    var setup := SetupRun(r, opts, host);
    if setup.failedAt.None? && !opts.skipDeploy {
    }
  }

  /** Under `--skip-deploy` no model, configuration or endpoint changes, and a run that gets
      through setup and build exits 0. */
  lemma SkipDeployTouchesNoHosting(r: Remote, opts: Options, host: Host)
    requires host.now.Valid() && opts.skipDeploy
    ensures
      var d := DeployRun(r, opts, host);
      d.state.models == r.models && d.state.configs == r.configs && d.state.endpoints == r.endpoints
    ensures
      var d := DeployRun(r, opts, host);
      d.failedAt.None? || d.failedAt.value in {Prerequisites, RepositorySetup, RoleSetup, Build}
  {
    assert DeployRun(r, opts, host) == SetupRun(r, opts, host);
  }

  /** The model script and the endpoint script disagree on the personal model: the driver has
      the model script replace `soc2MlImageAnalyzerPersonal` built from the repository
      `soc2-ml-image-analyzer-personal`, while the endpoint serves `defenderImageAnalyzerPersonal`
      and the driver pushes to and verifies against `defender-image-analyzer-personal`. The
      model script leaves the served model as it was. */
  lemma CreatedModelIsNotServed(r: Remote, digest: string, epochSeconds: nat, lingering: seq<bool>)
    ensures EndpointRollout.NamesFor(EndpointRollout.Personal) == EndpointRollout.Names(ServedModel, Endpoint)
    ensures ModelLifecycle.ModelName(PersonalArgs(digest)) != ServedModel
    ensures ModelLifecycle.RepositoryName(PersonalArgs(digest)) != Repository
    ensures
      var after := ModelLifecycle.EnsureModelRun(r, PersonalArgs(digest), epochSeconds, lingering).state;
      (ServedModel in after.models <==> ServedModel in r.models) &&
      (ServedModel in r.models ==> after.models[ServedModel] == r.models[ServedModel])
  {
    assert ModelLifecycle.ModelName(PersonalArgs(digest))[0] == 's';
    assert ModelLifecycle.RepositoryName(PersonalArgs(digest))[0] == 's';
    ModelLifecycle.OnlyOwnModelChanges(r, PersonalArgs(digest), epochSeconds, lingering);
    var after := ModelLifecycle.EnsureModelRun(r, PersonalArgs(digest), epochSeconds, lingering).state;
    var own := ModelLifecycle.ModelName(PersonalArgs(digest));
    assert ServedModel in after.models <==> ServedModel in after.models - {own};
    assert ServedModel in r.models <==> ServedModel in r.models - {own};
    if ServedModel in r.models {
      assert (after.models - {own})[ServedModel] == (r.models - {own})[ServedModel];
    }
  }

  /** A deploy step that exits 0 read a digest for `latest`, and leaves the endpoint running
      exactly that digest, which the registry still reports for `latest`. The served model is
      left as it was, and its image, resolved against the registry, pins that digest: either it
      was pinned to it already, or it names a tag that now points at it. */
  lemma SuccessfulDeployStep(r: Remote, host: Host)
    requires host.now.Valid() && DeployStep(r, host).failedAt.None?
    ensures r.DescribeImages(Repository, "latest").Ok? && r.DescribeImages(Repository, "latest").value != []
    ensures
      var digest := r.DescribeImages(Repository, "latest").value[0];
      var after := DeployStep(r, host).state;
      VerifyDeployment.LatestDigest(after, Repository) == Ok(digest) &&
      VerifyDeployment.DeployedDigest(after, Endpoint) == Ok(digest) &&
      ServedModel in r.models && ServedModel in after.models && after.models[ServedModel] == r.models[ServedModel] &&
      IsDigestReference(after.Resolve(r.models[ServedModel].image)) &&
      DigestOf(after.Resolve(r.models[ServedModel].image)) == digest
  {
    var digest := r.DescribeImages(Repository, "latest").value[0];
    var created := ModelLifecycle.EnsureModelRun(r, PersonalArgs(digest), host.epochSeconds, host.lingering);
    CreatedModelIsNotServed(r, digest, host.epochSeconds, host.lingering);
    ModelLifecycle.OnlyOwnModelChanges(r, PersonalArgs(digest), host.epochSeconds, host.lingering);
    var rolled := EndpointRollout.RolloutRun(created.state, EndpointRollout.Personal, host.now, host.drain, host.settle);
    assert created.result.Ok? && rolled.result.Ok?;
    assert DeployStep(r, host) == Deployment(rolled.state, None);
    EndpointRollout.CompletedRolloutServesModel(created.state, EndpointRollout.Personal, host.now, host.drain, host.settle);
    assert VerifyDeployment.ExitStatus(rolled.state, Endpoint, Repository, Some(digest)) == 0;
    assert VerifyDeployment.LatestDigest(rolled.state, Repository) == Ok(digest);
    assert created.state.models[ServedModel] == r.models[ServedModel];
    assert rolled.state.Resolve(r.models[ServedModel].image) == created.state.Resolve(r.models[ServedModel].image);
  }

  /** A build-and-deploy run that exits 0 leaves the endpoint running the pushed digest, the
      digest the registry reports for `latest`. The served model is not replaced by the run; its
      image, resolved against the registry after the push, pins the pushed digest. */
  lemma SuccessfulDeployment(r: Remote, opts: Options, host: Host)
    requires host.now.Valid() && !opts.skipBuild && !opts.skipDeploy
    requires ExitCode(DeployRun(r, opts, host)) == 0
    ensures host.pushedDigest.Some?
    ensures
      var after := DeployRun(r, opts, host).state;
      VerifyDeployment.LatestDigest(after, Repository) == Ok(host.pushedDigest.value) &&
      VerifyDeployment.DeployedDigest(after, Endpoint) == Ok(host.pushedDigest.value)
    ensures
      var after := DeployRun(r, opts, host).state;
      ServedModel in r.models && ServedModel in after.models && after.models[ServedModel] == r.models[ServedModel] &&
      IsDigestReference(after.Resolve(r.models[ServedModel].image)) &&
      DigestOf(after.Resolve(r.models[ServedModel].image)) == host.pushedDigest.value
  {
    var setup := SetupRun(r, opts, host);
    assert setup.failedAt.None?;
    assert DeployRun(r, opts, host) == DeployStep(setup.state, host);
    SuccessfulDeployStep(setup.state, host);
  }

  /** Once `latest` names only `digest`, a reference to it resolves to that digest. */
  lemma LatestFollowsPush(r: Remote, built: Remote, digest: string)
    requires '@' !in r.account && built.account == r.account
    requires (Repository, "latest") in built.images && built.images[(Repository, "latest")] == [digest]
    requires '@' !in digest && StartsWith(digest, "sha256:")
    ensures
      var image := built.Resolve(r.TagReference(Repository, "latest"));
      image == r.RegistryHost() + "/" + Repository + "@" + digest &&
      IsDigestReference(image) && DigestOf(image) == digest
  {
    assert r.TagReference(Repository, "latest") == built.TagReference(Repository, "latest");
    assert '@' !in Repository && ':' !in Repository && '@' !in "latest" && ':' !in "latest";
    PushedTagResolves(built, Repository, "latest", digest);
  }

  /** A served model bound to the tag `latest` of the repository follows the push: once the
      build has pushed a `sha256:` digest, the model's image resolves to that digest. */
  lemma TaggedServedModelFollowsPush(r: Remote, opts: Options, host: Host)
    requires !opts.skipBuild && SetupRun(r, opts, host).failedAt.None?
    requires '@' !in r.account
    requires ServedModel in r.models && r.models[ServedModel].image == r.TagReference(Repository, "latest")
    ensures host.pushedDigest.Some?
    ensures
      var built := SetupRun(r, opts, host).state;
      '@' !in host.pushedDigest.value && StartsWith(host.pushedDigest.value, "sha256:") ==>
        built.models[ServedModel] == r.models[ServedModel] &&
        built.Resolve(r.models[ServedModel].image) == r.RegistryHost() + "/" + Repository + "@" + host.pushedDigest.value &&
        IsDigestReference(built.Resolve(r.models[ServedModel].image)) &&
        DigestOf(built.Resolve(r.models[ServedModel].image)) == host.pushedDigest.value
  {
    var built := SetupRun(r, opts, host).state;
    var digest := host.pushedDigest.value;
    assert built.account == r.account && built.images[(Repository, "latest")] == [digest];
    if '@' !in digest && StartsWith(digest, "sha256:") {
      LatestFollowsPush(r, built, digest);
    }
  }
}

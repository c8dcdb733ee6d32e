/** The remote services the scripts drive (the container registry, the model-hosting service and
    the identity service), reduced to the maps they hold and the error codes they answer with.

    `Remote` is the service as a value: every mutating call is a `Command`, which the service
    either rejects with an error code (`Rejection`) or applies (`Apply`); either way the command
    is appended to `trace`, the record of what the scripts issued. Read-only calls (describe,
    get) are functions of the state and leave no entry. Failures that do not follow from the
    state (throttling, missing permissions, or any code a test wants to force) come from
    `faults`, a map from the boto3 operation name to the code every call of that operation
    receives. `Cloud` is the mutable handle the scripts hold. */
module ControlPlane {
  import opened Common
  import opened Text

  /** The `Error.Code` of a botocore `ClientError`. */
  datatype ErrorCode =
    | ValidationException
    | RepositoryNotFoundException
    | RepositoryAlreadyExistsException
    | ImageNotFoundException
    | NoSuchEntity
    | EntityAlreadyExists
    | OtherCode(name: string)

  datatype EndpointStatus =
    | OutOfService | Creating | Updating | SystemUpdating | RollingBack | InService | Deleting | Failed
  {
    /** Statuses in which the hosting service refuses a new command on the endpoint. */
    predicate InTransition() {
      Creating? || Updating? || SystemUpdating? || RollingBack? || Deleting?
    }

    /** Statuses in which the hosting service refuses `update_endpoint`: a transition, or a
        failed endpoint, which only accepts deletion. */
    predicate RefusesUpdate() {
      InTransition() || Failed?
    }
  }

  /** A hosted model: its primary container's image and environment, and its execution role. */
  datatype ContainerModel = ContainerModel(image: string, environment: map<string, string>, executionRole: string)

  /** An endpoint configuration's single production variant. */
  datatype Variant = Variant(model: string, instanceType: string, instanceCount: nat, variantName: string)

  /** An endpoint: its status, its current configuration and the images it resolved and runs. */
  datatype Endpoint = Endpoint(status: EndpointStatus, config: string, deployedImages: seq<string>)

  datatype Role = Role(arn: string, policies: seq<string>)

  datatype Command =
    | DeleteModel(model: string)
    | CreateModel(model: string, spec: ContainerModel)
    | CreateEndpointConfig(config: string, variant: Variant)
    | UpdateEndpoint(endpoint: string, config: string)
    | CreateEndpoint(endpoint: string, config: string)
    | CreateRepository(repo: string)
    | CreateRole(role: string)
    | AttachRolePolicy(role: string, policy: string)
    | PushImage(repo: string, tag: string, digest: string)

  /** One entry of the record of a run: a command issued, or an `endpoint_in_service` wait. */
  datatype Call =
    | Issued(command: Command)
    | Waited(endpoint: string, attempts: nat, inService: bool)

  /** What escapes a script and ends it with a traceback. */
  datatype Failure =
    | ClientError(code: ErrorCode)   // a botocore ClientError the script re-raises or never catches
    | WaiterError(endpoint: string)  // the endpoint_in_service waiter gave up
    | NoImageWithLatestTag           // the plain Exception raised when no image carries `latest`
    | DeletionTimedOut               // the plain Exception raised when the deleted model lingers
    | IndexError                     // Python's IndexError on an empty response list

  /** The state a script leaves behind and how it ended. */
  datatype Run<+T> = Run(state: Remote, result: Result<T, Failure>)

  /** The `MaxAttempts` every waiter in the scripts is configured with. */
  const MaxWaiterAttempts: nat := 120

  function RoleArn(account: string, role: string): string {
    "arn:aws:iam::" + account + ":role/" + role
  }

  /** The boto3 operation name under which `faults` can force an error on `c`. */
  function OperationName(c: Command): string {
    match c
    case DeleteModel(_) => "delete_model"
    case CreateModel(_, _) => "create_model"
    case CreateEndpointConfig(_, _) => "create_endpoint_config"
    case UpdateEndpoint(_, _) => "update_endpoint"
    case CreateEndpoint(_, _) => "create_endpoint"
    case CreateRepository(_) => "create_repository"
    case CreateRole(_) => "create_role"
    case AttachRolePolicy(_, _) => "attach_role_policy"
    case PushImage(_, _, _) => "docker_push"
  }

  function AttachPolicy(role: Role, policy: string): Role {
    if policy in role.policies then role else role.(policies := role.policies + [policy])
  }

  /** The first waiter attempt, from `k` on, that observes the endpoint in service
      (`ready[i]`), or `MaxWaiterAttempts` when none of the remaining attempts does. */
  function FirstReady(ready: seq<bool>, k: nat): (i: nat)
    requires k <= MaxWaiterAttempts
    ensures k <= i <= MaxWaiterAttempts
    ensures i < MaxWaiterAttempts ==> i < |ready| && ready[i]
    ensures forall j :: k <= j < i && j < |ready| ==> !ready[j]
    decreases MaxWaiterAttempts - k
  {
    if k == MaxWaiterAttempts then k
    else if k < |ready| && ready[k] then k
    else FirstReady(ready, k + 1)
  }

  /** Every waiter recorded in `calls` stopped within `MaxWaiterAttempts` attempts. */
  predicate WaitsBounded(calls: seq<Call>) {
    forall i :: 0 <= i < |calls| && calls[i].Waited? ==> calls[i].attempts <= MaxWaiterAttempts
  }

  datatype Remote = Remote(
    account: string,
    models: map<string, ContainerModel>,
    configs: map<string, Variant>,
    endpoints: map<string, Endpoint>,
    images: map<(string, string), seq<string>>,
    repositories: set<string>,
    roles: map<string, Role>,
    faults: map<string, ErrorCode>,
    trace: seq<Call>)
  {
    function Fault(operation: string): Option<ErrorCode> {
      if operation in faults then Some(faults[operation]) else None
    }

    /** The error code the service answers `c` with, if it refuses it. */
    function Rejection(c: Command): Option<ErrorCode> {
      if OperationName(c) in faults then Some(faults[OperationName(c)])
      else match c
        case DeleteModel(m) => if m in models then None else Some(ValidationException)
        case CreateModel(m, _) => if m in models then Some(ValidationException) else None
        case CreateEndpointConfig(n, _) => if n in configs then Some(ValidationException) else None
        case UpdateEndpoint(e, cfg) =>
          if e !in endpoints || cfg !in configs || endpoints[e].status.RefusesUpdate()
          then Some(ValidationException) else None
        case CreateEndpoint(e, cfg) =>
          if e in endpoints || cfg !in configs then Some(ValidationException) else None
        case CreateRepository(repo) =>
          if repo in repositories then Some(RepositoryAlreadyExistsException) else None
        case CreateRole(n) => if n in roles then Some(EntityAlreadyExists) else None
        case AttachRolePolicy(n, _) => if n in roles then None else Some(NoSuchEntity)
        case PushImage(repo, _, _) => if repo in repositories then None else Some(RepositoryNotFoundException)
    }

    /** The effect of an accepted command. */
    function Apply(c: Command): (r: Remote)
      requires Rejection(c).None?
      ensures r.account == account && r.faults == faults && r.trace == trace
    {
      match c
      case DeleteModel(m) => this.(models := models - {m})
      case CreateModel(m, spec) => this.(models := models[m := spec])
      case CreateEndpointConfig(n, v) => this.(configs := configs[n := v])
      case UpdateEndpoint(e, cfg) =>
        this.(endpoints := endpoints[e := endpoints[e].(status := Updating, config := cfg)])
      case CreateEndpoint(e, cfg) => this.(endpoints := endpoints[e := Endpoint(Creating, cfg, [])])
      case CreateRepository(repo) => this.(repositories := repositories + {repo})
      case CreateRole(n) => this.(roles := roles[n := Role(RoleArn(account, n), [])])
      case AttachRolePolicy(n, p) => this.(roles := roles[n := AttachPolicy(roles[n], p)])
      case PushImage(repo, tag, d) => this.(images := images[(repo, tag) := [d]])
    }

    /** Issue `c`: the service applies it unless it rejects it, and the call is recorded. */
    function Submit(c: Command): (r: Remote)
      ensures r.account == account && r.faults == faults
      ensures r.trace == trace + [Issued(c)]
    {
      var next := if Rejection(c).None? then Apply(c) else this;
      next.(trace := trace + [Issued(c)])
    }

    /** `describe_images` for one tag: the digests of the images carrying it. */
    function DescribeImages(repo: string, tag: string): Result<seq<string>, ErrorCode> {
      if "describe_images" in faults then Err(faults["describe_images"])
      else if repo !in repositories then Err(RepositoryNotFoundException)
      else if (repo, tag) !in images then Err(ImageNotFoundException)
      else Ok(images[(repo, tag)])
    }

    /** `describe_repositories` for one repository: `None` when it exists. */
    function DescribeRepository(repo: string): Option<ErrorCode> {
      if "describe_repositories" in faults then Some(faults["describe_repositories"])
      else if repo in repositories then None
      else Some(RepositoryNotFoundException)
    }

    /** `get_role`: the role's ARN. */
    function GetRole(name: string): Result<string, ErrorCode> {
      if "get_role" in faults then Err(faults["get_role"])
      else if name in roles then Ok(roles[name].arn)
      else Err(NoSuchEntity)
    }

    function DescribeModel(name: string): Result<ContainerModel, ErrorCode> {
      if "describe_model" in faults then Err(faults["describe_model"])
      else if name in models then Ok(models[name])
      else Err(ValidationException)
    }

    /** `describe_model` used only to learn whether the model is still reported: `None` when it
        is. `lingering` is the eventual-consistency oracle: a deleted model may still be reported
        for a while after `delete_model` returned. */
    function ProbeModel(name: string, lingering: bool): Option<ErrorCode> {
      if "describe_model" in faults then Some(faults["describe_model"])
      else if name in models || lingering then None
      else Some(ValidationException)
    }

    function DescribeEndpoint(name: string): Result<Endpoint, ErrorCode> {
      if "describe_endpoint" in faults then Err(faults["describe_endpoint"])
      else if name in endpoints then Ok(endpoints[name])
      else Err(ValidationException)
    }

    /** The host of this account's container registry. */
    function RegistryHost(): string {
      account + ".dkr.ecr.us-east-1.amazonaws.com"
    }

    /** The reference to `repo:tag` in the account's registry. */
    function TagReference(repo: string, tag: string): (image: string)
      ensures StartsWith(image, RegistryHost() + "/")
    {
      RegistryHost() + "/" + repo + ":" + tag
    }

    /** The image the hosting service pulls for the reference `image`, as `ResolvedImage`
        reports it: a digest-pinned reference as it is; a reference `host/repo:tag` into this
        account's registry, whose tag names an image, pinned to that image's digest; any other
        reference as written. */
    function Resolve(image: string): (resolved: string)
      ensures IsDigestReference(image) ==> resolved == image
    {
      var prefix := RegistryHost() + "/";
      if IsDigestReference(image) || !StartsWith(image, prefix) then image
      else
        var parts := Split(image[|prefix|..], ':');
        if |parts| == 2 && (parts[0], parts[1]) in images && images[(parts[0], parts[1])] != []
        then prefix + parts[0] + "@" + images[(parts[0], parts[1])][0]
        else image
    }

    /** The images an endpoint runs once it has rolled onto configuration `config`. */
    function ServedImages(config: string): seq<string> {
      if config in configs && configs[config].model in models
      then [Resolve(models[configs[config].model].image)] else []
    }

    /** Whether an `endpoint_in_service` waiter on `endpoint` succeeds, given the oracle `ready`
        of what each attempt observes. */
    predicate WaitSucceeds(endpoint: string, ready: seq<bool>) {
      endpoint in endpoints && FirstReady(ready, 0) < MaxWaiterAttempts
    }

    /** How many attempts that waiter makes: a missing endpoint fails the first attempt. */
    function WaitAttempts(endpoint: string, ready: seq<bool>): nat {
      if endpoint !in endpoints then 1
      else if FirstReady(ready, 0) < MaxWaiterAttempts then FirstReady(ready, 0) + 1
      else MaxWaiterAttempts
    }

    /** The state after the waiter: on success the endpoint has finished its transition and
        runs the image of its configuration's model. */
    function AfterWait(endpoint: string, ready: seq<bool>): (r: Remote)
      ensures r.account == account && r.faults == faults
      ensures r.trace == trace + [Waited(endpoint, WaitAttempts(endpoint, ready), WaitSucceeds(endpoint, ready))]
    {
      var settled :=
        if WaitSucceeds(endpoint, ready)
        then
          var ep := endpoints[endpoint];
          this.(endpoints := endpoints[endpoint := Endpoint(InService, ep.config, ServedImages(ep.config))])
        else this;
      settled.(trace := trace + [Waited(endpoint, WaitAttempts(endpoint, ready), WaitSucceeds(endpoint, ready))])
    }
  }

  /** A tag reference into the account's registry is pinned to the digest its tag currently
      names, so an endpoint rolled onto a model bound to `repo:tag` runs the image last pushed
      under that tag. */
  lemma ResolveTagReference(r: Remote, repo: string, tag: string)
    requires '@' !in r.account && '@' !in repo && '@' !in tag && ':' !in repo && ':' !in tag
    requires (repo, tag) in r.images && r.images[(repo, tag)] != []
    ensures '@' !in r.RegistryHost() + "/" + repo
    ensures r.Resolve(r.TagReference(repo, tag)) == r.RegistryHost() + "/" + repo + "@" + r.images[(repo, tag)][0]
  {
    var prefix := r.RegistryHost() + "/";
    var image := r.TagReference(repo, tag);
    assert '@' !in prefix by {
      assert prefix == r.account + ".dkr.ecr.us-east-1.amazonaws.com/";
    }
    assert image == prefix + repo + ":" + tag;
    TagReferenceIsNotDigest(image);
    assert StartsWith(image, prefix) && image[|prefix|..] == repo + [':'] + tag;
    SplitJoin([repo, tag], ':');
    assert Join([repo, tag], ':') == repo + [':'] + tag;
  }

  /** A tag whose last push left the single `sha256:` digest `digest` resolves to a digest
      reference naming that digest. */
  lemma PushedTagResolves(r: Remote, repo: string, tag: string, digest: string)
    requires '@' !in r.account && '@' !in repo && '@' !in tag && ':' !in repo && ':' !in tag
    requires (repo, tag) in r.images && r.images[(repo, tag)] == [digest]
    requires '@' !in digest && StartsWith(digest, "sha256:")
    ensures r.Resolve(r.TagReference(repo, tag)) == r.RegistryHost() + "/" + repo + "@" + digest
    ensures IsDigestReference(r.Resolve(r.TagReference(repo, tag)))
    ensures DigestOf(r.Resolve(r.TagReference(repo, tag))) == digest
  {
    ResolveTagReference(r, repo, tag);
    DigestReferenceOf(r.RegistryHost() + "/" + repo, digest);
  }

  /** Recording a command keeps every recorded waiter within its bound. */
  lemma SubmitKeepsWaitsBounded(r: Remote, c: Command)
    requires WaitsBounded(r.trace)
    ensures WaitsBounded(r.Submit(c).trace)
  {
    assert r.Submit(c).trace[|r.trace|] == Issued(c);
  }

  /** A waiter stops within `MaxWaiterAttempts` attempts, so recording it keeps the bound. */
  lemma AfterWaitKeepsWaitsBounded(r: Remote, endpoint: string, ready: seq<bool>)
    requires WaitsBounded(r.trace)
    ensures WaitsBounded(r.AfterWait(endpoint, ready).trace)
  {
    assert r.WaitAttempts(endpoint, ready) <= MaxWaiterAttempts;
  }

  /** The handle the scripts hold on the remote services (their boto3 clients). */
  class Cloud {
    const account: string
    var models: map<string, ContainerModel>
    var configs: map<string, Variant>
    var endpoints: map<string, Endpoint>
    var images: map<(string, string), seq<string>>
    var repositories: set<string>
    var roles: map<string, Role>
    var faults: map<string, ErrorCode>
    var trace: seq<Call>

    function State(): Remote
      reads this
    {
      Remote(account, models, configs, endpoints, images, repositories, roles, faults, trace)
    }

    constructor (initial: Remote)
      ensures State() == initial
    {
      account := initial.account;
      models, configs, endpoints := initial.models, initial.configs, initial.endpoints;
      images, repositories, roles := initial.images, initial.repositories, initial.roles;
      faults, trace := initial.faults, initial.trace;
    }

    method Load(next: Remote)
      requires next.account == account
      modifies this
      ensures State() == next
    {
      models, configs, endpoints := next.models, next.configs, next.endpoints;
      images, repositories, roles := next.images, next.repositories, next.roles;
      faults, trace := next.faults, next.trace;
    }

    /** Issue one mutating call; the answer is the error code of the `ClientError` it raises. */
    method Execute(c: Command) returns (rejected: Option<ErrorCode>)
      modifies this
      ensures rejected == old(State()).Rejection(c)
      ensures State() == old(State()).Submit(c)
    {
      rejected := State().Rejection(c);
      Load(State().Submit(c));
    }

    /** boto3's `endpoint_in_service` waiter with `MaxAttempts` 120: it polls until an attempt
        observes the endpoint in service, and gives up after the last attempt. */
    method WaitInService(endpoint: string, ready: seq<bool>) returns (inService: bool)
      modifies this
      ensures inService == old(State()).WaitSucceeds(endpoint, ready)
      ensures State() == old(State()).AfterWait(endpoint, ready)
    {
      var attempts: nat;
      if endpoint !in endpoints {
        inService, attempts := false, 1;
      } else {
        var attempt := 0;
        inService := false;
        while attempt < MaxWaiterAttempts && !inService
          invariant attempt <= MaxWaiterAttempts
          invariant !inService ==> FirstReady(ready, 0) == FirstReady(ready, attempt)
          invariant inService ==> 1 <= attempt && FirstReady(ready, 0) == attempt - 1
        {
          inService := attempt < |ready| && ready[attempt];
          attempt := attempt + 1;
        }
        attempts := if inService then attempt else MaxWaiterAttempts;
      }
      var s := State();
      var settled := s;
      if inService {
        var ep := endpoints[endpoint];
        settled := s.(endpoints := endpoints[endpoint := Endpoint(InService, ep.config, s.ServedImages(ep.config))]);
      }
      Load(settled.(trace := trace + [Waited(endpoint, attempts, inService)]));
    }
  }
}

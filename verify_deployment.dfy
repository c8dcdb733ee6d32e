/** The drift check: does the endpoint run the image the registry currently tags `latest`
    (and, when one is supplied, the digest the caller expects)? */
module VerifyDeployment {
  import opened Common
  import opened Text
  import opened ControlPlane

  /** Why a lookup failed. Each is an `Exception` the lookup raises; `Verify` turns every one
      of them into exit status 1. */
  datatype LookupError =
    | RegistryError(code: ErrorCode)        // a ClientError from describe_images, rethrown
    | NoLatestImage                         // describe_images listed no image
    | EndpointError(code: ErrorCode)        // a ClientError from describe_endpoint, rethrown
    | NotInService(status: EndpointStatus)
    | NoDeployedImages
    | NotDigestReference(image: string)

  /** `get_ecr_latest_digest`: the digest of the first image listed for the tag `latest`. */
  function LatestDigest(r: Remote, repo: string): (res: Result<string, LookupError>)
    ensures res.Ok? <==>
      "describe_images" !in r.faults && repo in r.repositories &&
      (repo, "latest") in r.images && r.images[(repo, "latest")] != []
    ensures res.Ok? ==> res.value == r.images[(repo, "latest")][0]
    ensures "describe_images" in r.faults ==> res == Err(RegistryError(r.faults["describe_images"]))
  {
    match r.DescribeImages(repo, "latest")
    case Err(code) => Err(RegistryError(code))
    case Ok(details) => if details != [] then Ok(details[0]) else Err(NoLatestImage)
  }

  /** `get_sagemaker_deployed_digest`: the digest of the first image the endpoint resolved,
      provided the endpoint is exactly `InService` and that image is digest-pinned. */
  function DeployedDigest(r: Remote, endpoint: string): (res: Result<string, LookupError>)
    ensures res.Ok? <==>
      "describe_endpoint" !in r.faults && endpoint in r.endpoints &&
      r.endpoints[endpoint].status == InService &&
      r.endpoints[endpoint].deployedImages != [] &&
      IsDigestReference(r.endpoints[endpoint].deployedImages[0])
    ensures res.Ok? ==> res.value == DigestOf(r.endpoints[endpoint].deployedImages[0])
    ensures "describe_endpoint" !in r.faults && endpoint in r.endpoints &&
            r.endpoints[endpoint].status != InService
            ==> res == Err(NotInService(r.endpoints[endpoint].status))
  {
    match r.DescribeEndpoint(endpoint)
    case Err(code) => Err(EndpointError(code))
    case Ok(ep) =>
      if ep.status != InService then Err(NotInService(ep.status))
      else if ep.deployedImages == [] then Err(NoDeployedImages)
      else
        var resolved := ep.deployedImages[0];
        if IsDigestReference(resolved) then Ok(DigestOf(resolved))
        else Err(NotDigestReference(resolved))
  }

  /** The exit status `main` computes once both digests are known. */
  function ExitCode(registryDigest: string, deployedDigest: string, expected: Option<string>): (code: int)
    ensures code == 0 || code == 1
    ensures code == 0 <==>
      registryDigest == deployedDigest && (Given(expected) ==> deployedDigest == expected.value)
  {
    var code := if registryDigest == deployedDigest then 0 else 1;
    if Given(expected) && deployedDigest != expected.value then 1 else code
  }

  /** The exit status of the whole check: any lookup error exits with 1. */
  function ExitStatus(r: Remote, endpoint: string, repo: string, expected: Option<string>): (code: int)
    ensures code == 0 || code == 1
    ensures code == 0 <==>
      LatestDigest(r, repo).Ok? && DeployedDigest(r, endpoint).Ok? &&
      LatestDigest(r, repo).value == DeployedDigest(r, endpoint).value &&
      (Given(expected) ==> DeployedDigest(r, endpoint).value == expected.value)
  {
    match LatestDigest(r, repo)
    case Err(_) => 1
    case Ok(registryDigest) =>
      match DeployedDigest(r, endpoint)
      case Err(_) => 1
      case Ok(deployedDigest) => ExitCode(registryDigest, deployedDigest, expected)
  }

  /** `main`: look both digests up, compare them, then apply the optional expected digest,
      overwriting the exit status as the script does. */
  method Verify(cloud: Cloud, endpoint: string, repo: string, expected: Option<string>) returns (exitCode: int)
    ensures exitCode == ExitStatus(cloud.State(), endpoint, repo, expected)
  {
    var registry := LatestDigest(cloud.State(), repo);
    if registry.Err? {
      return 1;
    }
    var deployed := DeployedDigest(cloud.State(), endpoint);
    if deployed.Err? {
      return 1;
    }
    var registryDigest, deployedDigest := registry.value, deployed.value;
    if registryDigest == deployedDigest {
      exitCode := 0;
    } else {
      exitCode := 1;
    }
    if Given(expected) {
      if deployedDigest != expected.value {
        exitCode := 1;
      }
    }
  }

  /** Supplying an expected digest can turn a success into a failure, never the reverse. */
  lemma ExpectedDigestOnlyLowers(registryDigest: string, deployedDigest: string, expected: Option<string>)
    ensures ExitCode(registryDigest, deployedDigest, None) <= ExitCode(registryDigest, deployedDigest, expected)
  {
  }

  /** An endpoint in service on `location@digest`, with the registry tagging that same digest
      `latest`, passes the check, with or without `digest` as the expected digest. */
  lemma PinnedDeploymentVerifies(r: Remote, endpoint: string, repo: string, location: string, digest: string)
    requires "describe_images" !in r.faults && "describe_endpoint" !in r.faults
    requires repo in r.repositories && (repo, "latest") in r.images
    requires |r.images[(repo, "latest")]| > 0 && r.images[(repo, "latest")][0] == digest
    requires endpoint in r.endpoints && r.endpoints[endpoint].status == InService
    requires |r.endpoints[endpoint].deployedImages| > 0
    requires r.endpoints[endpoint].deployedImages[0] == location + "@" + digest
    requires '@' !in location && '@' !in digest && StartsWith(digest, "sha256:")
    ensures ExitStatus(r, endpoint, repo, None) == 0
    ensures ExitStatus(r, endpoint, repo, Some(digest)) == 0
  {
    DigestReferenceOf(location, digest);
  }

  /** A tag-bound deployment never passes: its digest cannot be established. */
  lemma TagDeploymentFails(r: Remote, endpoint: string, repo: string, expected: Option<string>)
    requires endpoint in r.endpoints && |r.endpoints[endpoint].deployedImages| > 0
    requires '@' !in r.endpoints[endpoint].deployedImages[0]
    ensures DeployedDigest(r, endpoint).Err?
    ensures ExitStatus(r, endpoint, repo, expected) == 1
  {
    TagReferenceIsNotDigest(r.endpoints[endpoint].deployedImages[0]);
  }

  /** Drift: when the registry's `latest` and the running image differ, the check fails. */
  lemma DriftFails(r: Remote, endpoint: string, repo: string, expected: Option<string>)
    requires LatestDigest(r, repo).Ok? && DeployedDigest(r, endpoint).Ok?
    requires LatestDigest(r, repo).value != DeployedDigest(r, endpoint).value
    ensures ExitStatus(r, endpoint, repo, expected) == 1
  {
  }
}

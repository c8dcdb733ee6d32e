# Deployment scripts of the Defender image analyzer, modelled in Dafny

This project models the deployment tooling of the Defender image analyzer. The analyzer is a
SageMaker-hosted image classification model whose container image lives in an ECR repository.
The model covers five scripts:

- `model/create_fixed.py` replaces the hosted model. It resolves the model name, the repository
  and the execution role, and pins the image by content digest. It force-deletes any model of
  the same name and polls until the service stops reporting it. It then creates the model and
  reads it back to compare digests.
- `model/update_endpoint_c5i_fixed.py` rolls an endpoint onto a fresh, second-stamped
  configuration. It waits out a transition in progress, updates the endpoint (or creates it
  when the service says it does not exist), waits for it to be in service, and reads back the
  image it runs.
- `model/update_endpoint_c5i.py` is the older rollout. It uses a minute-stamped configuration,
  tries update-or-create, and waits for nothing.
- `verify_deployment.py` is the drift check. It compares the digest the registry tags `latest`
  with the digest the endpoint runs, and optionally with an expected digest, and turns the
  result into an exit status.
- `scripts/local_deploy.py` is the personal-environment driver. It gets or creates the
  repository and the execution role. It builds and pushes the image unless `--skip-build` is
  given. Unless `--skip-deploy` is given, it then runs the model, endpoint and verification
  scripts with the digest it just pushed.

How the model is built:

- The AWS services are one value, `ControlPlane.Remote`. It holds models, endpoint
  configurations, endpoints, tagged images, repositories, roles, injected error codes per
  operation (`faults`) and a record of the calls made (`trace`).
- Every mutating boto3 call is a `Command`. `Remote.Rejection` gives the `ClientError` code the
  service answers it with, if any. `Remote.Submit` applies an accepted command and records the
  call either way.
- The scripts hold their clients as a `ControlPlane.Cloud` object. Its methods update its
  fields in place.
- Each script is a pure function from the remote state to a `Run` (final state and result).
  An imperative method on `Cloud` follows the script's own control flow and is proved equal to
  that function. The properties are lemmas about the functions.
- Eventual consistency and waiting are oracles passed in as sequences of booleans:
  - `lingering`: whether re-check `k` after a delete still sees the model;
  - `drain` and `settle`: whether attempt `k` of an `endpoint_in_service` waiter sees the
    endpoint in service.
- The hosting service reports the image an endpoint runs as `ResolvedImage`. `Remote.Resolve`
  gives it: a reference pinned by digest stays as it is, and a `repo:tag` reference into the
  account's registry is pinned to the digest its tag names at the moment the endpoint settles.
- The clock is a `DateTime` (or seconds since the epoch) passed in.
- The driver's shell steps (credential check, docker check, login, build, push) are a `Host`
  value: two booleans and the digest the registry assigns to the pushed image, if any.

The model script and the endpoint script disagree about the personal environment. The driver
pushes to `defender-image-analyzer-personal`, and the endpoint serves
`defenderImageAnalyzerPersonal`. But the model script, called with only `--env personal` and
`--image-digest`, replaces `soc2MlImageAnalyzerPersonal`, whose image comes from
`soc2-ml-image-analyzer-personal`. The model keeps this behaviour as written.
`LocalDeploy.CreatedModelIsNotServed` states it. `LocalDeploy.SuccessfulDeployment` shows its
consequence: in a run that exits 0, the endpoint runs the pushed digest only because the served
model's image, which the run leaves alone, resolves to it. `LocalDeploy.TaggedServedModelFollowsPush`
shows when that happens: a served model bound to the repository's `latest` tag follows each
push.

## Model

| member | source | states |
|---|---|---|
| VerifyDeployment.LatestDigest | verify_deployment.py:12-24 | succeeds exactly when `describe_images` answers with a non-empty listing for `latest`, and then gives the first digest; a registry error code is reported as such |
| VerifyDeployment.DeployedDigest | verify_deployment.py:26-46 | succeeds exactly when the endpoint is `InService`, has a deployed image, and that image contains `@sha256:`; the digest is the text after `@`; any other status is reported |
| VerifyDeployment.ExitCode | verify_deployment.py:78-97 | 0 exactly when the two digests match and, if a non-empty expected digest is given, the deployed one equals it; 1 otherwise |
| VerifyDeployment.ExitStatus | verify_deployment.py:65-103 | 0 exactly when both lookups succeed, their digests agree, and the expected digest (if given) matches; every lookup error exits 1 |
| VerifyDeployment.Verify | verify_deployment.py:48-103 | the script's step-by-step status, which overwrites the status on an expected-digest mismatch, equals `ExitStatus` |
| VerifyDeployment.ExpectedDigestOnlyLowers | verify_deployment.py:90-97 | supplying an expected digest can turn a pass into a failure, never the reverse |
| VerifyDeployment.PinnedDeploymentVerifies | verify_deployment.py:65-99 | an in-service endpoint running `location@digest`, with the registry tagging the same digest `latest`, passes with and without that expected digest |
| VerifyDeployment.TagDeploymentFails | verify_deployment.py:40-43 | an endpoint running a reference without `@` never passes |
| VerifyDeployment.DriftFails | verify_deployment.py:79-88 | different registry and deployed digests always exit 1 |
| ControlPlane.ResolveTagReference | model/update_endpoint_c5i_fixed.py:131 | a `repo:tag` reference into the account's registry resolves to `repo@digest`, with the digest the tag currently names |
| ControlPlane.PushedTagResolves | verify_deployment.py:37-41 | a tag whose last push left a single `sha256:` digest resolves to a digest-pinned reference naming that digest |
| Text.DigestReferenceOf | verify_deployment.py:40-41 | `location@digest` with a `sha256:` digest is digest-pinned, and splitting on `@` gives the digest back |
| Text.TagReferenceIsNotDigest | model/create_fixed.py:195-196 | a reference without `@` is never treated as digest-pinned |
| Text.Decimal | model/create_fixed.py:158 | `str(n)` is a non-empty string of digits denoting `n`, with no leading zero |
| Text.SecondsStampInjective | model/update_endpoint_c5i_fixed.py:29 | two clock readings with the same `%Y%m%d-%H%M%S` stamp are the same reading |
| Text.MinutesStampIgnoresSeconds | model/update_endpoint_c5i.py:18 | readings in the same minute have the same `%Y%m%d-%H%M` stamp |
| ControlPlane.FirstReady | model/update_endpoint_c5i_fixed.py:95-102 | the first waiter attempt that sees the endpoint in service, and no earlier one does; or 120 when none of the 120 does |
| ControlPlane.Cloud.WaitInService | model/update_endpoint_c5i_fixed.py:95-102 | the polling loop succeeds exactly when one of the first 120 attempts sees the endpoint in service; it records the attempts made and settles the endpoint onto its configuration's image, resolved against the registry |
| ControlPlane.AfterWaitKeepsWaitsBounded | model/update_endpoint_c5i_fixed.py:98-101 | a waiter stops within `MaxAttempts` 120, so recording it keeps every recorded waiter bounded |
| ModelLifecycle.FirstExistingRole | model/create_fixed.py:51-59 | a found role is the ARN of one of the candidates; an error escapes only when it is not `NoSuchEntity` and is the service's `get_role` error |
| ModelLifecycle.SearchRoles | model/create_fixed.py:51-59 | the `for`/`break` loop over the candidates returns exactly `FirstExistingRole` |
| ModelLifecycle.FirstExistingRoleIsFirst | model/create_fixed.py:43-59 | when `get_role` answers normally, the search yields the first candidate that exists (all earlier ones are missing), and none exactly when no candidate exists |
| ModelLifecycle.ExecutionRole | model/create_fixed.py:33-63 | dev, stage and prod use their configured role; otherwise the role is the default name or one of the candidates in the caller's account |
| ModelLifecycle.ExecutionRoleResolves | model/create_fixed.py:43-63 | unless `get_role` fails, a role is always settled on: the first candidate that exists, or the default when no candidate exists |
| ModelLifecycle.ModelName | model/create_fixed.py:73-81 | an explicit `--model-name` wins; otherwise the name is the environment's `soc2MlImageAnalyzer…` default |
| ModelLifecycle.RepositoryName | model/create_fixed.py:83-91 | an explicit `--repository-name` wins; otherwise the name is the environment's `soc2-ml-image-analyzer…` default |
| ModelLifecycle.DefaultNamesDistinct | model/create_fixed.py:73-91 | the personal defaults differ from the soc2 and shared defaults, for both the model and the repository |
| ModelLifecycle.ImageUrl | model/create_fixed.py:93-114 | a supplied digest is pinned; otherwise the first `latest` digest is pinned, a registry error falls back to the `:latest` tag, and only an empty listing raises |
| ModelLifecycle.PollDeletion | model/create_fixed.py:128-144 | success means a re-check saw `ValidationException` after every earlier re-check still saw the model; a timeout happens exactly when all ten re-checks still see it; other codes escape |
| ModelLifecycle.PollTimesOutIffAlwaysReported | model/create_fixed.py:128-144 | once the model is gone, the poll times out exactly when all ten re-checks still see it, and otherwise succeeds |
| ModelLifecycle.RemoveExisting | model/create_fixed.py:118-150 | the force-delete step sends nothing exactly when the probe fails: a `ValidationException` lets the run go on, any other code is raised. Otherwise it sends exactly `delete_model`; an accepted delete removes the model, and the step succeeds exactly when the poll confirms the deletion. A `ValidationException` never escapes, and a success means the model was absent, the delete answered `ValidationException`, or the model is gone |
| ModelLifecycle.RemovePrevious | model/create_fixed.py:118-150 | the probe, delete and retry loop equals `RemoveExisting` |
| ModelLifecycle.ContainerEnvironment | model/create_fixed.py:155-168 | the entry point and a refresh stamp denoting the epoch seconds are always set; the four SOC 2 keys are set for soc2 only, with log level `20`, region `us-east-1` and both flags `true` |
| ModelLifecycle.ExpectedDigest | model/create_fixed.py:190 | a URL without `@` expects `latest` |
| ModelLifecycle.ExpectedDigestOf | model/create_fixed.py:190 | a URL `location@digest` expects exactly `digest` |
| ModelLifecycle.PostCreateCheck | model/create_fixed.py:183-196 | tag reference exactly when the created image is not digest-pinned; confirmed or mismatch according to the digest after `@` and the expected digest (`latest` when the URL has no `@`) |
| ModelLifecycle.Launch | model/create_fixed.py:171-196 | sends `create_model` and changes no image, repository or role; a completed launch created a model under a free name, holds the definition sent, and reports the image it sent, checked against itself |
| ModelLifecycle.LaunchAccepted | model/create_fixed.py:171-185 | `create_model` under a free name succeeds and stores the definition |
| ModelLifecycle.EnsureModelRun | model/create_fixed.py:33-196 | a failed role or image lookup sends nothing; a run keeps the account, images, repositories and roles; a completed run reports its model name and image, and the service then hosts that model with the definition sent |
| ModelLifecycle.CreatesAbsentModel | model/create_fixed.py:118-178 | a model the service does not host is not deleted: exactly `create_model` is sent, and the new definition is in place |
| ModelLifecycle.EnsureModel | model/create_fixed.py:33-196 | the script's step-by-step run, with its role loop and deletion poll, equals `EnsureModelRun` |
| ModelLifecycle.ReplacesExistingModel | model/create_fixed.py:118-178 | an existing model is deleted then recreated: exactly `delete_model`, `create_model`, and the new definition in place |
| ModelLifecycle.LingeringModelNeverReplaced | model/create_fixed.py:128-144 | a model reported on all ten re-checks is never recreated, and the run raises the timeout |
| ModelLifecycle.ProbeErrorAborts | model/create_fixed.py:146-150 | a `describe_model` error other than `ValidationException` aborts before anything is sent |
| ModelLifecycle.DeleteValidationErrorSkipsWait | model/create_fixed.py:119-150 | a `ValidationException` from `delete_model` skips the wait, and `delete_model` is followed directly by `create_model`; under an injected `ValidationException`, which leaves the old model in place, that create is refused |
| ModelLifecycle.ModelCommandTouchesOnlyItsModel | model/create_fixed.py:118-178 | `delete_model` and `create_model` change only the model they name |
| ModelLifecycle.OnlyOwnModelChanges | model/create_fixed.py:118-178 | a run changes no model but its own and no other kind of resource |
| ModelLifecycle.PinnedImageConfirmed | model/create_fixed.py:188-192 | an image pinned by digest reads back as confirmed with that digest |
| ModelLifecycle.CompletedRunReportsItsImage | model/create_fixed.py:171-196 | a completed run reports the model name and the image reference it resolved |
| ModelLifecycle.SuppliedDigestConfirmed | model/create_fixed.py:93-192 | with `--image-digest sha256:…`, a completed run's check confirms that digest |
| ModelLifecycle.TagImageReported | model/create_fixed.py:195-196 | a `:latest` reference reads back as a tag reference |
| ModelLifecycle.TagFallbackOnlyWarns | model/create_fixed.py:110-114 | with no digest and a registry error, the run falls back to the tag and ends with a warning rather than an error |
| EndpointRollout.NamesFor | model/update_endpoint_c5i_fixed.py:17-28 | the model and endpoint of each environment; personal serves `defenderImageAnalyzerPersonal` on `defenderImageAnalyzerPersonalC5i` |
| EndpointRollout.TestEndpointSeparate | model/update_endpoint_c5i_fixed.py:23-28 | test shares the model of dev, stage and prod but not their endpoint |
| EndpointRollout.ConfigName | model/update_endpoint_c5i_fixed.py:29-30 | the endpoint name followed by a 16-character `-%Y%m%d-%H%M%S` suffix |
| EndpointRollout.ConfigNamesDistinct | model/update_endpoint_c5i_fixed.py:29-30 | runs at different seconds never reuse a configuration name |
| EndpointRollout.Settle | model/update_endpoint_c5i_fixed.py:93-102 | the wait succeeds exactly when the waiter does; the endpoint is then in service on its configuration's image, and a failure is the waiter error |
| EndpointRollout.CreateFresh | model/update_endpoint_c5i_fixed.py:105-124 | sends `create_endpoint` first and touches only endpoints; on success the endpoint is in service on the new configuration |
| EndpointRollout.Converge | model/update_endpoint_c5i_fixed.py:65-127 | touches only endpoints; on success the endpoint is in service on the new configuration, running its model's image |
| EndpointRollout.FinalCheck | model/update_endpoint_c5i_fixed.py:129-138 | succeeds exactly when the endpoint is described with a deployed image; reports that image and its digest exactly when it is digest-pinned |
| EndpointRollout.RolloutRun | model/update_endpoint_c5i_fixed.py:34-138 | only appends to the call record, and leaves the account, models, images, repositories and roles as they were |
| EndpointRollout.CreateAndSettle | model/update_endpoint_c5i_fixed.py:108-124 | `create_endpoint` and its waiter equal `CreateFresh` |
| EndpointRollout.ConvergeEndpoint | model/update_endpoint_c5i_fixed.py:65-127 | the `try`/`except ClientError` block equals `Converge` |
| EndpointRollout.Rollout | model/update_endpoint_c5i_fixed.py:17-138 | the script equals `RolloutRun` |
| EndpointRollout.MissingModelCreatesNothing | model/update_endpoint_c5i_fixed.py:34-47 | a missing model raises before any call is sent |
| EndpointRollout.ConfigCreatedFirst | model/update_endpoint_c5i_fixed.py:49-61 | the first call of a run whose model exists creates the stamped configuration |
| EndpointRollout.BusyEndpointWaitsFirst | model/update_endpoint_c5i_fixed.py:72-83 | a `Creating` or `Updating` endpoint is waited on before the update; if that wait fails, the run raises with nothing more sent |
| EndpointRollout.UpdatesExistingEndpoint | model/update_endpoint_c5i_fixed.py:85-103 | an existing endpoint, neither in transition nor `Failed`, gets exactly config, update and wait; it succeeds exactly when the waiter does, and then serves the model's image, resolved against the registry |
| EndpointRollout.CreatesMissingEndpoint | model/update_endpoint_c5i_fixed.py:105-124 | a missing endpoint gets exactly config, create and wait; it succeeds exactly when the waiter does, and then serves the model's image, resolved against the registry |
| EndpointRollout.OtherProbeErrorReraised | model/update_endpoint_c5i_fixed.py:125-127 | another `describe_endpoint` error is raised again with only the configuration sent |
| EndpointRollout.OtherUpdateErrorReraised | model/update_endpoint_c5i_fixed.py:125-127 | another `update_endpoint` error is raised again without a create |
| EndpointRollout.UnwaitedTransitionFails | model/update_endpoint_c5i_fixed.py:72-111 | an endpoint in a transition other than `Creating` or `Updating`, or a `Failed` one, refuses the update, then the create, and the run raises with the endpoint untouched |
| EndpointRollout.RolloutWaitsBounded | model/update_endpoint_c5i_fixed.py:75-122 | every waiter a run records stops within 120 attempts |
| EndpointRollout.ConvergeWaitsBounded | model/update_endpoint_c5i_fixed.py:65-127 | every waiter in the `try` block and its handler stops within 120 attempts |
| EndpointRollout.CompletedRolloutServesModel | model/update_endpoint_c5i_fixed.py:85-138 | a completed run leaves the endpoint in service on the new configuration with the model's image, resolved against the registry, and reports that image |
| EndpointRolloutLegacy.EndpointFor | model/update_endpoint_c5i.py:17 | only test uses the `-test` endpoint |
| EndpointRolloutLegacy.ConfigName | model/update_endpoint_c5i.py:18-19 | the endpoint name followed by a 14-character `-%Y%m%d-%H%M` suffix |
| EndpointRolloutLegacy.CreateRun | model/update_endpoint_c5i.py:49-52 | sends `create_endpoint` and succeeds exactly when it is accepted |
| EndpointRolloutLegacy.UpdateOrCreate | model/update_endpoint_c5i.py:33-56 | only appends to the call record and leaves models, configurations and images alone; on success the endpoint is `Creating` or `Updating` on the new configuration |
| EndpointRolloutLegacy.UpdateOrCreateCalls | model/update_endpoint_c5i.py:33-52 | at most two endpoint calls: an update only after a successful describe, and a create only after a `ValidationException` |
| EndpointRolloutLegacy.LegacyRolloutRun | model/update_endpoint_c5i.py:16-56 | only appends to the call record and leaves models and images alone; a completed run created this minute's configuration and left the endpoint `Creating` or `Updating` on it, waiting for nothing |
| EndpointRolloutLegacy.LegacyRollout | model/update_endpoint_c5i.py:16-56 | the script equals `LegacyRolloutRun` |
| EndpointRolloutLegacy.ConfigFirst | model/update_endpoint_c5i.py:23-31 | every run first sends `create_endpoint_config` for this minute's name |
| EndpointRolloutLegacy.EndpointCallsFollowDescribe | model/update_endpoint_c5i.py:33-52 | at most two endpoint calls: an update only after a successful describe, and a create only after a `ValidationException` |
| EndpointRolloutLegacy.OtherErrorReraised | model/update_endpoint_c5i.py:53-56 | another `describe_endpoint` error is raised again with no endpoint call |
| EndpointRolloutLegacy.NoWaiting | model/update_endpoint_c5i.py:33-56 | no waiter is ever recorded; an accepted update leaves the endpoint `Updating` on the new configuration |
| EndpointRolloutLegacy.SameMinuteCollides | model/update_endpoint_c5i.py:18-31 | two runs in the same minute name the same configuration; the second is refused before touching the endpoint |
| EndpointRolloutLegacy.UpdateOrCreateKeepsConfigs | model/update_endpoint_c5i.py:33-56 | the endpoint calls leave the configurations alone |
| LocalDeploy.EnsureRepositoryRun | scripts/local_deploy.py:49-60 | sends nothing or exactly `create_repository`; on success the repository exists |
| LocalDeploy.CreateEcrRepository | scripts/local_deploy.py:49-60 | `create_ecr_repository` equals `EnsureRepositoryRun` |
| LocalDeploy.EnsureRepositoryIdempotent | scripts/local_deploy.py:49-60 | an existing repository is left alone, a missing one is created, and a second call sends nothing |
| LocalDeploy.RepositoryErrorReraised | scripts/local_deploy.py:59-60 | another `describe_repositories` error escapes without a create |
| LocalDeploy.AttachPolicies | scripts/local_deploy.py:99-103 | the attach loop only appends calls, changes only role policies, and creates or removes no role |
| LocalDeploy.AttachPoliciesInOrder | scripts/local_deploy.py:94-103 | distinct policies are attached one call each, in list order, and the role ends holding exactly them |
| LocalDeploy.EnsureRoleRun | scripts/local_deploy.py:62-108 | only appends calls and changes only roles; on success the role exists |
| LocalDeploy.CreateSageMakerRole | scripts/local_deploy.py:62-108 | `create_sagemaker_role`, with its policy loop, equals `EnsureRoleRun` |
| LocalDeploy.ExistingRoleUntouched | scripts/local_deploy.py:66-69 | an existing role's ARN is returned and nothing is sent |
| LocalDeploy.NewRoleGetsPolicies | scripts/local_deploy.py:70-106 | a missing role is created with the two policies, attached in order, and its ARN is returned |
| LocalDeploy.RoleErrorReraised | scripts/local_deploy.py:107-108 | another `get_role` error escapes without a create |
| LocalDeploy.ExitCode | scripts/local_deploy.py:208-210 | 0 exactly when no step failed, 1 otherwise |
| LocalDeploy.SetupRun | scripts/local_deploy.py:120-170 | fails only at prerequisites, setup or build, and touches no model, configuration or endpoint; past the prerequisites, a clean setup leaves repository and role present; a clean build leaves `latest` tagging the pushed digest |
| LocalDeploy.DeployRun | scripts/local_deploy.py:110-210 | missing credentials or docker stop the run at the prerequisites with nothing sent; under `--skip-deploy`, or when setup or build fails, no model, configuration or endpoint changes; the account is kept |
| LocalDeploy.DeployLocally | scripts/local_deploy.py:110-210 | `main` equals `DeployRun`, and its exit status is that run's |
| LocalDeploy.DeployStepLocally | scripts/local_deploy.py:172-199 | step 3 equals `DeployStep`, and its exit status is that step's |
| LocalDeploy.SetupAlwaysRuns | scripts/local_deploy.py:143-148 | with the prerequisites met, the run never fails there, and every run past setup ends with the repository and role present |
| LocalDeploy.DeployStep | scripts/local_deploy.py:172-199 | the deploy step fails, if at all, only at the digest lookup, the model, the endpoint or the verification; it keeps the account, creates or removes no repository or role and changes no image |
| LocalDeploy.DeployStepHandsOnDigest | scripts/local_deploy.py:176-198 | the first `latest` digest read is the one handed on: the model step fails exactly when the model script run with that digest fails, a created model is pinned to `registry/repo@digest`, and after a clean model and endpoint step the verification fails exactly when `verify_deployment.py` with that digest as the expected one exits non-zero |
| LocalDeploy.SkipBuildPushesNothing | scripts/local_deploy.py:150-170 | under `--skip-build` the images are unchanged |
| LocalDeploy.SkipDeployTouchesNoHosting | scripts/local_deploy.py:172-199 | under `--skip-deploy` no model, configuration or endpoint changes, and only a setup or build step can fail |
| LocalDeploy.CreatedModelIsNotServed | scripts/local_deploy.py:125-191 | the model the model script replaces is not the one the endpoint serves, its repository is not the one pushed to, and the served model is left unchanged |
| LocalDeploy.SuccessfulDeployStep | scripts/local_deploy.py:176-198 | a step that exits 0 read a `latest` digest; the endpoint ends running that digest, the registry still tags it, and the served model, left unchanged, has an image that resolves to a reference pinned to that digest |
| LocalDeploy.SuccessfulDeployment | scripts/local_deploy.py:150-198 | a build-and-deploy run that exits 0 ends with registry and endpoint both on the pushed digest, and the served model, left unchanged, has an image that resolves to that digest |
| LocalDeploy.LatestFollowsPush | scripts/local_deploy.py:163-169 | once `latest` names only the pushed digest, a reference to it resolves to that digest |
| LocalDeploy.TaggedServedModelFollowsPush | scripts/local_deploy.py:150-170 | a served model bound to the repository's `latest` tag resolves, after a clean build, to the pushed `sha256:` digest |

## Left out

- AWS credentials and the STS caller identity are not modelled. The account is a field of the remote state, and the credential check is a boolean of `Host`.
- The driver's shell commands (`docker info`, the two registry logins, `docker build`, `docker push`) are not modelled. The push is one command that tags the repository's `latest` with a digest, and any command failure is `Host.pushedDigest` being absent.
- The driver runs the three child scripts as processes. Here it calls their models directly, and a non-zero exit is a failed run.
- Printed output, `time.sleep` pauses and the waiter's `Delay` are not modelled, because they do not affect any state or result.
- `datetime.now()` and `time.time()` become the parameters `now` and `epochSeconds`, because the clock is an input.
- What each re-check and each waiter attempt observes comes from the oracles `lingering`, `drain` and `settle`, because eventual consistency is outside the scripts.
- The waiter gives up only after all 120 attempts. boto3's early failure on a `Failed` endpoint status is not modelled.
- An endpoint's `ProductionVariants[0].DeployedImages` is collapsed to a list of resolved images.
- `Remote.Resolve` pins only `repo:tag` references into the account's own registry in `us-east-1`. References into other registries, and any other form, are kept as written, because the scripts never deploy one.
- An operation listed in `faults` fails on every call, and one not listed never fails, because the error codes are injected per operation rather than per call. So the model cannot reach these paths of the scripts:
  - the poll re-raising an error after the first `describe_model` and the delete succeeded (model/create_fixed.py:136-141);
  - `get_role` failing after `NoSuchEntity` on an earlier candidate (model/create_fixed.py:51-59);
  - the read-back `describe_model` failing after `create_model` succeeded (model/create_fixed.py:184), and with it a `Mismatch` report (model/create_fixed.py:193-194);
  - the final `describe_endpoint` failing after a rollout that succeeded (model/update_endpoint_c5i_fixed.py:130);
  - `delete_model` answering `ValidationException` because the model vanished after the probe, after which the `create_model` succeeds (model/create_fixed.py:146-148, 171-178). In the model the delete is sent only when the probe saw the model, so that code comes only from an injected fault, which leaves the model in place; ModelLifecycle.DeleteValidationErrorSkipsWait therefore concludes that the create is refused, which holds only for injected faults.
- The two timeout settings of the fixed script's production variant are not modelled, because nothing reads them back.
- The role's trust-policy document and description are not modelled, because nothing reads them back.
- The model assumes the default region `us-east-1` and does not capture a non-default `--region` of the driver (scripts/local_deploy.py:114, 132-133, 178). Such a region splits the driver's registry and IAM calls, the push and the `latest` lookup, which go to that region, from the child scripts' calls, which always go to `us-east-1` (model/create_fixed.py:70-71, model/update_endpoint_c5i_fixed.py:15, verify_deployment.py:52).
- `model/create.py`, `image-analyzer.py` and the test scripts are not part of this model.
- ModelLifecycle.SuppliedDigestConfirmed and ModelLifecycle.TagFallbackOnlyWarns require that the registry host holds no `@`. That holds for every registry the script builds, but it is stated rather than derived from the account.

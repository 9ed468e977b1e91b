# The Clusternator, modelled in Dafny

The Clusternator provisions and tears down AWS environments. Each environment belongs to one pull request or one named
deployment of a project. An environment consists of:

- a security group;
- an EC2 instance that joins an ECS cluster;
- the cluster's task services;
- a Route53 record.

This project models the logic that decides what is created, in what order, under which name, and what happens when a
request fails. It also covers two smaller pieces: the git hooks a project installs, and the authorisation and dispatch
of commands in the REST API.

The model has one module per source file:

| module | file | what it models |
|---|---|---|
| `ResourceIdentifier` | `resource_identifier.dfy` | Typed segments to `<prefix>-type-value--type-value` and back, plus subdomain names. |
| `SecurityGroupManager` | `security_group_manager.dfy` | The provider's table of security groups as a map held in a class. Describe before create (a pull request rejects a second group; a deployment reuses its group). Describe before delete. |
| `Ec2Manager` | `ec2_manager.dfy` | The instance boot script and its credential checks. The launch parameters overlaid on the defaults. One tag request per launched instance. |
| `Encoding` | `encoding.dfy` | UTF-8 (RFC 3629) and base64 (section 4 of RFC 4648), used by the boot script. |
| `PrManager` | `pr_manager.dfy` | The ordered create and destroy chains of a pull request's environment, as a trace of requests to abstract managers. |
| `Clusternator` | `clusternator.dfy` | The update, destroy and new-app flows over ECS, also as a trace. |
| `GitHooks` | `git_hooks.dfy` | The banner block written into master hook files, the hook paths, and the hooks directory as a class over a map of files. |
| `ClusternatorApi` | `api.dfy` | The command-privilege lookup, the numeric authority rule, and the 403/500/execute responses, recorded as events. |

`Wrappers` (Option/Result), `Strings` (search, count, replace, join, split), `Constants` and `Tasks` are shared helpers.

Remote services, the file system and the HTTP response are not called. Each request is recorded in a trace (`trace`,
`calls`, `events`, or the `files` map), and its reply is an input: success, failure, or the data returned. A `Q.all` is
modelled as "both requests are sent, then the continuation runs".

Pull-request destruction swallows failures of only three kinds of request: the container deregistrations, the
instance termination and the task-service removal. A failed Route53, container listing, cluster or security-group
request stops the chain (`PrManager.DestroySequence`).

## Model

| member | source | states |
|---|---|---|
| ResourceIdentifier.GenerateRID | src/resourceIdentifier.js:44-63 | The RID is empty exactly when no segment has a whitelisted type (`{}` included). |
| ResourceIdentifier.WhitelistedMembers | src/resourceIdentifier.js:49-51 | The filter keeps a segment iff it was given and its type is one of pr, sha, time, ttl, pid, deployment. |
| ResourceIdentifier.GenerateIgnoresUnknownKey | src/resourceIdentifier.js:49-51 | Inserting a segment of unknown type anywhere never changes the RID. |
| ResourceIdentifier.AccumulateJoin | src/resourceIdentifier.js:53-56 | The reduce yields the `type-value` texts joined by `--`, plus one trailing `--`. |
| ResourceIdentifier.GenerateJoin | src/resourceIdentifier.js:53-62 | With a whitelisted segment, the RID is the prefix, a dash, and the `type-value` texts joined by `--`, with no trailing `--`. |
| ResourceIdentifier.ParseSegment | src/resourceIdentifier.js:24-33 | A piece splits at its first dash. The type holds no dash, and type + `-` + value gives back the piece. A piece without a dash gives an empty type and the whole piece as value. |
| ResourceIdentifier.Collect | src/resourceIdentifier.js:35-38 | The parsed object's keys are exactly the parsed types. |
| ResourceIdentifier.CollectLastWins | src/resourceIdentifier.js:35-38 | A later segment of the same type overwrites an earlier one: each type maps to the value of its last segment. |
| ResourceIdentifier.CollectDistinct | src/resourceIdentifier.js:35-38 | With distinct types, each type maps to its own value. |
| ResourceIdentifier.ParseRID | src/resourceIdentifier.js:15-18 | parseRID gives null exactly when the text does not start with the prefix. |
| ResourceIdentifier.RoundTrip | src/resourceIdentifier.js:15-62 | parseRID(generateRID(m)) is the whitelisted part of m, for values that are non-empty, do not start or end with a dash, and hold no `--`. |
| ResourceIdentifier.GeneratePRSubdomain | src/resourceIdentifier.js:69-74 | A TypeError exactly when the project id or the pull request is empty. Otherwise `pid-pr-<pr>`. |
| ResourceIdentifier.GenerateSubdomain | src/resourceIdentifier.js:80-85 | A TypeError exactly when the project id or the label is empty. Otherwise `pid-<label>`. |
| ResourceIdentifier.PRSubdomainIsLabelled | src/resourceIdentifier.js:69-85 | For a non-empty pull request, its subdomain is the generic subdomain with the label `pr-<pr>`, including the error for an empty project id. |
| ResourceIdentifier.PRSubdomainInjective | src/resourceIdentifier.js:69-74 | Within a project, different pull requests get different subdomains. |
| SecurityGroupManager.KeyTagsMatchOnlyTheirKey | src/aws/securityGroupManager.js:73-82 | A group tagged for one (project, pull request) or (project, deployment) key passes no other key's tag filter. |
| SecurityGroupManager.NewGroupMatchesOnlyItsKey | src/aws/securityGroupManager.js:60-89 | A newly created group passes a key's tag filter exactly when its tagging succeeded and the key is the one it was created for. |
| SecurityGroupManager.DescribeMembers | src/aws/securityGroupManager.js:20-24 | A describe lists exactly the groups in the VPC that carry the key's tags. |
| SecurityGroupManager.DescribeSorted | src/aws/securityGroupManager.js:20-24 | A describe lists each group once, in the provider's order. |
| SecurityGroupManager.DescribeAdd | src/aws/securityGroupManager.js:70 | A newly created group is appended to exactly the listings whose filter it passes. |
| SecurityGroupManager.DescribeRemove | src/aws/securityGroupManager.js:182-184 | Deleting a group removes it from every listing and changes nothing else in them. |
| SecurityGroupManager.SecurityGroupManager.DefaultInOutRules | src/aws/securityGroupManager.js:26-43 | Both rule skeletons get the group id written in place. The rules are attached when the requests succeed. The group id is returned even when they fail. |
| SecurityGroupManager.SecurityGroupManager.CreateSecurityGroup | src/aws/securityGroupManager.js:60-125 | Creates one group named by the key's RID in the VPC, with the key's description. A tagging failure rejects and leaves an untagged group. A rule failure is swallowed. |
| SecurityGroupManager.SecurityGroupManager.CreatePreservesUnique | src/aws/securityGroupManager.js:60-89 | Creating a group for a key without one keeps every key at most one group, and gives that key exactly the new group. |
| SecurityGroupManager.SecurityGroupManager.RejectIfExists | src/aws/securityGroupManager.js:45-52 | Succeeds exactly when describePr lists nothing, and fails with a conflict otherwise. A failed describe rejects. |
| SecurityGroupManager.SecurityGroupManager.CreatePr | src/aws/securityGroupManager.js:156-164 | A TypeError on a missing argument, with nothing sent. A conflict, with nothing created, when the pull request has a group. Otherwise exactly one new group, whose id is returned and which is then the only group listed for the key. |
| SecurityGroupManager.SecurityGroupManager.CreateDeployment | src/aws/securityGroupManager.js:131-149 | An upsert. An existing group's id is returned and nothing is created. Otherwise one tagged group is created. |
| SecurityGroupManager.SecurityGroupManager.Destroy | src/aws/securityGroupManager.js:171-208 | An error on a missing argument. NotFound when no group matches. Otherwise exactly the first listed group is deleted, and no other group changes. |
| SecurityGroupManager.CreateDeploymentTwice | src/aws/securityGroupManager.js:131-149 | Two createDeployment calls for one key return the same id, and together they create no group other than that one (at most one id is used). |
| SecurityGroupManager.CreatePrTwice | src/aws/securityGroupManager.js:156-164 | A second createPr for the same pull request is rejected with a conflict and creates nothing. |
| Ec2Manager.AuthSettings | lib/aws/ec2Manager.js:20-44 | Without `cfg`, a missing username, password or email throws. The auth type is `dockercfg` with `cfg` and `docker` without it. The auth data is `cfg` parsed and re-serialised, or without `cfg` the serialised document that puts the whole credential under the key `https://index.docker.io/v1/user`. A `cfg` that does not parse is a ParseError. |
| Ec2Manager.ScriptLines | lib/aws/ec2Manager.js:18-47 | Two lines without a credential (shebang, cluster line). Four with one: those two, then the auth type line, then the auth data line. |
| Ec2Manager.UserData | lib/aws/ec2Manager.js:16-57 | The push-built script, joined by newlines and base64-encoded, or the credential error. |
| Ec2Manager.TextRoundTrip | lib/aws/ec2Manager.js:55-56 | Decoding the base64 user data gives back the script text. |
| Ec2Manager.BootScriptLines | lib/aws/ec2Manager.js:16-57 | The instance decodes its user data back into exactly the two or four script lines. |
| Encoding.Utf8RoundTrip | lib/aws/ec2Manager.js:55 | `new Buffer(text)` encodes to UTF-8 bytes that decode back to the text. |
| Encoding.Utf8Ascii | lib/aws/ec2Manager.js:55 | ASCII text encodes byte for byte. |
| Encoding.Base64RoundTrip | lib/aws/ec2Manager.js:56 | `toString('base64')` is decodable back to the same bytes. |
| Encoding.Base64Alphabet | lib/aws/ec2Manager.js:56 | Base64 output uses only the alphabet and the pad character. |
| Ec2Manager.Merge | lib/aws/ec2Manager.js:135 | `R.merge`: the keys of both objects, the caller's value winning, and a default kept where the caller has none. |
| Ec2Manager.LaunchParams | lib/aws/ec2Manager.js:131-135 | The launch parameters are the defaults overlaid by the caller's object, with UserData always the generated script. |
| Ec2Manager.SingleInstanceByDefault | lib/aws/ec2Manager.js:59-62 | Unless the caller overrides them, MinCount and MaxCount are both 1. |
| Ec2Manager.TagRequest | lib/aws/ec2Manager.js:104-115 | One tag request on the launched instance's id, carrying the clusternator, pr and project tags. |
| Ec2Manager.TagRequests | lib/aws/ec2Manager.js:137-142 | One tag request per launched instance, in order. |
| Ec2Manager.Precheck | lib/aws/ec2Manager.js:121-133 | buildEc2Box throws before any remote call exactly when the config or its cluster name is missing, the credential is bad, or there is no apiConfig. |
| Ec2Manager.Ec2Manager.BuildEc2Box | lib/aws/ec2Manager.js:121-144 | A precheck failure sends nothing. Otherwise the boot script is written into the caller's apiConfig, one launch request is sent with the merged parameters, and then one tag request per instance. It fails if the launch or any tag fails. The tag requests are the corrected TagRequest, not the misspelled one (see Findings). |
| Ec2Manager.Ec2Manager.TagInstances | lib/aws/ec2Manager.js:138-142 | Sends exactly TagRequests (the corrected tag request) for the instances. Fails iff some tag request fails. |
| Ec2Manager.Ec2Manager.CheckInstanceStatuses | lib/aws/ec2Manager.js:149-159 | An empty id list throws with nothing sent. Otherwise one describe of exactly those ids, and its reply. |
| Ec2Manager.TagRequestAsWritten | lib/aws/ec2Manager.js:104-115 | The request as written reads the misspelled `InstaneId`, so for a provider-described instance it names no resource. |
| Ec2Manager.TagTargetMisspelled | lib/aws/ec2Manager.js:105 | For every launched instance, the written request has no resource, while the intended one names the instance. |
| PrManager.ClusterNameNotEmpty | src/prManager.js:87-90 | The environment name always holds the pid and pr segments, so it is never empty. |
| PrManager.RunUpTo | src/prManager.js:26-46 | A promise chain sends every stage up to and including the first failing hard stage, and none after it. It resolves iff no hard stage fails. |
| PrManager.RunAppend | src/prManager.js:91-106 | Chaining two chains: the second starts only if the first resolves. |
| PrManager.CreateSequence | src/prManager.js:20-48 | createCluster sends the group and cluster creates together. The instance follows only if neither failed, the task services only if the instance succeeded, and the record only if the task services succeeded. It resolves iff every request succeeded. |
| PrManager.CreateIsStrict | src/prManager.js:26-46 | The instance is requested only after the group and the cluster both succeeded. The chain resolves iff none of its requests failed. |
| PrManager.Ec2Sequence | src/prManager.js:61-84 | The corrected destroyEc2 (see Findings) lists the containers, deregisters each one, then terminates the instance. Only a failed listing stops it. |
| PrManager.DestroySequence | src/prManager.js:86-107 | destroy runs the record, the EC2 steps, the task services, the cluster and the group, in that order. A failed record, listing or cluster request stops the chain there. A failed group request rejects at the end. Deregistration, instance and task failures are swallowed. Its EC2 steps are the corrected destroyEc2 (see Findings). |
| PrManager.PrManager.Create | src/prManager.js:50-59 | No subnet is an error with nothing further sent. Otherwise createCluster runs with the first subnet's id. |
| PrManager.PrManager.CreateEnvironment | src/prManager.js:20-48 | The trace grows by exactly CreateSequence's requests, under the RID of {pid, pr}, and the result is that chain's outcome. |
| PrManager.PrManager.DestroyEc2 | src/prManager.js:61-84 | An empty cluster name is refused with nothing sent. Otherwise Ec2Sequence's requests are sent, and only a failed listing is reported. |
| PrManager.PrManager.DestroyEc2AsWritten | src/prManager.js:65-77 | As written, any non-empty container list rejects before any deregistration or termination. |
| PrManager.PrManager.Destroy | src/prManager.js:86-107 | The trace grows by exactly DestroySequence's requests, and the result is that chain's outcome. It calls the corrected DestroyEc2. |
| PrManager.PrManager.DestroyAsWritten | src/prManager.js:61-107 | destroy over destroyEc2 as written: with a container instance listed it sends only the record and listing requests, then rejects with the ReferenceError. The task services, the cluster and the group are never destroyed. Otherwise it behaves as Destroy. |
| Clusternator.Teardown | src/clusternator.js:73-92 | destroyApp sends a describe, then a task-set destroy with the described ARN only if the describe succeeded. Nothing else is sent (no cluster or instance deletion). The result is the destroy reply, or the first rejection. |
| Clusternator.Update | src/clusternator.js:35-64 | A missing app definition fails before any request. Otherwise describe, destroy and create are sent in that order. A rejection stops the later stages and is propagated. The result is the created services. |
| Clusternator.UpdateBeginsWithTeardown | src/clusternator.js:43-50 | An update's first requests are exactly destroyApp's, and it goes on only if destroyApp would have succeeded. |
| Clusternator.Launch | src/clusternator.js:103-128 | A missing cluster name, app definition or EC2 config throws with nothing sent. Otherwise the cluster is created as pid "ha", pr "test". The instance is created iff the cluster succeeded. A swallowed cluster failure still goes on to the task services. When the cluster and the instance succeed, all three requests are sent and the result is the task services' reply. A failed instance rejects with its reason after two requests. A rethrown cluster failure rejects with its reason after one. |
| Clusternator.LaunchTasksFollowInstance | src/clusternator.js:123-127 | The task services are requested only after the instance request, or after a cluster failure that error handling swallowed. |
| Clusternator.Clusternator.UpdateApp | src/clusternator.js:35-64 | The trace and the result are exactly Update's. |
| Clusternator.Clusternator.DestroyApp | src/clusternator.js:73-92 | The trace and the result are exactly Teardown's. |
| Clusternator.Clusternator.NewApp | src/clusternator.js:103-128 | The trace and the result are exactly Launch's. |
| GitHooks.ClusternateHook | src/api/0.1/project-fs/git-hooks.js:36-38 | The script name is the prefix, a dash, then the hook name. |
| GitHooks.ClusternateHookInjective | src/api/0.1/project-fs/git-hooks.js:36-38 | Different hooks get different script names. |
| GitHooks.ScriptIsNotAHookFile | src/api/0.1/project-fs/git-hooks.js:36-38 | No script name equals one of the three master hook file names, whatever the prefix. |
| GitHooks.HooksDir | src/api/0.1/project-fs/git-hooks.js:28-30 | The hooks directory is `<root>/.git/hooks`, or `.git/hooks` for an empty root. |
| GitHooks.Hpath | src/api/0.1/project-fs/git-hooks.js:28-30 | The path joins root, `.git`, `hooks` and the hook, skipping empty parts. |
| GitHooks.HpathInjective | src/api/0.1/project-fs/git-hooks.js:28-30 | Different hooks live at different paths. |
| GitHooks.ScriptAndHookApart | src/api/0.1/project-fs/git-hooks.js:208-213 | The master hook and the system's script are always different files. |
| GitHooks.LogChar | src/api/0.1/project-fs/git-hooks.js:96-99 | count − 1 copies of the character, where a missing count means 80 (79 characters). |
| GitHooks.Rule | src/api/0.1/project-fs/git-hooks.js:106 | The banner's rule is 79 `#` characters. |
| GitHooks.BannerLines | src/api/0.1/project-fs/git-hooks.js:105-118 | The banner splits into exactly six lines: rule, notice, removal hint, SHELL_DIR, `$DIR/<script>`, rule. |
| GitHooks.BannerShape | src/api/0.1/project-fs/git-hooks.js:105-118 | The banner starts and ends with `#` and contains no empty line. |
| GitHooks.PruneHookText | src/api/0.1/project-fs/git-hooks.js:125-127 | Only the first occurrence of the banner is cut out. Text without the banner is unchanged. |
| GitHooks.InstallHookText | src/api/0.1/project-fs/git-hooks.js:134-140 | Missing or empty text gives the banner and a newline. Otherwise the pruned text, a blank line, the banner and a newline, so the result always ends with the banner. |
| GitHooks.InstallAddsOneBanner | src/api/0.1/project-fs/git-hooks.js:134-140 | Installing adds exactly one banner to what pruning left. |
| GitHooks.InstallKeepsOneBanner | src/api/0.1/project-fs/git-hooks.js:134-140 | Text whose pruned form holds no banner ends up with exactly one. |
| GitHooks.ReinstallKeepsOneBanner | src/api/0.1/project-fs/git-hooks.js:125-140 | Installing again over an installed hook keeps exactly one banner. Pruning leaves the earlier text and its newline. |
| GitHooks.IgnoreFileNotFound | src/api/0.1/project-fs/git-hooks.js:155-161 | ENOENT becomes "no text". Every other error is kept unchanged. |
| GitHooks.SkeletonSubstitution | src/api/0.1/project-fs/git-hooks.js:72-75 | Every `$CLUSTERNATOR_PASS` in the skeleton becomes the passphrase. |
| GitHooks.HookFs.UpdateMasterExecutable | src/api/0.1/project-fs/git-hooks.js:169-176 | The master hook's new text is InstallHookText of its old text (none if missing), and its mode is 700. An unreadable file is reported and nothing changes. |
| GitHooks.HookFs.PruneMasterExecutable | src/api/0.1/project-fs/git-hooks.js:145-149 | The master hook's text is replaced by its pruned text. A read failure, missing file included, is reported and nothing changes. |
| GitHooks.HookFs.InstallExecutable | src/api/0.1/project-fs/git-hooks.js:61-65 | The script is written from the skeleton with the passphrase filled in, then made mode 700. A failure at either step is reported. |
| GitHooks.HookFs.PruneExecutable | src/api/0.1/project-fs/git-hooks.js:183-187 | The script is unlinked if possible, and the operation always succeeds. |
| GitHooks.HookFs.InstallHook | src/api/0.1/project-fs/git-hooks.js:208-213 | Both files are written as above, no other file or mode changes, and it succeeds iff both halves do. A denied master hook keeps its text and mode, and so does a script whose path is denied or whose skeleton failed to load. |
| GitHooks.HookFs.PruneHook | src/api/0.1/project-fs/git-hooks.js:195-200 | The master hook is pruned and the script removed, and no other file changes. A failed master read fails the whole and leaves the master hook as it was. A denied script is left as it was. |
| ClusternatorApi.CommandPriv | src/server/clusternator-api/api-0.1.js:31-45 | null when commandPrivileges or the namespace entry is falsy, or the command entry is undefined. Otherwise the stored entry, 0 and other falsy values included. |
| ClusternatorApi.ToNumber | src/server/clusternator-api/api-0.1.js:74 | Unary `+`: null is 0, a number is itself, and undefined, objects and functions are NaN. |
| ClusternatorApi.NullRequirementActsAsZero | src/server/clusternator-api/api-0.1.js:69-74 | Against a null requirement, only a numeric authority of at most 0 passes. |
| ClusternatorApi.NonNumericAuthorityDenied | src/server/clusternator-api/api-0.1.js:74 | An undefined, object or non-numeric authority is denied whatever is required. |
| ClusternatorApi.LowerAuthorityIsStronger | src/server/clusternator-api/api-0.1.js:74 | Whatever an authority may run, any lower authority may run too. |
| ClusternatorApi.UnlistedCommandNeedsTopAuthority | src/server/clusternator-api/api-0.1.js:40-44 | A command without a configured privilege is open only to authority at most 0. |
| ClusternatorApi.TextRequirementIsNumeric | src/server/clusternator-api/api-0.1.js:74 | A requirement written as decimal text compares like the number. |
| ClusternatorApi.AuthorizeEvents | src/server/clusternator-api/api-0.1.js:64-83 | next is called (once, and nothing else happens) iff the user record exists and the authority passes. Otherwise 403 "Not Authorized" if the record exists. A failed lookup gives 500 with its error, and a missing record gives 500 with the message of reading `authority` off it. |
| ClusternatorApi.ExecuteEvents | src/server/clusternator-api/api-0.1.js:85-109 | A falsy namespace gives 500 "Invalid Command (bad namespace)" and a non-function command gives 500 "Invalid Command (bad function)", both before anything runs. Otherwise the command runs exactly once, first, on the request body. Its output is then sent, or a rejected command gives 500 with its error. |
| ClusternatorApi.Exchange.AuthorizeCommand | src/server/clusternator-api/api-0.1.js:64-83 | The response and next receive exactly AuthorizeEvents. |
| ClusternatorApi.Exchange.ExecuteCommand | src/server/clusternator-api/api-0.1.js:85-109 | The response receives exactly ExecuteEvents. |

## Left out

- PrManager.PrManager.Destroy, PrManager.DestroySequence, PrManager.Ec2Sequence, Ec2Manager.Ec2Manager.BuildEc2Box and Ec2Manager.Ec2Manager.TagInstances compose the corrected destroyEc2 and tag request from the two Findings rows. As written, the source's destroy stops after the listing whenever a container instance is listed (PrManager.PrManager.DestroyAsWritten). Its buildEc2Box tags `undefined` (Ec2Manager.TagRequestAsWritten).
- Encoding.Utf8Encode: JavaScript strings are UTF-16, and `new Buffer(text)` turns a lone surrogate into the bytes EF BF BD. A Dafny `char` cannot hold a lone surrogate, so that replacement is not modelled.
- The AWS SDK, ECS, Route53 and subnet managers, the tag-filter builders of `./common`, `util` and the file-system module are not part of this model. Their requests are recorded and their replies are inputs.
- `Q.all` timing: both halves are modelled as sent before the continuation. When both halves fail, the model reports the first listed failure.
- Logging (`util.info`, `util.plog`, `console.log`, `logger.*`) is left out; it has no effect on results.
- JSON.parse and JSON.stringify of the docker credential are abstract functions (`Ec2Manager.Json`).
- `path.join` is modelled for plain names only: empty parts are skipped, with no `.`/`..` resolution and no duplicate-slash collapsing.
- GitHooks.SkeletonSubstitution: assumes no `$CLUSTERNATOR_PASS` starts inside a piece of the skeleton, whether wholly inside it or running on into the next placeholder. The `$` patterns that `String.replace` expands in a passphrase are not modelled.
- GitHooks.InstallKeepsOneBanner: stated only for text whose pruned form holds no banner. Text holding one banner whose removal splices two fragments into a new banner still holds a banner after pruning, and then ends up with two.
- GitHooks.LogChar: a negative count is not modelled (the count is a `nat`).
- installHooks, pruneHooks, install and remove are left out. They fan installHook/pruneHook out over the three hook names, after finding the project root and fetching the shared key from the server (I/O).
- chmodExec's default permissions are covered only through the explicit `700` its callers pass.
- Clusternator.Launch: `util.errLog` is not part of this model. Whether it rethrows is an input (`errLogRethrows`).
- ClusternatorApi.ToNumber: numbers are whole; fractions, exponents, hexadecimal, Infinity and booleans in text are not modelled. Text is trimmed of space, tab, CR and LF only.
- ClusternatorApi.Get: string indexing and inherited properties such as `toString` are not modelled; a property of a non-object reads as undefined.
- ClusternatorApi.MissingUserMessage: the TypeError text for a missing user record is the engine's wording and is a stand-in.
- A downstream `next()` that throws, and a command that throws synchronously or returns no promise, are left out.
- Route wiring in `init` (Express, passport) is left out.
- prManager calls `securityGroup.create`, `ec2mgr.create` and `ec2mgr.destroy`, and reads `.GroupId` off what the security-group manager returns. The managers shown export other names (`createPr`, `createEC2Instance`), and `createPr` returns a bare id. The model treats these as abstract requests whose reply (the group id) is an input.
- Integer widths do not matter in the modelled code. Numbers are unbounded.

## Findings

| source | as written | input that shows it | evidently intended | confidence | as-written member | corrected member |
|---|---|---|---|---|---|---|
| lib/aws/ec2Manager.js:105 | the tag request reads `instance.InstaneId` | any instance the provider returns, e.g. `{InstanceId: "i-1"}` | tag the instance by `instance.InstanceId` | not executed | Ec2Manager.TagRequestAsWritten | Ec2Manager.TagRequest |
| src/prManager.js:69 | the deregistration reads `instance.InstanceId`, and no `instance` is in scope | a cluster with one container instance, `["arn:1"]` | deregister each listed container, then terminate the instance | not executed | PrManager.PrManager.DestroyEc2AsWritten | PrManager.PrManager.DestroyEc2 |

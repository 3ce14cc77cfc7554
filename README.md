# Deploy planning core of a gulp-based Lambda deploy pipeline

This project models, in Dafny, the decision-making of the `deploy` task in
`gulpfile.babel.js`: the part that sits between the external calls (the file
scan, the doc-comment parser, S3 and Lambda). Every external call is an input:

- the scan is a sequence of `SourceFile`s, each with the tag lists of the comment blocks
  `dox.parseComments` returns for it, in order. Whatever dox returns first is the block the
  tag loop reads; the parser itself is not part of this model;
- the upload, the scan and the function listing either fail or succeed;
- Lambda answers every write with `Failed` or `Done(version)`;
- the revision git printed, the stage and the `--function` selector are parameters.

The modules follow the steps of the gulp `deploy` task:

- `Artifact` (`artifact.dfy`): the artifact name `<shortRevision>-<stage>.zip`. The first
  line break of git's output is removed with `/\r?\n|\r/`, which has no `g` flag.
- `Discovery` (`discovery.dfy`): `getHandlers`. It keeps the paths containing `/handlers/`,
  runs the tag loop over the first comment block of each kept file, and applies the
  selector (`if(argv.function)`, so an empty selector is not in force).
- `Reconciliation` (`reconcile.dfy`): new and existing handlers, split by membership of
  `functionName` in the listing.
- `Planning` (`planning.dfy`): the closures pushed onto `operations` and `aliases`, each
  represented as a value that names what it captured. A function gives the exact request
  each closure sends. A field the doc comment leaves unset prints as `undefined` in the
  template strings.
- `Deploy` (`deploy.dfy`): the promise chain upload → discovery → listing → apply batch →
  alias batch, each phase running only when the previous one succeeded. The result is a
  `Report`: every call issued, in order, and the outcome.

Each loop of the source, and the promise chain, is a method (`BuildDescriptor`, `GetHandlers`,
`Reconcile`, `PlanOperations`, `RunOperations`, `RunAliases`, `DeployTask`). Each method is proved
equal to a specification function (`Describe`, `Discover`, `Partition`,
`Operations`/`CreateAliases`, `ApplyRequests`/`FollowUps`, `AliasRequests`, `Run`). The lemmas
state the properties of those functions.

Two consequences of the code are worth stating directly:

- With a selector in force, discovery keeps every descriptor whose `name` equals it, not at
  most one.
- A handler file with a missing tag yields a descriptor with that field unset. A handler file
  with no comment block at all makes `dox.parseComments(contents)[0].tags` throw, and
  discovery ends with `NoDocComment`.

## Model

| member | source | states |
|---|---|---|
| `Artifact.StripLength` | gulpfile.babel.js:37 | `StripFirstLineBreak`, the `replace(/\r?\n|\r/, '')` call: a revision without line breaks is unchanged; otherwise the result is one or two characters shorter |
| `Artifact.StripRemovesFirstLineBreakOnly` | gulpfile.babel.js:37 | `StripFirstLineBreak`: for `p + b + q` with `p` free of line breaks and `b` the first break ("\r\n", "\n" or a lone "\r"), the result is `p + q`: only the first break goes |
| `Artifact.ZipfileNameOfGitOutput` | gulpfile.babel.js:37 | `ZipfileName`, which is `zipfileName`: for git output `rev\n` or `rev\r\n`, the artifact name is `rev-<stage>.zip` |
| `Discovery.Describe` | gulpfile.babel.js:59-70 | the descriptor keeps the file's path, and `name` always equals `functionName` |
| `Discovery.DescribeKeepsLastTag` | gulpfile.babel.js:61-70 | `name`/`functionName`, `description` and `role` each hold the unchanged text of the last tag of their kind (so a later tag overwrites an earlier one); a field is unset iff no tag of its kind exists |
| `Discovery.DescribeIgnoresUnknownTags` | gulpfile.babel.js:61-70 | removing every tag of another kind leaves the descriptor equal |
| `Discovery.BuildDescriptor` | gulpfile.babel.js:59-70 | the field-by-field tag loop yields `Describe(path, tags)` |
| `Discovery.HandlerFiles` | gulpfile.babel.js:47 | no more files come out than went in |
| `Discovery.HandlerFilesMembers` | gulpfile.babel.js:47 | a file is kept iff it is scanned and its path contains `/handlers/` |
| `Discovery.HandlerFilesAppend` | gulpfile.babel.js:47 | the filter distributes over concatenation, so it keeps scan order |
| `Discovery.Pick` | gulpfile.babel.js:72-77 | no more descriptors come out than went in |
| `Discovery.PickMembers` | gulpfile.babel.js:72-77 | a descriptor is kept iff it is among the input and the selector is not in force or equals its `name` |
| `Discovery.PickWithoutSelector` | gulpfile.babel.js:72-77 | with no selector, or an empty one, every descriptor is kept in order |
| `Discovery.PickWithSelector` | gulpfile.babel.js:73-74 | with a selector in force, every kept descriptor has that `name`, none with that name is dropped, and no match gives an empty result |
| `Discovery.CollectFound` | gulpfile.babel.js:55-80 | `Collect`, the per-file loop, with `Discover` = `Collect` after the filter: discovery succeeds iff every handler file has a comment block; it then yields one descriptor per file, built from its first block, in file order, filtered by the selector |
| `Discovery.CollectStopsAtFirstUndocumented` | gulpfile.babel.js:56-61 | `Collect`: the first handler file with no comment block ends discovery with that file's path |
| `Discovery.GetHandlers` | gulpfile.babel.js:40-84 | the filter followed by the per-file loop yields `Discover(files, selector)` |
| `Discovery.PingHandlerDiscovered` | lib/v1/handlers/ping.js:6-8 | the ping handler's tags give name and function name `v1_ping`, its description and its role; a non-handler file without comments is ignored; selecting another name gives `[]` |
| `Reconciliation.Partition` | gulpfile.babel.js:154-162 | `|added| + |updated| = |handlers|` |
| `Reconciliation.PartitionIsPermutation` | gulpfile.babel.js:154-162 | the two lists together hold exactly the handlers, with multiplicity |
| `Reconciliation.PartitionIsFilter` | gulpfile.babel.js:154-162 | `updated` is the listed handlers and `added` the unlisted ones, each in input order |
| `Reconciliation.PartitionMembers` | gulpfile.babel.js:155-159 | a handler is in `updated` iff its `functionName` is listed, and in `added` iff it is not |
| `Reconciliation.Reconcile` | gulpfile.babel.js:151-162 | the push loop yields `Partition(handlers, listing)` |
| `Planning.PlanOperations` | gulpfile.babel.js:167-229 | the planning loops yield one create operation per new handler, then one code update per existing handler, plus a `production` and a `staging` create-alias per new handler |
| `Planning.ApplyBatchShape` | gulpfile.babel.js:170-212 | `ApplyRequests` over `Operations`, with `OperationRequest` giving the request each create or code-update closure sends: the apply batch has `|added| + |updated|` requests and no alias request. Each new handler gets a create request with its names, role and description, `<name>.handler`, `nodejs`, 1536, 30, publish, and code at bucket `aws-example-builds`, key = artifact name. Each existing handler gets a publishing code update from the same key |
| `Planning.FollowUpsOfUpdates` | gulpfile.babel.js:214-226 | `FollowUps`, the `aliases.push` in each code-update callback: when every code update answers, each existing handler gets one update-alias closure on the version its own update returned |
| `Planning.AliasBatchShape` | gulpfile.babel.js:190-234 | `CreateAliases` followed by `FollowUps`: after a successful apply batch, the alias batch has `2·|added| + |updated|` entries: `production` and `staging` for the i-th new handler, then the run's stage on the returned version for the i-th existing handler |
| `Planning.RequestsFromTags` | gulpfile.babel.js:172-223 | `OperationRequest` and `AliasRequest`, with `AliasDescription` and `Interpolate` for the template strings: the create, code-update, create-alias and update-alias requests carry the last `@handler`, `@role` and `@description` texts unchanged; the create-alias request points at `$LATEST` and the update-alias request at the given version, both described as `"<description> on <stage>"` |
| `Planning.AliasDescriptionWithoutTag` | gulpfile.babel.js:197-219 | `Interpolate`: a handler without `@description` gets create-alias and update-alias requests described as `"undefined on <stage>"` |
| `Deploy.RunOperations` | gulpfile.babel.js:206-236 | `ApplyRequests`, `FollowUps` and `AllDone`: the apply batch issues every operation's request, succeeds iff each succeeds, and appends one update-alias closure per answered code update |
| `Deploy.RunAliases` | gulpfile.babel.js:237-243 | `AliasRequests` with `AllDone`: the alias batch issues every alias request and succeeds iff each succeeds |
| `Deploy.PublishPhases` | gulpfile.babel.js:146-243 | `Publish`, the chain from the listing on: listing, reconcile, apply and alias phases yield `Publish(env, key, stage, handlers)` |
| `Deploy.DeployTask` | gulpfile.babel.js:134-245 | `Run`, the whole chain from the upload on: the promise chain yields exactly the calls and outcome of `Run` |
| `Deploy.UploadGatesEverything` | gulpfile.babel.js:137-146 | the first call is always the upload to `aws-example-builds` under `<rev>-<stage>.zip`; if it fails it is the only call |
| `Deploy.EarlyFailureWritesNothing` | gulpfile.babel.js:141-150 | a failed upload, a failed scan, a handler file without a comment block or a failed listing means no Lambda write; a run ended by the upload, discovery or listing issues no Lambda write, and one ended by the upload or discovery does not list functions |
| `Deploy.AbortedPhaseByInputs` | gulpfile.babel.js:137-244 | `Run`: the run ends in the upload phase iff the upload fails; in discovery iff the upload succeeds and the scan fails or a handler file has no comment block; in the listing iff everything before succeeds and the listing fails; in the apply phase iff everything before succeeds and some request of the apply batch fails |
| `Deploy.CodeComesFromUploadedArtifact` | gulpfile.babel.js:137-212 | every create and code-update request of a run takes its code from the bucket and key the upload wrote |
| `Deploy.ApplyFailureSkipsAliasBatch` | gulpfile.babel.js:231-236 | if any create or code-update write of a run fails, the run ends in the apply phase and issues no alias request; conversely a run ended by the apply batch issued no alias request, and one of its writes failed |
| `Deploy.DeployedIffEveryCallSucceeded` | gulpfile.babel.js:137-244 | the run completes without error iff upload, scan and listing succeed, every handler file is documented, and every Lambda write it issued succeeded |
| `Deploy.WriteCountOfCompleteRun` | gulpfile.babel.js:170-234 | a run that reaches the alias phase makes `2 + 3·|added| + 2·|updated|` calls |
| `Deploy.OneNewOneExistingHandler` | gulpfile.babel.js:37-243 | a run at revision `abc` on stage `production` over the handler files `lib/handlers/a.js` (new) and `lib/handlers/b.js` (already listed), every call succeeding, uploads `abc-production.zip`, lists the functions, and then makes 5 writes with their exact parameters: create `a`, update `b`, aliases `production` and `staging` of `a`, alias `production` of `b` on the returned version; the run completes |

## Left out

- The AWS SDK calls (S3 `upload`, Lambda `listFunctions`, `createFunction`, `updateFunctionCode`, `createAlias`, `updateAlias`) are not modelled. They are foreign calls; only their request values and their success, failure or returned version appear.
- `glob`, `fs.readFileSync`, `fs.createReadStream` and `dox.parseComments` are not modelled. They are I/O and a third-party parser; the scan result and each file's tag lists are inputs.
- `listFunctions` returns at most one page and the source ignores `NextMarker`. The listing input is whatever that single call returned.
- Lambda's answer is a function of the request, so two identical requests get the same answer. Remote state is not modelled, so the idempotence of repeated code updates is not stated.
- `async.parallel` concurrency is not modelled. Each batch runs its closures one after another with "succeeds iff all succeed" semantics. In the source, the update-alias closures are pushed in completion order, and operations still in flight after a failure are not awaited; the model uses plan order and issues every operation.
- Deploy.RunOperations: pushes an update-alias closure only for a code update that answered. The source pushes one after a failed update too, a closure that would read `data.Version` of a null response. That closure never runs, because a failed apply batch ends the run.
- The `build`, `handlers` and `zip` tasks (transpiling, writing entry files, archiving) are not modelled; they are file plumbing.
- `execSync('git rev-parse --short HEAD')` and `minimist` are not modelled. The revision text, the stage and the selector are parameters. The default stage (`NODE_ENV`, else `staging`) is not modelled. The selector is a string, although `minimist` can also yield a boolean or a number.
- The final `.catch` that only logs is not modelled; the outcome is a value. The `TypeError` for a handler file without a comment block is thrown inside the scan callback and is not caught by the chain. It is modelled as the run ending in the discovery phase.
- The ping handler's body (`context.succeed` / `context.fail`) is not modelled; it only calls a foreign context object. Its doc-comment tags are used as a concrete input.

/**
 * The `deploy` task (gulpfile.babel.js, lines 134-245): a chain of phases,
 * upload → discovery → listing and reconcile → apply batch → alias batch,
 * each run only when the one before it succeeded. Every external call is
 * an input: whether the upload succeeds, what the scan finds, what the
 * listing returns, and how Lambda answers each write.
 */
module Deploy {
  import opened Wrappers
  import opened Artifact
  import opened Discovery
  import opened Reconciliation
  import opened Planning

  /** How the outside world answers the run's calls. */
  datatype Environment = Environment(
    uploadSucceeds: bool,              // the S3 upload of the artifact
    scan: Option<seq<SourceFile>>,     // the glob of lib/**/*.js; None when it errs
    listing: Option<seq<string>>,      // `listFunctions`: the listed names; None when it errs
    respond: Request -> Reply)         // every Lambda write

  /** A remote call the run issues, in issue order. */
  datatype Call = Upload(bucket: string, key: string) | ListFunctions | Write(request: Request)

  datatype Phase = UploadPhase | DiscoveryPhase | ListingPhase | ApplyPhase | AliasPhase

  /** Completion without error, or the phase whose failure ended the run. */
  datatype Outcome = Deployed | Aborted(phase: Phase)

  datatype Report = Report(calls: seq<Call>, outcome: Outcome)

  function Writes(reqs: seq<Request>): seq<Call>
  {
    seq(|reqs|, i requires 0 <= i < |reqs| => Write(reqs[i]))
  }

  /**
   * The phases after discovery found `handlers`: list, reconcile, apply, and
   * publish the aliases collected during apply.
   */
  function Publish(env: Environment, key: string, stage: string, handlers: seq<Handler>): Report
  {
    if env.listing.None? then Report([ListFunctions], Aborted(ListingPhase))
    else
      var fns := Partition(handlers, env.listing.value);
      var ops := Operations(fns);
      var applied := ApplyRequests(ops, key);
      var afterApply := [ListFunctions] + Writes(applied);
      if !AllDone(applied, env.respond) then Report(afterApply, Aborted(ApplyPhase))
      else
        var aliased := AliasRequests(CreateAliases(fns.added) + FollowUps(ops, key, stage, env.respond));
        Report(afterApply + Writes(aliased), if AllDone(aliased, env.respond) then Deployed else Aborted(AliasPhase))
  }

  /** A whole run of the deploy task for the revision git printed, the stage and the selector. */
  function Run(env: Environment, revision: string, stage: string, selector: Option<string>): Report
  {
    var uploaded := [Upload(Bucket, ZipfileName(revision, stage))];
    if !env.uploadSucceeds then Report(uploaded, Aborted(UploadPhase))
    else if env.scan.None? || Discover(env.scan.value, selector).NoDocComment? then Report(uploaded, Aborted(DiscoveryPhase))
    else
      var rest := Publish(env, ZipfileName(revision, stage), stage, Discover(env.scan.value, selector).handlers);
      Report(uploaded + rest.calls, rest.outcome)
  }

  /** `async.parallel(operations, ...)` run one operation after another, with each update-code callback. */
  method RunOperations(operations: seq<Operation>, key: string, stage: string, aliases: seq<AliasOp>, respond: Request -> Reply)
    returns (issued: seq<Request>, ok: bool, aliasesAfter: seq<AliasOp>)
    ensures issued == ApplyRequests(operations, key)
    ensures ok == AllDone(issued, respond)
    ensures aliasesAfter == aliases + FollowUps(operations, key, stage, respond)
  {
    issued, ok, aliasesAfter := [], true, aliases;
    for i := 0 to |operations|
      invariant issued == ApplyRequests(operations[..i], key)
      invariant ok == AllDone(issued, respond)
      invariant aliasesAfter == aliases + FollowUps(operations[..i], key, stage, respond)
    {
      var op := operations[i];
      var request := OperationRequest(op, key);
      var reply := respond(request);
      AllDoneAppend(issued, request, respond);
      issued := issued + [request];
      assert operations[..i + 1][..i] == operations[..i];
      if reply.Failed? {
        ok := false;
      } else if op.UpdateCodeOp? {
        aliasesAfter := aliasesAfter + [UpdateAliasOp(op.fn, stage, reply.version)];
      }
    }
    assert operations[..|operations|] == operations;
  }

  /** `async.parallel(aliases, ...)` run one alias closure after another. */
  method RunAliases(aliases: seq<AliasOp>, respond: Request -> Reply) returns (issued: seq<Request>, ok: bool)
    ensures issued == AliasRequests(aliases)
    ensures ok == AllDone(issued, respond)
  {
    issued, ok := [], true;
    for i := 0 to |aliases|
      invariant issued == AliasRequests(aliases[..i])
      invariant ok == AllDone(issued, respond)
    {
      var request := AliasRequest(aliases[i]);
      AllDoneAppend(issued, request, respond);
      issued := issued + [request];
      if respond(request).Failed? {
        ok := false;
      }
    }
    assert aliases[..|aliases|] == aliases;
  }

  /** The promise chain of the deploy task, phase by phase. */
  method DeployTask(env: Environment, revision: string, stage: string, selector: Option<string>)
    returns (calls: seq<Call>, outcome: Outcome)
    ensures Report(calls, outcome) == Run(env, revision, stage, selector)
  {
    var key := ZipfileName(revision, stage);
    calls := [Upload(Bucket, key)];
    if !env.uploadSucceeds {
      return calls, Aborted(UploadPhase);
    }
    if env.scan.None? {
      return calls, Aborted(DiscoveryPhase);
    }
    var found := GetHandlers(env.scan.value, selector);
    if found.NoDocComment? {
      return calls, Aborted(DiscoveryPhase);
    }
    var published;
    published, outcome := PublishPhases(env, key, stage, found.handlers);
    calls := calls + published;
  }

  /** The listing, apply and alias phases, once discovery found `handlers`. */
  method PublishPhases(env: Environment, key: string, stage: string, handlers: seq<Handler>)
    returns (calls: seq<Call>, outcome: Outcome)
    ensures Report(calls, outcome) == Publish(env, key, stage, handlers)
  {
    calls := [ListFunctions];
    if env.listing.None? {
      return calls, Aborted(ListingPhase);
    }
    var functions := Reconcile(handlers, env.listing.value);
    var operations, aliases := PlanOperations(functions);
    var issued, applied, allAliases := RunOperations(operations, key, stage, aliases, env.respond);
    calls := calls + Writes(issued);
    if !applied {
      return calls, Aborted(ApplyPhase);
    }
    var aliasIssued, aliased := RunAliases(allAliases, env.respond);
    calls := calls + Writes(aliasIssued);
    outcome := if aliased then Deployed else Aborted(AliasPhase);
  }

  /** Lambda writes among the calls. */
  predicate WriteAt(calls: seq<Call>, i: int)
  {
    0 <= i < |calls| && calls[i].Write?
  }

  /**
   * The upload of `<rev>-<stage>.zip` to the artifact bucket is always the
   * first call, and when it fails it is the only one: no listing, create,
   * update or alias request follows.
   */
  lemma UploadGatesEverything(env: Environment, revision: string, stage: string, selector: Option<string>)
    ensures var r := Run(env, revision, stage, selector);
      |r.calls| >= 1 && r.calls[0] == Upload(Bucket, ZipfileName(revision, stage))
    ensures !env.uploadSucceeds ==>
      Run(env, revision, stage, selector) == Report([Upload(Bucket, ZipfileName(revision, stage))], Aborted(UploadPhase))
  {
  }

  /**
   * A run that fails before the apply phase writes nothing to Lambda, and one
   * that fails in the upload or discovery does not even list the functions.
   * Stated both for the outcome and for the inputs that cause it: a failed
   * upload, scan or listing, or a handler file without a comment block.
   */
  lemma EarlyFailureWritesNothing(env: Environment, revision: string, stage: string, selector: Option<string>)
    ensures var r := Run(env, revision, stage, selector);
      r.outcome in {Aborted(UploadPhase), Aborted(DiscoveryPhase), Aborted(ListingPhase)} ==>
        forall i :: 0 <= i < |r.calls| ==> !r.calls[i].Write?
    ensures var r := Run(env, revision, stage, selector);
      r.outcome in {Aborted(UploadPhase), Aborted(DiscoveryPhase)} ==> r.calls == [r.calls[0]]
    ensures var r := Run(env, revision, stage, selector);
      (!env.uploadSucceeds || env.scan.None? || Discover(env.scan.value, selector).NoDocComment? || env.listing.None?) ==>
        forall i :: 0 <= i < |r.calls| ==> !r.calls[i].Write?
  {
  }

  /**
   * Which inputs end a run in which phase: the upload failing; the scan
   * failing or a handler file without a comment block; the listing failing;
   * some request of the apply batch failing. `DeployedIffEveryCallSucceeded`
   * gives the remaining outcomes.
   */
  lemma AbortedPhaseByInputs(env: Environment, revision: string, stage: string, selector: Option<string>)
    ensures var r := Run(env, revision, stage, selector);
      r.outcome == Aborted(UploadPhase) <==> !env.uploadSucceeds
    ensures var r := Run(env, revision, stage, selector);
      r.outcome == Aborted(DiscoveryPhase) <==>
        env.uploadSucceeds && (env.scan.None? || Discover(env.scan.value, selector).NoDocComment?)
    ensures var r := Run(env, revision, stage, selector);
      r.outcome == Aborted(ListingPhase) <==>
        env.uploadSucceeds && env.scan.Some? && Discover(env.scan.value, selector).Found? && env.listing.None?
    ensures var r := Run(env, revision, stage, selector);
      r.outcome == Aborted(ApplyPhase) <==>
        && env.uploadSucceeds && env.scan.Some? && Discover(env.scan.value, selector).Found? && env.listing.Some?
        && !AllDone(ApplyRequests(Operations(Partition(Discover(env.scan.value, selector).handlers, env.listing.value)),
                                  ZipfileName(revision, stage)), env.respond)
  {
  }

  lemma WritesAt(reqs: seq<Request>, i: int)
    requires 0 <= i < |reqs|
    ensures Writes(reqs)[i] == Write(reqs[i])
  {
  }

  /** The code of a create or code-update request is at `key` in the artifact bucket. */
  predicate CodeAt(req: Request, key: string)
  {
    && (req.CreateFunction? ==> req.code == S3Location(Bucket, key))
    && (req.UpdateFunctionCode? ==> req.s3Bucket == Bucket && req.s3Key == key)
  }

  /** Every Lambda write among `calls` takes its code, if any, from `key`. */
  ghost predicate CodeFromKey(calls: seq<Call>, key: string)
  {
    forall i :: WriteAt(calls, i) ==> CodeAt(calls[i].request, key)
  }

  lemma CodeFromKeyConcat(a: seq<Call>, b: seq<Call>, key: string)
    requires CodeFromKey(a, key) && CodeFromKey(b, key)
    ensures CodeFromKey(a + b, key)
  {
    forall i | WriteAt(a + b, i) ensures CodeAt((a + b)[i].request, key) {
      if i >= |a| {
        assert (a + b)[i] == b[i - |a|];
      }
    }
  }

  lemma CodeFromKeyOfWrites(reqs: seq<Request>, key: string)
    requires forall k :: 0 <= k < |reqs| ==> CodeAt(reqs[k], key)
    ensures CodeFromKey(Writes(reqs), key)
  {
    forall i | WriteAt(Writes(reqs), i) ensures CodeAt(Writes(reqs)[i].request, key) {
      WritesAt(reqs, i);
    }
  }

  lemma PublishCodeAt(env: Environment, key: string, stage: string, handlers: seq<Handler>)
    ensures CodeFromKey(Publish(env, key, stage, handlers).calls, key)
  {
    var p := Publish(env, key, stage, handlers);
    if env.listing.Some? {
      var fns := Partition(handlers, env.listing.value);
      var ops := Operations(fns);
      var applied := ApplyRequests(ops, key);
      forall k | 0 <= k < |applied| ensures CodeAt(applied[k], key) {
        assert ops[k].CreateFunctionOp? || ops[k].UpdateCodeOp?;
      }
      var aliased := AliasRequests(CreateAliases(fns.added) + FollowUps(ops, key, stage, env.respond));
      forall k | 0 <= k < |aliased| ensures CodeAt(aliased[k], key) {
        assert aliased[k].CreateAlias? || aliased[k].UpdateAlias?;
      }
      var head := [ListFunctions] + Writes(applied);
      CodeFromKeyOfWrites(applied, key);
      CodeFromKeyConcat([ListFunctions], Writes(applied), key);
      CodeFromKeyOfWrites(aliased, key);
      CodeFromKeyConcat(head, Writes(aliased), key);
    }
  }

  /**
   * The artifact key is the join between the phases: every create and
   * code-update request of a run takes its code from the bucket and key the
   * upload wrote, `<rev>-<stage>.zip`.
   */
  lemma CodeComesFromUploadedArtifact(env: Environment, revision: string, stage: string, selector: Option<string>)
    ensures var r := Run(env, revision, stage, selector);
      forall i :: WriteAt(r.calls, i) ==>
        && (r.calls[i].request.CreateFunction? ==>
              r.calls[i].request.code == S3Location(Bucket, ZipfileName(revision, stage)))
        && (r.calls[i].request.UpdateFunctionCode? ==>
              r.calls[i].request.s3Bucket == Bucket && r.calls[i].request.s3Key == ZipfileName(revision, stage))
  {
    var r := Run(env, revision, stage, selector);
    var key := ZipfileName(revision, stage);
    if env.uploadSucceeds && env.scan.Some? && Discover(env.scan.value, selector).Found? {
      var p := Publish(env, key, stage, Discover(env.scan.value, selector).handlers);
      PublishCodeAt(env, key, stage, Discover(env.scan.value, selector).handlers);
      assert r.calls == [Upload(Bucket, key)] + p.calls;
      forall i | WriteAt(r.calls, i) ensures CodeAt(r.calls[i].request, key) {
        assert r.calls[i] == p.calls[i - 1];
      }
    }
  }

  /**
   * When some create or code-update request fails the run stops there: no
   * create-alias or update-alias request is issued, and a failed write is
   * among the calls.
   */
  lemma ApplyFailureSkipsAliasBatch(env: Environment, revision: string, stage: string, selector: Option<string>)
    ensures var r := Run(env, revision, stage, selector);
      r.outcome == Aborted(ApplyPhase) ==>
        && (forall i :: WriteAt(r.calls, i) ==> !IsAliasRequest(r.calls[i].request))
        && (exists i :: WriteAt(r.calls, i) && env.respond(r.calls[i].request).Failed?)
    ensures var r := Run(env, revision, stage, selector);
      (exists i :: WriteAt(r.calls, i) && !IsAliasRequest(r.calls[i].request) && env.respond(r.calls[i].request).Failed?) ==>
        && r.outcome == Aborted(ApplyPhase)
        && (forall j :: WriteAt(r.calls, j) ==> !IsAliasRequest(r.calls[j].request))
  {
    ApplyAbortedCalls(env, revision, stage, selector);
    FailedApplyWriteAborts(env, revision, stage, selector);
  }

  /** The first half of `ApplyFailureSkipsAliasBatch`: what a run ended by the apply batch issued. */
  lemma ApplyAbortedCalls(env: Environment, revision: string, stage: string, selector: Option<string>)
    ensures var r := Run(env, revision, stage, selector);
      r.outcome == Aborted(ApplyPhase) ==>
        && (forall i :: WriteAt(r.calls, i) ==> !IsAliasRequest(r.calls[i].request))
        && (exists i :: WriteAt(r.calls, i) && env.respond(r.calls[i].request).Failed?)
  {
    var r := Run(env, revision, stage, selector);
    var key := ZipfileName(revision, stage);
    if r.outcome == Aborted(ApplyPhase) {
      var fns := Partition(Discover(env.scan.value, selector).handlers, env.listing.value);
      var applied := ApplyRequests(Operations(fns), key);
      assert r.calls == [Upload(Bucket, key), ListFunctions] + Writes(applied);
      forall i | WriteAt(r.calls, i) ensures !IsAliasRequest(r.calls[i].request) {
        assert r.calls[i] == Write(applied[i - 2]);
      }
      var k :| 0 <= k < |applied| && env.respond(applied[k]).Failed?;
      assert r.calls[k + 2] == Write(applied[k]);
    }
  }

  /** The second half of `ApplyFailureSkipsAliasBatch`: a failed create or code update stops the run. */
  lemma FailedApplyWriteAborts(env: Environment, revision: string, stage: string, selector: Option<string>)
    ensures var r := Run(env, revision, stage, selector);
      (exists i :: WriteAt(r.calls, i) && !IsAliasRequest(r.calls[i].request) && env.respond(r.calls[i].request).Failed?) ==>
        && r.outcome == Aborted(ApplyPhase)
        && (forall j :: WriteAt(r.calls, j) ==> !IsAliasRequest(r.calls[j].request))
  {
    var r := Run(env, revision, stage, selector);
    var key := ZipfileName(revision, stage);
    if i :| WriteAt(r.calls, i) && !IsAliasRequest(r.calls[i].request) && env.respond(r.calls[i].request).Failed? {
      assert env.uploadSucceeds && env.scan.Some? && Discover(env.scan.value, selector).Found?;
      var handlers := Discover(env.scan.value, selector).handlers;
      var p := Publish(env, key, stage, handlers);
      assert r.calls == [Upload(Bucket, key)] + p.calls;
      assert r.calls[i] == p.calls[i - 1];
      PublishFailedApplyWrite(env, key, stage, handlers, i - 1);
    }
    ApplyAbortedCalls(env, revision, stage, selector);
  }

  /** A failed write that is not an alias request ends `Publish` in the apply phase. */
  lemma PublishFailedApplyWrite(env: Environment, key: string, stage: string, handlers: seq<Handler>, i: int)
    requires var p := Publish(env, key, stage, handlers);
      WriteAt(p.calls, i) && !IsAliasRequest(p.calls[i].request) && env.respond(p.calls[i].request).Failed?
    ensures Publish(env, key, stage, handlers).outcome == Aborted(ApplyPhase)
  {
    var fns := Partition(handlers, env.listing.value);
    var applied := ApplyRequests(Operations(fns), key);
    if AllDone(applied, env.respond) {
      assert false;
    }
  }

  /** Every Lambda write among `calls` succeeded. */
  ghost predicate WritesSucceed(calls: seq<Call>, respond: Request -> Reply)
  {
    forall i :: WriteAt(calls, i) ==> respond(calls[i].request).Done?
  }

  lemma WritesSucceedConcat(a: seq<Call>, b: seq<Call>, respond: Request -> Reply)
    ensures WritesSucceed(a + b, respond) <==> WritesSucceed(a, respond) && WritesSucceed(b, respond)
  {
    var ab := a + b;
    assert forall i :: 0 <= i < |a| ==> ab[i] == a[i];
    assert forall i :: 0 <= i < |b| ==> ab[|a| + i] == b[i];
    if WritesSucceed(a, respond) && WritesSucceed(b, respond) {
      forall i | WriteAt(ab, i) ensures respond(ab[i].request).Done? {
        if i >= |a| { assert WriteAt(b, i - |a|); }
      }
    }
    if WritesSucceed(ab, respond) {
      forall i | WriteAt(b, i) ensures respond(b[i].request).Done? {
        assert WriteAt(ab, |a| + i);
      }
    }
  }

  lemma WritesSucceedOfWrites(reqs: seq<Request>, respond: Request -> Reply)
    ensures WritesSucceed(Writes(reqs), respond) <==> AllDone(reqs, respond)
  {
    var w := Writes(reqs);
    if WritesSucceed(w, respond) {
      forall i | 0 <= i < |reqs| ensures respond(reqs[i]).Done? {
        assert WriteAt(w, i);
      }
    }
  }

  lemma {:induction false} PublishDeployedIff(env: Environment, key: string, stage: string, handlers: seq<Handler>)
    ensures var p := Publish(env, key, stage, handlers);
      p.outcome == Deployed <==> env.listing.Some? && WritesSucceed(p.calls, env.respond)
  {
    if env.listing.Some? {
      var p := Publish(env, key, stage, handlers);
      var fns := Partition(handlers, env.listing.value);
      var ops := Operations(fns);
      var applied := ApplyRequests(ops, key);
      var head := [ListFunctions];
      assert WritesSucceed(head, env.respond);
      WritesSucceedOfWrites(applied, env.respond);
      WritesSucceedConcat(head, Writes(applied), env.respond);
      if AllDone(applied, env.respond) {
        var aliased := AliasRequests(CreateAliases(fns.added) + FollowUps(ops, key, stage, env.respond));
        assert p.calls == head + Writes(applied) + Writes(aliased);
        WritesSucceedOfWrites(aliased, env.respond);
        WritesSucceedConcat(head + Writes(applied), Writes(aliased), env.respond);
      } else {
        assert p.calls == head + Writes(applied);
      }
    }
  }

  /**
   * The run ends without error exactly when the upload, the scan and the
   * listing succeed, every handler file has a comment block, and every Lambda
   * write it issues succeeds.
   */
  lemma DeployedIffEveryCallSucceeded(env: Environment, revision: string, stage: string, selector: Option<string>)
    ensures var r := Run(env, revision, stage, selector);
      r.outcome == Deployed <==>
        && env.uploadSucceeds && env.scan.Some? && Discover(env.scan.value, selector).Found? && env.listing.Some?
        && WritesSucceed(r.calls, env.respond)
  {
    var key := ZipfileName(revision, stage);
    if env.uploadSucceeds && env.scan.Some? && Discover(env.scan.value, selector).Found? {
      var handlers := Discover(env.scan.value, selector).handlers;
      var p := Publish(env, key, stage, handlers);
      PublishDeployedIff(env, key, stage, handlers);
      assert WritesSucceed([Upload(Bucket, key)], env.respond);
      WritesSucceedConcat([Upload(Bucket, key)], p.calls, env.respond);
    }
  }

  /**
   * A run that reaches the alias phase issues, after the upload and the
   * listing, exactly |added| + |updated| apply writes and then
   * 2·|added| + |updated| alias writes.
   */
  lemma WriteCountOfCompleteRun(env: Environment, revision: string, stage: string, selector: Option<string>)
    requires env.uploadSucceeds && env.scan.Some? && Discover(env.scan.value, selector).Found? && env.listing.Some?
    ensures var r := Run(env, revision, stage, selector);
      var fns := Partition(Discover(env.scan.value, selector).handlers, env.listing.value);
      r.outcome in {Deployed, Aborted(AliasPhase)} ==>
        |r.calls| == 2 + 3 * |fns.added| + 2 * |fns.updated|
  {
    var key := ZipfileName(revision, stage);
    var fns := Partition(Discover(env.scan.value, selector).handlers, env.listing.value);
    if AllDone(ApplyRequests(Operations(fns), key), env.respond) {
      AliasBatchShape(fns, key, stage, env.respond);
    }
  }

  /** A handler not yet deployed and one already listed, for the scenario below. */
  const NewHandler := Handler("lib/handlers/a.js", Some("a"), Some("a"), Some("A"), Some("role-a"))
  const ExistingHandler := Handler("lib/handlers/b.js", Some("b"), Some("b"), Some("B"), Some("role-b"))

  /** Lambda answering every call, with version "7" for code updates. */
  function AllSucceed(req: Request): Reply
  {
    if req.UpdateFunctionCode? then Done("7") else Done("1")
  }

  lemma ScenarioPartition()
    ensures Partition([NewHandler, ExistingHandler], ["b", "c"]) == Reconciled([NewHandler], [ExistingHandler])
  {
    var handlers := [NewHandler, ExistingHandler];
    assert handlers[..1] == [NewHandler] && [NewHandler][..0] == [];
    assert !Listed(["b", "c"], NewHandler);
    assert Listed(["b", "c"], ExistingHandler);
  }

  lemma ScenarioApplyBatch(key: string)
    ensures ApplyRequests(Operations(Reconciled([NewHandler], [ExistingHandler])), key)
         == [CreateFunction(S3Location("aws-example-builds", key), Some("a"), "a.handler", Some("role-a"),
                            "nodejs", Some("A"), 1536, 30, true),
             UpdateFunctionCode(Some("b"), "aws-example-builds", key, true)]
  {
    var ops := Operations(Reconciled([NewHandler], [ExistingHandler]));
    assert ops == [CreateFunctionOp(NewHandler), UpdateCodeOp(ExistingHandler)];
    assert Interpolate(NewHandler.name) + ".handler" == "a.handler";
  }

  lemma ScenarioAliasOps(key: string)
    ensures var fns := Reconciled([NewHandler], [ExistingHandler]);
      CreateAliases(fns.added) + FollowUps(Operations(fns), key, "production", AllSucceed)
        == [CreateAliasOp(NewHandler, "production"), CreateAliasOp(NewHandler, "staging"),
            UpdateAliasOp(ExistingHandler, "production", "7")]
  {
    var fns := Reconciled([NewHandler], [ExistingHandler]);
    var ops := Operations(fns);
    assert ops == [CreateFunctionOp(NewHandler), UpdateCodeOp(ExistingHandler)];
    assert ops[..1] == [CreateFunctionOp(NewHandler)] && ops[..1][..0] == [];
    assert CreateAliases(fns.added) == [CreateAliasOp(NewHandler, "production"), CreateAliasOp(NewHandler, "staging")];
    assert AllSucceed(OperationRequest(UpdateCodeOp(ExistingHandler), key)) == Done("7");
    assert FollowUps(ops[..1], key, "production", AllSucceed) == [];
    assert FollowUps(ops, key, "production", AllSucceed) == [UpdateAliasOp(ExistingHandler, "production", "7")];
  }

  lemma ScenarioAliasBatch(key: string)
    ensures var fns := Reconciled([NewHandler], [ExistingHandler]);
      AliasRequests(CreateAliases(fns.added) + FollowUps(Operations(fns), key, "production", AllSucceed))
        == [CreateAlias(Some("a"), "$LATEST", "production", "A on production"),
            CreateAlias(Some("a"), "$LATEST", "staging", "A on staging"),
            UpdateAlias(Some("b"), "production", "B on production", "7")]
  {
    ScenarioAliasOps(key);
    assert AliasDescription(NewHandler, "production") == "A on production";
    assert AliasDescription(NewHandler, "staging") == "A on staging";
    assert AliasDescription(ExistingHandler, "production") == "B on production";
  }

  /** The two handler files of the scenario, as the scan and the doc-comment parser give them. */
  const FileA := SourceFile("lib/handlers/a.js", [[Tag("handler", "a"), Tag("description", "A"), Tag("role", "role-a")]])
  const FileB := SourceFile("lib/handlers/b.js", [[Tag("handler", "b"), Tag("description", "B"), Tag("role", "role-b")]])

  /** Upload, scan and listing succeed; `b` and an unrelated `c` are deployed already. */
  const ScenarioEnv := Environment(true, Some([FileA, FileB]), Some(["b", "c"]), AllSucceed)

  lemma ScenarioDescriptor(f: SourceFile, h: Handler, name: string, description: string, role: string)
    requires f.comments == [[Tag("handler", name), Tag("description", description), Tag("role", role)]]
    requires h == Handler(f.path, Some(name), Some(name), Some(description), Some(role))
    ensures Describe(f.path, f.comments[0]) == h
  {
    var tags := f.comments[0];
    var empty := Handler(f.path, None, None, None, None);
    assert tags[..1][..0] == [];
    assert Describe(f.path, tags[..1]) == empty.(name := Some(name), functionName := Some(name));
    assert tags[..2][..1] == tags[..1];
    assert tags[..3] == tags;
  }

  lemma ScenarioDiscovered()
    ensures Discover([FileA, FileB], None) == Found([NewHandler, ExistingHandler])
  {
    ScenarioFilesFiltered();
    ScenarioCollected();
  }

  lemma ScenarioFilesFiltered()
    ensures HandlerFiles([FileA, FileB]) == [FileA, FileB]
  {
    assert HandlersDirAt(FileA.path, 3) && HandlersDirAt(FileB.path, 3);
    var files := [FileA, FileB];
    assert files[..1] == [FileA] && files[..1][..0] == [];
  }

  lemma ScenarioCollected()
    ensures Collect([FileA, FileB], None) == Found([NewHandler, ExistingHandler])
  {
    ScenarioDescriptor(FileA, NewHandler, "a", "A", "role-a");
    ScenarioDescriptor(FileB, ExistingHandler, "b", "B", "role-b");
    var files := [FileA, FileB];
    assert files[..1] == [FileA] && files[..1][..0] == [];
    assert Collect([FileA], None) == Found([NewHandler]);
  }

  /**
   * The listing and the 5 writes of the scenario: create `a`, update `b`'s
   * code, the production and staging aliases of `a`, and the production alias
   * of `b` on the version its code update returned.
   */
  function ScenarioCalls(key: string): seq<Call>
  {
    [ ListFunctions,
      Write(CreateFunction(S3Location("aws-example-builds", key), Some("a"), "a.handler", Some("role-a"),
                           "nodejs", Some("A"), 1536, 30, true)),
      Write(UpdateFunctionCode(Some("b"), "aws-example-builds", key, true)),
      Write(CreateAlias(Some("a"), "$LATEST", "production", "A on production")),
      Write(CreateAlias(Some("a"), "$LATEST", "staging", "A on staging")),
      Write(UpdateAlias(Some("b"), "production", "B on production", "7")) ]
  }

  lemma ScenarioPublish(key: string)
    ensures Publish(ScenarioEnv, key, "production", [NewHandler, ExistingHandler]) == Report(ScenarioCalls(key), Deployed)
  {
    ScenarioPartition();
    ScenarioApplyBatch(key);
    ScenarioAliasBatch(key);
    var fns := Reconciled([NewHandler], [ExistingHandler]);
    var applied := ApplyRequests(Operations(fns), key);
    var aliased := AliasRequests(CreateAliases(fns.added) + FollowUps(Operations(fns), key, "production", AllSucceed));
    assert AllDone(applied, AllSucceed);
    assert AllDone(aliased, AllSucceed);
  }

  /**
   * A run at git revision `abc` on stage `production`, no selector, over the
   * handler files of a new handler `a` and an existing handler `b`, every
   * call succeeding: the upload of `abc-production.zip`, then the calls of
   * `ScenarioCalls` with that key, and the run completes.
   */
  lemma OneNewOneExistingHandler(env: Environment, revision: string)
    requires env == ScenarioEnv && revision == "abc\n"
    ensures Run(env, revision, "production", None)
         == Report([Upload("aws-example-builds", "abc-production.zip")] + ScenarioCalls("abc-production.zip"), Deployed)
  {
    var key := "abc-production.zip";
    assert ZipfileName(revision, "production") == key by {
      assert NoLineBreak("abc");
      assert revision == "abc" + "\n";
      ZipfileNameOfGitOutput("abc", "production");
    }
    ScenarioDiscovered();
    RunAfterDiscovery(env, revision, "production", None, [NewHandler, ExistingHandler]);
    ScenarioPublish(key);
  }

  /** Once upload and discovery succeeded, a run is the upload followed by `Publish`. */
  lemma RunAfterDiscovery(env: Environment, revision: string, stage: string, selector: Option<string>, handlers: seq<Handler>)
    requires env.uploadSucceeds && env.scan.Some? && Discover(env.scan.value, selector) == Found(handlers)
    ensures var p := Publish(env, ZipfileName(revision, stage), stage, handlers);
      Run(env, revision, stage, selector) == Report([Upload(Bucket, ZipfileName(revision, stage))] + p.calls, p.outcome)
  {
  }

}

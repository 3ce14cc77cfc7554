/**
 * Request planning in the `deploy` task (gulpfile.babel.js, lines 165-229):
 * one create-function operation and two create-alias operations per new
 * handler, one update-code operation per existing handler, and, when an
 * update-code call answers, one update-alias operation carrying the version
 * it returned. The source pushes closures; here each closure is a value
 * that names what it captured, and a function gives the request it sends.
 */
module Planning {
  import opened Wrappers
  import opened Artifact
  import opened Discovery
  import opened Reconciliation

  const Runtime := "nodejs"
  const MemorySize := 1536
  const Timeout := 30
  const LatestVersion := "$LATEST"

  /** Every new function gets an alias for each of these stages (line 191). */
  const AliasStages: seq<string> := ["production", "staging"]

  datatype S3Location = S3Location(bucket: string, key: string)

  /** The parameters of each Lambda write the deploy task sends. */
  datatype Request =
    | CreateFunction(code: S3Location, functionName: Option<string>, handler: string, role: Option<string>,
                     runtime: string, functionDescription: Option<string>, memorySize: int, timeout: int, publish: bool)
    | UpdateFunctionCode(functionName: Option<string>, s3Bucket: string, s3Key: string, publish: bool)
    | CreateAlias(functionName: Option<string>, functionVersion: string, name: string, description: string)
    | UpdateAlias(functionName: Option<string>, name: string, description: string, functionVersion: string)

  predicate IsAliasRequest(r: Request)
  {
    r.CreateAlias? || r.UpdateAlias?
  }

  /** What a Lambda call answers: an error, or success with the `Version` of its response. */
  datatype Reply = Failed | Done(version: string)

  /** A closure pushed onto `operations`, with the handler it captured. */
  datatype Operation = CreateFunctionOp(fn: Handler) | UpdateCodeOp(fn: Handler)

  /** A closure pushed onto `aliases`, with what it captured. */
  datatype AliasOp =
    | CreateAliasOp(fn: Handler, stage: string)
    | UpdateAliasOp(fn: Handler, stage: string, version: string)

  /** A template-string hole `${v}`: an unset field prints as "undefined". */
  function Interpolate(v: Option<string>): string
  {
    match v
    case Some(s) => s
    case None => "undefined"
  }

  /** `${fn.description} on ${stage}` */
  function AliasDescription(fn: Handler, stage: string): string
  {
    Interpolate(fn.description) + " on " + stage
  }

  /** The request an operation closure sends, with the artifact key `key` (lines 172-185, 207-212). */
  function OperationRequest(op: Operation, key: string): Request
  {
    match op
    case CreateFunctionOp(fn) =>
      CreateFunction(S3Location(Bucket, key), fn.functionName, Interpolate(fn.name) + ".handler", fn.role,
                     Runtime, fn.description, MemorySize, Timeout, true)
    case UpdateCodeOp(fn) =>
      UpdateFunctionCode(fn.functionName, Bucket, key, true)
  }

  /** The request an alias closure sends (lines 193-198, 216-221). */
  function AliasRequest(a: AliasOp): Request
  {
    match a
    case CreateAliasOp(fn, stage) => CreateAlias(fn.functionName, LatestVersion, stage, AliasDescription(fn, stage))
    case UpdateAliasOp(fn, stage, version) => UpdateAlias(fn.functionName, stage, AliasDescription(fn, stage), version)
  }

  function CreateOps(added: seq<Handler>): seq<Operation>
  {
    seq(|added|, i requires 0 <= i < |added| => CreateFunctionOp(added[i]))
  }

  function UpdateOps(updated: seq<Handler>): seq<Operation>
  {
    seq(|updated|, i requires 0 <= i < |updated| => UpdateCodeOp(updated[i]))
  }

  /** The apply batch: the new handlers' creations, then the existing handlers' code updates. */
  function Operations(fns: Reconciled): seq<Operation>
  {
    CreateOps(fns.added) + UpdateOps(fns.updated)
  }

  /** Two create-alias closures per new handler, one per stage of `AliasStages`, in handler order. */
  function CreateAliases(added: seq<Handler>): seq<AliasOp>
  {
    seq(2 * |added|, i requires 0 <= i < 2 * |added| => CreateAliasOp(added[i / 2], AliasStages[i % 2]))
  }

  lemma CreateAliasesAppend(added: seq<Handler>, fn: Handler)
    ensures CreateAliases(added + [fn])
         == CreateAliases(added) + [CreateAliasOp(fn, AliasStages[0]), CreateAliasOp(fn, AliasStages[1])]
  {
    var a, b := CreateAliases(added + [fn]), CreateAliases(added) + [CreateAliasOp(fn, AliasStages[0]), CreateAliasOp(fn, AliasStages[1])];
    assert |a| == |b|;
    forall i | 0 <= i < |a| ensures a[i] == b[i] {
      if i < 2 * |added| {
        assert (added + [fn])[i / 2] == added[i / 2];
      }
    }
  }

  lemma CreateAliasesAt(added: seq<Handler>)
    ensures forall i :: 0 <= i < |added| ==>
      CreateAliases(added)[2 * i] == CreateAliasOp(added[i], "production")
      && CreateAliases(added)[2 * i + 1] == CreateAliasOp(added[i], "staging")
  {
    forall i | 0 <= i < |added|
      ensures CreateAliases(added)[2 * i] == CreateAliasOp(added[i], "production")
      ensures CreateAliases(added)[2 * i + 1] == CreateAliasOp(added[i], "staging")
    {
      assert (2 * i) / 2 == i && (2 * i) % 2 == 0;
      assert (2 * i + 1) / 2 == i && (2 * i + 1) % 2 == 1;
    }
  }

  /** The planning loops of lines 170-229, before any call is made. */
  method PlanOperations(fns: Reconciled) returns (operations: seq<Operation>, aliases: seq<AliasOp>)
    ensures operations == Operations(fns)
    ensures aliases == CreateAliases(fns.added)
  {
    operations, aliases := [], [];
    for i := 0 to |fns.added|
      invariant operations == CreateOps(fns.added[..i])
      invariant aliases == CreateAliases(fns.added[..i])
    {
      var fn := fns.added[i];
      operations := operations + [CreateFunctionOp(fn)];
      ghost var before := aliases;
      for s := 0 to |AliasStages|
        invariant aliases == before + seq(s, j requires 0 <= j < s => CreateAliasOp(fn, AliasStages[j]))
      {
        aliases := aliases + [CreateAliasOp(fn, AliasStages[s])];
      }
      CreateAliasesAppend(fns.added[..i], fn);
      assert fns.added[..i + 1] == fns.added[..i] + [fn];
    }
    assert fns.added[..|fns.added|] == fns.added;
    ghost var creations := operations;
    for i := 0 to |fns.updated|
      invariant operations == creations + UpdateOps(fns.updated[..i])
    {
      operations := operations + [UpdateCodeOp(fns.updated[i])];
    }
    assert fns.updated[..|fns.updated|] == fns.updated;
  }

  /** The requests a batch of operations sends. */
  function ApplyRequests(ops: seq<Operation>, key: string): seq<Request>
  {
    seq(|ops|, i requires 0 <= i < |ops| => OperationRequest(ops[i], key))
  }

  /** The requests a batch of alias closures sends. */
  function AliasRequests(aliases: seq<AliasOp>): seq<Request>
  {
    seq(|aliases|, i requires 0 <= i < |aliases| => AliasRequest(aliases[i]))
  }

  /** `async.parallel` reports success: every request of the batch succeeded. */
  predicate AllDone(reqs: seq<Request>, respond: Request -> Reply)
  {
    forall i :: 0 <= i < |reqs| ==> respond(reqs[i]).Done?
  }

  lemma AllDoneAppend(reqs: seq<Request>, r: Request, respond: Request -> Reply)
    ensures AllDone(reqs + [r], respond) <==> AllDone(reqs, respond) && respond(r).Done?
  {
    var all := reqs + [r];
    assert all[|reqs|] == r;
    assert forall i :: 0 <= i < |reqs| ==> all[i] == reqs[i];
  }

  /**
   * The update-alias closures the update-code callbacks push (lines 214-224):
   * one per answered update-code call, carrying its returned version.
   */
  function FollowUps(ops: seq<Operation>, key: string, stage: string, respond: Request -> Reply): seq<AliasOp>
  {
    if ops == [] then []
    else
      var op := ops[|ops| - 1];
      var reply := respond(OperationRequest(op, key));
      FollowUps(ops[..|ops| - 1], key, stage, respond)
        + (if op.UpdateCodeOp? && reply.Done? then [UpdateAliasOp(op.fn, stage, reply.version)] else [])
  }

  /** The version an update-code call for `fn` returned. */
  function UpdatedVersion(fn: Handler, key: string, respond: Request -> Reply): string
    requires respond(OperationRequest(UpdateCodeOp(fn), key)).Done?
  {
    respond(OperationRequest(UpdateCodeOp(fn), key)).version
  }

  lemma {:induction false} FollowUpsAppend(a: seq<Operation>, b: seq<Operation>, key: string, stage: string, respond: Request -> Reply)
    ensures FollowUps(a + b, key, stage, respond) == FollowUps(a, key, stage, respond) + FollowUps(b, key, stage, respond)
  {
    if b == [] {
      assert a + b == a;
    } else {
      var n := |b| - 1;
      var ab := a + b;
      FollowUpsAppend(a, b[..n], key, stage, respond);
      assert ab[|ab| - 1] == b[n];
      assert ab[..|ab| - 1] == a + b[..n];
      var op := b[n];
      var tail := if op.UpdateCodeOp? && respond(OperationRequest(op, key)).Done?
        then [UpdateAliasOp(op.fn, stage, respond(OperationRequest(op, key)).version)] else [];
      assert FollowUps(ab, key, stage, respond) == FollowUps(a + b[..n], key, stage, respond) + tail;
      assert FollowUps(b, key, stage, respond) == FollowUps(b[..n], key, stage, respond) + tail;
      var fa := FollowUps(a, key, stage, respond);
      var fb := FollowUps(b[..n], key, stage, respond);
      assert (fa + fb) + tail == fa + (fb + tail);
    }
  }

  lemma {:induction false} FollowUpsOfCreates(added: seq<Handler>, key: string, stage: string, respond: Request -> Reply)
    ensures FollowUps(CreateOps(added), key, stage, respond) == []
  {
    if added != [] {
      var n := |added| - 1;
      FollowUpsOfCreates(added[..n], key, stage, respond);
      assert CreateOps(added)[..n] == CreateOps(added[..n]);
    }
  }

  /** Every update-code call for `updated` answered with a version. */
  predicate CodeUpdatesDone(updated: seq<Handler>, key: string, respond: Request -> Reply)
  {
    forall i :: 0 <= i < |updated| ==> respond(OperationRequest(UpdateCodeOp(updated[i]), key)).Done?
  }

  /** One `stage` alias per updated handler, on the version its code update returned. */
  function UpdateAliases(updated: seq<Handler>, key: string, stage: string, respond: Request -> Reply): seq<AliasOp>
    requires CodeUpdatesDone(updated, key, respond)
  {
    seq(|updated|, i requires 0 <= i < |updated| => UpdateAliasOp(updated[i], stage, UpdatedVersion(updated[i], key, respond)))
  }

  lemma {:induction false} FollowUpsOfUpdates(updated: seq<Handler>, key: string, stage: string, respond: Request -> Reply)
    requires CodeUpdatesDone(updated, key, respond)
    ensures FollowUps(UpdateOps(updated), key, stage, respond) == UpdateAliases(updated, key, stage, respond)
  {
    if updated != [] {
      var n := |updated| - 1;
      assert CodeUpdatesDone(updated[..n], key, respond) by {
        forall i | 0 <= i < n ensures updated[..n][i] == updated[i] { }
      }
      FollowUpsOfUpdates(updated[..n], key, stage, respond);
      assert UpdateOps(updated)[..n] == UpdateOps(updated[..n]);
      var all := UpdateAliases(updated, key, stage, respond);
      assert all == UpdateAliases(updated[..n], key, stage, respond) + [all[n]];
    }
  }

  /**
   * When the apply batch succeeded, the alias batch holds 2·|added| + |updated|
   * entries: for the i-th new handler a `production` and a `staging` alias
   * on `$LATEST`, then for the i-th existing handler one alias named after
   * the run's stage on the version its update-code call returned.
   */
  lemma AliasBatchShape(fns: Reconciled, key: string, stage: string, respond: Request -> Reply)
    requires AllDone(ApplyRequests(Operations(fns), key), respond)
    ensures var batch := CreateAliases(fns.added) + FollowUps(Operations(fns), key, stage, respond);
      && |batch| == 2 * |fns.added| + |fns.updated|
      && (forall i :: 0 <= i < |fns.added| ==>
            batch[2 * i] == CreateAliasOp(fns.added[i], "production")
            && batch[2 * i + 1] == CreateAliasOp(fns.added[i], "staging"))
      && (forall i :: 0 <= i < |fns.updated| ==>
            respond(OperationRequest(UpdateCodeOp(fns.updated[i]), key)).Done?
            && batch[2 * |fns.added| + i] == UpdateAliasOp(fns.updated[i], stage, UpdatedVersion(fns.updated[i], key, respond)))
  {
    UpdatesAnswered(fns, key, respond);
    AliasBatchLayout(fns, key, stage, respond);
  }

  /** `AliasBatchShape` once every code update is known to have answered. */
  lemma AliasBatchLayout(fns: Reconciled, key: string, stage: string, respond: Request -> Reply)
    requires CodeUpdatesDone(fns.updated, key, respond)
    ensures var batch := CreateAliases(fns.added) + FollowUps(Operations(fns), key, stage, respond);
      && |batch| == 2 * |fns.added| + |fns.updated|
      && (forall i :: 0 <= i < |fns.added| ==>
            batch[2 * i] == CreateAliasOp(fns.added[i], "production")
            && batch[2 * i + 1] == CreateAliasOp(fns.added[i], "staging"))
      && (forall i :: 0 <= i < |fns.updated| ==>
            respond(OperationRequest(UpdateCodeOp(fns.updated[i]), key)).Done?
            && batch[2 * |fns.added| + i] == UpdateAliasOp(fns.updated[i], stage, UpdatedVersion(fns.updated[i], key, respond)))
  {
    var na := |fns.added|;
    var creations := CreateAliases(fns.added);
    var updates := FollowUps(Operations(fns), key, stage, respond);
    FollowUpsOfPlan(fns, key, stage, respond);
    CreateAliasesAt(fns.added);
    var batch := creations + updates;
    forall i | 0 <= i < na
      ensures batch[2 * i] == CreateAliasOp(fns.added[i], "production")
      ensures batch[2 * i + 1] == CreateAliasOp(fns.added[i], "staging")
    {
      assert batch[2 * i] == creations[2 * i];
      assert batch[2 * i + 1] == creations[2 * i + 1];
    }
    forall i | 0 <= i < |fns.updated|
      ensures batch[2 * na + i] == UpdateAliasOp(fns.updated[i], stage, UpdatedVersion(fns.updated[i], key, respond))
    {
      assert batch[2 * na + i] == updates[i];
    }
  }

  /** The follow-ups of a plan whose code updates all answered: one per existing handler. */
  lemma FollowUpsOfPlan(fns: Reconciled, key: string, stage: string, respond: Request -> Reply)
    requires CodeUpdatesDone(fns.updated, key, respond)
    ensures FollowUps(Operations(fns), key, stage, respond) == UpdateAliases(fns.updated, key, stage, respond)
  {
    var c := CreateOps(fns.added);
    var u := UpdateOps(fns.updated);
    assert Operations(fns) == c + u;
    FollowUpsAppend(c, u, key, stage, respond);
    FollowUpsOfCreates(fns.added, key, stage, respond);
    FollowUpsOfUpdates(fns.updated, key, stage, respond);
    assert [] + FollowUps(u, key, stage, respond) == FollowUps(u, key, stage, respond);
  }

  /** A successful apply batch means every code update answered. */
  lemma UpdatesAnswered(fns: Reconciled, key: string, respond: Request -> Reply)
    requires AllDone(ApplyRequests(Operations(fns), key), respond)
    ensures CodeUpdatesDone(fns.updated, key, respond)
  {
    var reqs := ApplyRequests(Operations(fns), key);
    forall i | 0 <= i < |fns.updated|
      ensures respond(OperationRequest(UpdateCodeOp(fns.updated[i]), key)).Done?
    {
      assert reqs[|fns.added| + i] == OperationRequest(UpdateCodeOp(fns.updated[i]), key);
    }
  }

  /**
   * The apply batch holds |added| + |updated| requests: for the i-th new
   * handler a create request with its names, role and description, the
   * `nodejs` runtime, 1536 MB, 30 s, publishing, and code at the artifact
   * key; then for the i-th existing handler a publishing code update from the
   * same key. None of them is an alias request.
   */
  lemma ApplyBatchShape(fns: Reconciled, key: string)
    ensures var reqs := ApplyRequests(Operations(fns), key);
      && |reqs| == |fns.added| + |fns.updated|
      && (forall i :: 0 <= i < |reqs| ==> !IsAliasRequest(reqs[i]))
      && (forall i :: 0 <= i < |fns.added| ==>
            var fn := fns.added[i];
            reqs[i] == CreateFunction(S3Location("aws-example-builds", key), fn.functionName,
                                      Interpolate(fn.name) + ".handler", fn.role, "nodejs", fn.description, 1536, 30, true))
      && (forall i :: 0 <= i < |fns.updated| ==>
            reqs[|fns.added| + i] == UpdateFunctionCode(fns.updated[i].functionName, "aws-example-builds", key, true))
  {
    var reqs := ApplyRequests(Operations(fns), key);
    forall i | 0 <= i < |fns.updated|
      ensures reqs[|fns.added| + i] == UpdateFunctionCode(fns.updated[i].functionName, "aws-example-builds", key, true)
    {
      assert Operations(fns)[|fns.added| + i] == UpdateCodeOp(fns.updated[i]);
    }
  }

  /**
   * A handler's requests carry its tag texts unchanged: FunctionName and
   * Handler from the last `@handler`, Role from the last `@role`,
   * Description from the last `@description`, together with the fixed
   * runtime, memory size, timeout and publish flag and the artifact's
   * bucket and key. The create-alias request points at `$LATEST`, the
   * update-alias request at the version the code update returned.
   */
  lemma RequestsFromTags(path: string, tags: seq<Tag>, key: string, stage: string, version: string, i: int, j: int, k: int)
    requires LastOfKind(tags, HandlerTag, i)
    requires LastOfKind(tags, DescriptionTag, j)
    requires LastOfKind(tags, RoleTag, k)
    ensures OperationRequest(CreateFunctionOp(Describe(path, tags)), key)
         == CreateFunction(S3Location("aws-example-builds", key), Some(tags[i].text), tags[i].text + ".handler",
                           Some(tags[k].text), "nodejs", Some(tags[j].text), 1536, 30, true)
    ensures AliasRequest(CreateAliasOp(Describe(path, tags), stage))
         == CreateAlias(Some(tags[i].text), "$LATEST", stage, tags[j].text + " on " + stage)
    ensures OperationRequest(UpdateCodeOp(Describe(path, tags)), key)
         == UpdateFunctionCode(Some(tags[i].text), "aws-example-builds", key, true)
    ensures AliasRequest(UpdateAliasOp(Describe(path, tags), stage, version))
         == UpdateAlias(Some(tags[i].text), stage, tags[j].text + " on " + stage, version)
  {
    DescribeKeepsLastTag(path, tags, HandlerTag);
    DescribeKeepsLastTag(path, tags, DescriptionTag);
    DescribeKeepsLastTag(path, tags, RoleTag);
  }

  /** A handler without a `@description` tag gets aliases described as "undefined on <stage>". */
  lemma AliasDescriptionWithoutTag(path: string, tags: seq<Tag>, stage: string, version: string)
    requires forall i :: 0 <= i < |tags| ==> tags[i].kind != DescriptionTag
    ensures AliasRequest(CreateAliasOp(Describe(path, tags), stage)).description == "undefined on " + stage
    ensures AliasRequest(UpdateAliasOp(Describe(path, tags), stage, version)).description == "undefined on " + stage
  {
    DescribeKeepsLastTag(path, tags, DescriptionTag);
  }

}

/**
 * Handler discovery, `getHandlers` (gulpfile.babel.js, lines 40-84): keep the
 * scanned files under a `handlers/` directory, build one descriptor per file
 * from the tags of its first comment block, and keep only the descriptor
 * named by the `--function` selector when one is given.
 */
module Discovery {
  import opened Wrappers

  /** One tag of a comment block as the comment parser reports it: `@<kind> <text>`. */
  datatype Tag = Tag(kind: string, text: string)

  /** A handler descriptor; a field whose tag is missing stays `None` (`undefined`). */
  datatype Handler = Handler(
    path: string,
    name: Option<string>,
    functionName: Option<string>,
    description: Option<string>,
    role: Option<string>)

  // A file found by the scan of `lib/**/*.js`, with the tag lists of the
  // comment blocks `dox.parseComments` returns for it, in file order.
  datatype SourceFile = SourceFile(path: string, comments: seq<seq<Tag>>)

  /**
   * What discovery yields: the descriptors, or the path of a handler file
   * with no comment block, where `dox.parseComments(contents)[0]` is
   * `undefined` and reading its `tags` throws.
   */
  datatype DiscoveryResult = Found(handlers: seq<Handler>) | NoDocComment(path: string)

  const HandlerTag := "handler"
  const DescriptionTag := "description"
  const RoleTag := "role"

  /** The tag kinds a descriptor records; every other kind is ignored. */
  predicate IsKnownKind(kind: string)
  {
    kind == HandlerTag || kind == DescriptionTag || kind == RoleTag
  }

  /** One pass of the tag loop: `@handler` sets both names, `@description` and `@role` their field. */
  function ApplyTag(h: Handler, tag: Tag): Handler
  {
    if tag.kind == HandlerTag then h.(name := Some(tag.text), functionName := Some(tag.text))
    else if tag.kind == DescriptionTag then h.(description := Some(tag.text))
    else if tag.kind == RoleTag then h.(role := Some(tag.text))
    else h
  }

  /** The descriptor the tag loop leaves after all of `tags`, starting from `{path}`. */
  function Describe(path: string, tags: seq<Tag>): (h: Handler)
    ensures h.path == path
    ensures h.name == h.functionName
  {
    if tags == [] then Handler(path, None, None, None, None)
    else ApplyTag(Describe(path, tags[..|tags| - 1]), tags[|tags| - 1])
  }

  /** The field of `h` that tags of `kind` write. */
  function Recorded(h: Handler, kind: string): Option<string>
  {
    if kind == HandlerTag then h.name
    else if kind == DescriptionTag then h.description
    else if kind == RoleTag then h.role
    else None
  }

  /** `tags[i]` is the last tag of `kind`. */
  predicate LastOfKind(tags: seq<Tag>, kind: string, i: int)
  {
    0 <= i < |tags| && tags[i].kind == kind &&
    forall j :: i < j < |tags| ==> tags[j].kind != kind
  }

  /**
   * Each field holds the text of the last tag of its kind, unchanged, so a
   * later tag overwrites an earlier one; with no tag of its kind it is unset.
   */
  lemma {:induction false} DescribeKeepsLastTag(path: string, tags: seq<Tag>, kind: string)
    requires IsKnownKind(kind)
    ensures Recorded(Describe(path, tags), kind) == None <==> forall i :: 0 <= i < |tags| ==> tags[i].kind != kind
    ensures forall i :: LastOfKind(tags, kind, i) ==> Recorded(Describe(path, tags), kind) == Some(tags[i].text)
  {
    if tags != [] {
      var n := |tags| - 1;
      var prefix := tags[..n];
      DescribeKeepsLastTag(path, prefix, kind);
      if tags[n].kind == kind {
        assert Recorded(Describe(path, tags), kind) == Some(tags[n].text);
        forall i | LastOfKind(tags, kind, i) ensures i == n { }
      } else {
        assert Recorded(Describe(path, tags), kind) == Recorded(Describe(path, prefix), kind);
        forall i | LastOfKind(tags, kind, i) ensures LastOfKind(prefix, kind, i) {
          assert i != n;
        }
        if forall i :: 0 <= i < |prefix| ==> prefix[i].kind != kind {
          forall i | 0 <= i < |tags| ensures tags[i].kind != kind {
            if i < n { assert tags[i] == prefix[i]; }
          }
        }
      }
    }
  }

  /** The tags of a known kind, in order. */
  function KnownTags(tags: seq<Tag>): seq<Tag>
  {
    if tags == [] then []
    else
      var last := tags[|tags| - 1];
      KnownTags(tags[..|tags| - 1]) + (if IsKnownKind(last.kind) then [last] else [])
  }

  /** Tags of any other kind leave the descriptor as it is: dropping all of them changes nothing. */
  lemma {:induction false} DescribeIgnoresUnknownTags(path: string, tags: seq<Tag>)
    ensures Describe(path, KnownTags(tags)) == Describe(path, tags)
  {
    if tags != [] {
      var n := |tags| - 1;
      var known := KnownTags(tags[..n]);
      DescribeIgnoresUnknownTags(path, tags[..n]);
      if IsKnownKind(tags[n].kind) {
        var k := known + [tags[n]];
        assert KnownTags(tags) == k;
        assert k[..|k| - 1] == known;
      } else {
        assert KnownTags(tags) == known + [] == known;
        assert Describe(path, tags) == Describe(path, tags[..n]);
      }
    }
  }

  /** The tag loop of lines 59-70, run field by field over one comment block. */
  method BuildDescriptor(path: string, tags: seq<Tag>) returns (h: Handler)
    ensures h == Describe(path, tags)
  {
    h := Handler(path, None, None, None, None);
    for i := 0 to |tags|
      invariant h == Describe(path, tags[..i])
    {
      var tag := tags[i];
      assert tags[..i + 1][..i] == tags[..i];
      if tag.kind == HandlerTag {
        h := h.(name := Some(tag.text), functionName := Some(tag.text));
      } else if tag.kind == DescriptionTag {
        h := h.(description := Some(tag.text));
      } else if tag.kind == RoleTag {
        h := h.(role := Some(tag.text));
      }
    }
    assert tags[..|tags|] == tags;
  }

  const HandlersDir := "/handlers/"

  predicate HandlersDirAt(path: string, i: int)
    requires 0 <= i <= |path| - |HandlersDir|
  {
    path[i..i + |HandlersDir|] == HandlersDir
  }

  // `/.*\/handlers\/.*/.test(path)`: the path contains the segment "/handlers/".
  predicate IsHandlerPath(path: string)
  {
    exists i :: 0 <= i <= |path| - |HandlersDir| && HandlersDirAt(path, i)
  }

  /** `filenames.filter(...)` of line 47: the handler files, in scan order. */
  function HandlerFiles(files: seq<SourceFile>): (kept: seq<SourceFile>)
    ensures |kept| <= |files|
  {
    if files == [] then []
    else
      var last := files[|files| - 1];
      HandlerFiles(files[..|files| - 1]) + (if IsHandlerPath(last.path) then [last] else [])
  }

  /** A scanned file is kept exactly when its path contains "/handlers/". */
  lemma {:induction false} HandlerFilesMembers(files: seq<SourceFile>)
    ensures forall f :: f in HandlerFiles(files) <==> f in files && IsHandlerPath(f.path)
  {
    if files != [] {
      var n := |files| - 1;
      HandlerFilesMembers(files[..n]);
      assert files == files[..n] + [files[n]];
    }
  }

  /** The filter keeps the scan order: it distributes over concatenation. */
  lemma {:induction false} HandlerFilesAppend(a: seq<SourceFile>, b: seq<SourceFile>)
    ensures HandlerFiles(a + b) == HandlerFiles(a) + HandlerFiles(b)
  {
    if b != [] {
      var n := |b| - 1;
      HandlerFilesAppend(a, b[..n]);
      assert (a + b)[..|a + b| - 1] == a + b[..n];
    } else {
      assert a + b == a;
    }
  }

  /** `if(argv.function)`: a selector is in force only when given and non-empty (`""` is falsy). */
  predicate SelectorActive(selector: Option<string>)
  {
    selector.Some? && selector.value != ""
  }

  /** Lines 73-77: the descriptor is pushed unless a selector is in force and names another handler. */
  predicate Selects(selector: Option<string>, h: Handler)
  {
    !SelectorActive(selector) || h.name == selector
  }

  /** The loop of lines 56-78 over the handler files `kept`. */
  function Collect(kept: seq<SourceFile>, selector: Option<string>): DiscoveryResult
  {
    if kept == [] then Found([])
    else
      var file := kept[|kept| - 1];
      match Collect(kept[..|kept| - 1], selector)
      case NoDocComment(p) => NoDocComment(p)
      case Found(hs) =>
        if file.comments == [] then NoDocComment(file.path)
        else
          var h := Describe(file.path, file.comments[0]);
          Found(if Selects(selector, h) then hs + [h] else hs)
  }

  /** `getHandlers` on a successful scan that found `files`. */
  function Discover(files: seq<SourceFile>, selector: Option<string>): DiscoveryResult
  {
    Collect(HandlerFiles(files), selector)
  }

  predicate AllDocumented(kept: seq<SourceFile>)
  {
    forall i :: 0 <= i < |kept| ==> kept[i].comments != []
  }

  /** One descriptor per file, built from its first comment block only. */
  function DescribeAll(kept: seq<SourceFile>): seq<Handler>
    requires AllDocumented(kept)
  {
    seq(|kept|, i requires 0 <= i < |kept| => Describe(kept[i].path, kept[i].comments[0]))
  }

  /** The descriptors the selector lets through, in order. */
  function Pick(hs: seq<Handler>, selector: Option<string>): (r: seq<Handler>)
    ensures |r| <= |hs|
  {
    if hs == [] then []
    else
      var last := hs[|hs| - 1];
      Pick(hs[..|hs| - 1], selector) + (if Selects(selector, last) then [last] else [])
  }

  /** A descriptor is kept exactly when it is among the input and the selector lets it through. */
  lemma {:induction false} PickMembers(hs: seq<Handler>, selector: Option<string>)
    ensures forall h :: h in Pick(hs, selector) <==> h in hs && Selects(selector, h)
  {
    if hs != [] {
      var n := |hs| - 1;
      PickMembers(hs[..n], selector);
      assert hs == hs[..n] + [hs[n]];
    }
  }

  /** Without a selector in force every descriptor is kept, in order. */
  lemma {:induction false} PickWithoutSelector(hs: seq<Handler>, selector: Option<string>)
    requires !SelectorActive(selector)
    ensures Pick(hs, selector) == hs
  {
    if hs != [] {
      PickWithoutSelector(hs[..|hs| - 1], selector);
      assert hs == hs[..|hs| - 1] + [hs[|hs| - 1]];
    }
  }

  /**
   * With a selector in force exactly the descriptors of that name are kept:
   * every one kept carries it and none carrying it is dropped. No match is
   * an empty result, not an error.
   */
  lemma PickWithSelector(hs: seq<Handler>, selector: Option<string>)
    requires SelectorActive(selector)
    ensures forall h :: h in Pick(hs, selector) ==> h.name == selector
    ensures forall h :: h in hs && h.name == selector ==> h in Pick(hs, selector)
    ensures (forall h :: h in hs ==> h.name != selector) ==> Pick(hs, selector) == []
  {
    PickMembers(hs, selector);
    if Pick(hs, selector) != [] {
      assert Pick(hs, selector)[0] in Pick(hs, selector);
    }
  }

  /**
   * Discovery succeeds exactly when every handler file has a doc-comment
   * block, and then yields the descriptors of the files the selector lets
   * through, in file order.
   */
  lemma {:induction false} CollectFound(kept: seq<SourceFile>, selector: Option<string>)
    ensures Collect(kept, selector).Found? <==> AllDocumented(kept)
    ensures AllDocumented(kept) ==> Collect(kept, selector) == Found(Pick(DescribeAll(kept), selector))
  {
    if kept != [] {
      var n := |kept| - 1;
      var prefix := kept[..n];
      CollectFound(prefix, selector);
      if AllDocumented(kept) {
        CollectStep(kept, selector);
      } else if AllDocumented(prefix) {
        assert kept[n].comments == [] by {
          forall i | 0 <= i < n ensures kept[i].comments != [] { assert prefix[i] == kept[i]; }
        }
      }
    }
  }

  /** One step of `CollectFound` for a documented file. */
  lemma CollectStep(kept: seq<SourceFile>, selector: Option<string>)
    requires kept != [] && AllDocumented(kept)
    requires Collect(kept[..|kept| - 1], selector) == Found(Pick(DescribeAll(kept[..|kept| - 1]), selector))
    ensures Collect(kept, selector) == Found(Pick(DescribeAll(kept), selector))
  {
    var n := |kept| - 1;
    var prefix := kept[..n];
    var all := DescribeAll(kept);
    var h := Describe(kept[n].path, kept[n].comments[0]);
    assert all[..n] == DescribeAll(prefix);
    assert all[n] == h;
    assert Pick(all, selector) == Pick(DescribeAll(prefix), selector) + (if Selects(selector, h) then [h] else []);
  }

  /** The first handler file without a comment block ends discovery with its path. */
  lemma {:induction false} CollectStopsAtFirstUndocumented(kept: seq<SourceFile>, selector: Option<string>, i: int)
    requires 0 <= i < |kept| && kept[i].comments == []
    requires AllDocumented(kept[..i])
    ensures Collect(kept, selector) == NoDocComment(kept[i].path)
  {
    var n := |kept| - 1;
    if i == n {
      CollectFound(kept[..n], selector);
    } else {
      assert kept[..n][..i] == kept[..i];
      CollectStopsAtFirstUndocumented(kept[..n], selector, i);
    }
  }

  /** `getHandlers` after a successful scan: the filter, then the loop over the kept files. */
  method GetHandlers(files: seq<SourceFile>, selector: Option<string>) returns (r: DiscoveryResult)
    ensures r == Discover(files, selector)
  {
    var kept := HandlerFiles(files);
    var handlers: seq<Handler> := [];
    for i := 0 to |kept|
      invariant AllDocumented(kept[..i])
      invariant Collect(kept[..i], selector) == Found(handlers)
    {
      var file := kept[i];
      assert kept[..i + 1][..i] == kept[..i];
      if file.comments == [] {
        CollectStopsAtFirstUndocumented(kept, selector, i);
        return NoDocComment(file.path);
      }
      var h := BuildDescriptor(file.path, file.comments[0]);
      if selector.Some? && selector.value != "" {
        if h.name == Some(selector.value) {
          handlers := handlers + [h];
        }
      } else {
        handlers := handlers + [h];
      }
    }
    assert kept[..|kept|] == kept;
    r := Found(handlers);
  }

  /** The tags of the comment block of lib/v1/handlers/ping.js. */
  const PingTags := [
    Tag("return", "{String} \"pong\""),
    Tag("handler", "v1_ping"),
    Tag("description", "v1 ping test"),
    Tag("role", "arn:aws:iam::739159924836:role/lambda_basic_execution")]

  const PingFile := SourceFile("lib/v1/handlers/ping.js", [PingTags])

  /** A helper beside the handlers, without any doc comment. */
  const UtilFile := SourceFile("lib/v1/util.js", [])

  const PingHandler := Handler("lib/v1/handlers/ping.js", Some("v1_ping"), Some("v1_ping"), Some("v1 ping test"),
                               Some("arn:aws:iam::739159924836:role/lambda_basic_execution"))

  lemma PingDescriptor()
    ensures Describe(PingFile.path, PingTags) == PingHandler
  {
    var path := PingFile.path;
    var empty := Handler(path, None, None, None, None);
    assert PingTags[..1][..0] == [];
    assert Describe(path, PingTags[..1]) == empty;
    assert PingTags[..2][..1] == PingTags[..1];
    assert Describe(path, PingTags[..2]) == empty.(name := Some("v1_ping"), functionName := Some("v1_ping"));
    assert PingTags[..3][..2] == PingTags[..2];
    assert PingTags[..4] == PingTags;
  }

  lemma PingFilesFiltered()
    ensures HandlerFiles([PingFile, UtilFile]) == [PingFile]
  {
    assert HandlersDirAt(PingFile.path, 6);
    assert !IsHandlerPath(UtilFile.path) by {
      forall i | 0 <= i <= |UtilFile.path| - |HandlersDir| ensures !HandlersDirAt(UtilFile.path, i) {
        assert UtilFile.path[i + 1] != 'h';
        assert HandlersDir[1] == 'h';
      }
    }
    assert [PingFile, UtilFile][..1] == [PingFile];
    assert [PingFile][..0] == [];
  }

  /**
   * A scan finding the ping handler and a helper outside `handlers/` with no
   * doc comment: only the handler yields a descriptor, the helper's missing
   * comment does no harm, and selecting another name yields nothing.
   */
  lemma PingHandlerDiscovered()
    ensures Discover([PingFile, UtilFile], None) == Found([PingHandler])
    ensures Discover([PingFile, UtilFile], Some("v1_ping")) == Found([PingHandler])
    ensures Discover([PingFile, UtilFile], Some("")) == Found([PingHandler])
    ensures Discover([PingFile, UtilFile], Some("v1_pong")) == Found([])
  {
    PingFilesFiltered();
    PingDescriptor();
    assert [PingFile][..0] == [];
    assert PingFile.comments[0] == PingTags;
    assert Collect([PingFile], None) == Found([PingHandler]);
    assert Collect([PingFile], Some("v1_ping")) == Found([PingHandler]);
    assert Collect([PingFile], Some("")) == Found([PingHandler]);
    assert Collect([PingFile], Some("v1_pong")) == Found([]);
  }

}

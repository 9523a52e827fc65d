/** The create-image handler: pulls an image under the domain the resolver
    names and retags it to the name the client asked for, or imports one;
    a backend error is returned while nothing is flushed and written into
    the stream afterwards. */
module ImageCreate {
  import opened ImageReference
  import opened RegistryResolver
  import opened Output

  datatype Option<T> = None | Some(value: T)

  /** An error value; only its identity matters here. */
  datatype Error = Error(message: string)

  datatype Result<T> = Ok(value: T) | Err(error: Error)

  datatype Platform = Platform(os: string, architecture: string, variant: string)

  /** Form values and header values: a name maps to its values in order. */
  type Values = map<string, seq<string>>

  /** The request: its parsed form, its headers, and the API version it
      negotiated. */
  datatype Request = Request(form: Values, headers: Values, version: string)

  /** Headers with this prefix are forwarded to the backend. */
  const MetaPrefix := "X-Meta-"
  /** Requests from this API version on may name a platform. */
  const PlatformMinVersion := "1.32"

  /** The first value of a form field, or "" (`url.Values.Get`). */
  function FormGet(form: Values, key: string): string {
    if key in form && |form[key]| > 0 then form[key][0] else ""
  }

  /** All values of a form field, none when it is absent. */
  function FormValues(form: Values, key: string): seq<string> {
    if key in form then form[key] else []
  }

  /** What a streaming backend call did to the sink, and the error it
      returned. */
  datatype Streamed = Streamed(events: seq<SinkEvent>, err: Option<Error>)

  /** The name a retag reports and the error it returned. */
  datatype Retagged = Retagged(name: string, err: Option<Error>)

  /** Library code the handler calls and that is not part of this model.
      `familiar` is `FamiliarString` of what `ParseNormalizedNamed` gives
      for a reference, or None when the reference does not parse. */
  datatype Library = Library(
    parseForm: Request -> Option<Error>,
    versionAtLeast: (string, string) -> bool,
    parsePlatform: string -> Result<Platform>,
    validatePlatform: Platform -> Option<Error>,
    familiar: string -> Option<string>,
    formatError: Error -> string)

  /** The collaborators the handler talks to: the resolver process behind
      the unix socket (by URL) and the image backend. */
  datatype Backend = Backend(
    resolver: string -> Reply,
    pull: (string, string, Option<Platform>, Values) -> Streamed,
    tag: (string, string, string) -> Retagged,
    delete: (string, bool, bool) -> Option<Error>,
    importImage: (string, string, string, string, string, seq<string>) -> Streamed)

  /** A call the handler makes to a collaborator. */
  datatype Call =
    | ResolveCall(url: string)
    | PullCall(ref: string, tag: string, platform: Option<Platform>, metaHeaders: Values)
    | TagCall(src: string, repo: string, tag: string)
    | DeleteCall(ref: string, force: bool, prune: bool)
    | ImportCall(src: string, repo: string, os: string, tag: string, message: string, changes: seq<string>)

  /** What a backend step streamed, the calls it made in order, and whether
      it panicked before finishing. */
  datatype Step = Step(streamed: Streamed, calls: seq<Call>, panicked: bool)

  /** How the handler ends: it returns a result, or it panics. Either way
      it has made its calls and left the sink in some state. */
  datatype Outcome =
    | Returned(result: Option<Error>, calls: seq<Call>, sink: SinkState)
    | Panicked(calls: seq<Call>, sink: SinkState)

  // ---------------------------------------------------------------------
  // Meta headers
  // ---------------------------------------------------------------------

  /** The headers forwarded to a pull. */
  function MetaHeaders(headers: Values): Values {
    map k | k in headers && MetaPrefix <= k :: headers[k]
  }

  /** Collects the `X-Meta-` headers: exactly the headers whose name has
      the prefix, each with all its values. */
  method FilterMetaHeaders(headers: Values) returns (metaHeaders: Values)
    ensures forall k :: k in metaHeaders <==> k in headers && MetaPrefix <= k
    ensures forall k :: k in metaHeaders ==> metaHeaders[k] == headers[k]
  {
    metaHeaders := map[];
    var pending := headers.Keys;
    while pending != {}
      invariant pending <= headers.Keys
      invariant forall k :: k in metaHeaders <==> k in headers && k !in pending && MetaPrefix <= k
      invariant forall k :: k in metaHeaders ==> metaHeaders[k] == headers[k]
      decreases pending
    {
      var k :| k in pending;
      if MetaPrefix <= k {
        metaHeaders := metaHeaders[k := headers[k]];
      }
      pending := pending - {k};
    }
  }

  /** A map with exactly the prefixed headers and their values is the
      filtered header map. */
  lemma MetaHeadersFiltered(headers: Values, metaHeaders: Values)
    requires forall k :: k in metaHeaders <==> k in headers && MetaPrefix <= k
    requires forall k :: k in metaHeaders ==> metaHeaders[k] == headers[k]
    ensures metaHeaders == MetaHeaders(headers)
  {
  }

  // ---------------------------------------------------------------------
  // The handler, as a function of its inputs
  // ---------------------------------------------------------------------

  /** The platform the request asks for. From API 1.32 on a non-empty
      platform field is parsed and validated, and a failure of either is
      the error; otherwise no platform is used. */
  function RequestedPlatform(req: Request, lib: Library): (r: Result<Option<Platform>>)
    ensures r == Ok(None) <==>
      !lib.versionAtLeast(req.version, PlatformMinVersion) || FormGet(req.form, "platform") == ""
    ensures forall p :: r == Ok(Some(p)) ==>
      lib.versionAtLeast(req.version, PlatformMinVersion) &&
      lib.parsePlatform(FormGet(req.form, "platform")) == Ok(p) &&
      lib.validatePlatform(p).None?
    ensures r.Err? ==>
      var parsed := lib.parsePlatform(FormGet(req.form, "platform"));
      lib.versionAtLeast(req.version, PlatformMinVersion) && FormGet(req.form, "platform") != "" &&
      (parsed == Err(r.error) || (parsed.Ok? && lib.validatePlatform(parsed.value) == Some(r.error)))
  {
    var apiPlatform := FormGet(req.form, "platform");
    if !lib.versionAtLeast(req.version, PlatformMinVersion) || apiPlatform == "" then Ok(None)
    else
      match lib.parsePlatform(apiPlatform)
      case Err(e) => Err(e)
      case Ok(sp) =>
        match lib.validatePlatform(sp)
        case Some(e) => Err(e)
        case None => Ok(Some(sp))
  }

  /** The request gets past form parsing and the platform check. */
  predicate ReachesBackend(req: Request, lib: Library) {
    lib.parseForm(req).None? && RequestedPlatform(req, lib).Ok?
  }

  /** The rewritten reference a pull of `image:tag` uses. */
  function PullReference(req: Request, be: Backend): string {
    var image := FormGet(req.form, "fromImage");
    var tag := FormGet(req.form, "tag");
    ConvertImageTag(ResolvedDomain(be.resolver(ResolverUrl(image + ":" + tag))), image)
  }

  /** The intermediate reference `newImage:tag` of a pull. */
  function IntermediateReference(req: Request, be: Backend): string {
    PullReference(req, be) + ":" + FormGet(req.form, "tag")
  }

  /** The pull path: resolve, rewrite, pull and retag; then take the
      familiar form of the intermediate reference, which panics when the
      reference does not parse, and delete the intermediate tag when the
      retag reports another name. */
  function PullStep(req: Request, lib: Library, be: Backend, platform: Option<Platform>): (s: Step)
    ensures var src := IntermediateReference(req, be);
      var reported := be.tag(src, FormGet(req.form, "fromImage"), FormGet(req.form, "tag")).name;
      s.streamed == be.pull(PullReference(req, be), FormGet(req.form, "tag"), platform, MetaHeaders(req.headers)) &&
      (s.panicked <==> lib.familiar(src).None?) &&
      (|s.calls| == 4 <==> lib.familiar(src).Some? && reported != lib.familiar(src).value) &&
      3 <= |s.calls| <= 4 && s.calls[2] == TagCall(src, FormGet(req.form, "fromImage"), FormGet(req.form, "tag")) &&
      (|s.calls| == 4 ==> s.calls[3] == DeleteCall(src, false, true))
  {
    var image := FormGet(req.form, "fromImage");
    var tag := FormGet(req.form, "tag");
    var newImage := PullReference(req, be);
    var metaHeaders := MetaHeaders(req.headers);
    var srcTotalImage := newImage + ":" + tag;
    var calls := [ResolveCall(ResolverUrl(image + ":" + tag)),
                  PullCall(newImage, tag, platform, metaHeaders),
                  TagCall(srcTotalImage, image, tag)];
    var pulled := be.pull(newImage, tag, platform, metaHeaders);
    match lib.familiar(srcTotalImage)
    case None => Step(pulled, calls, true)
    case Some(familiar) =>
      if be.tag(srcTotalImage, image, tag).name != familiar
      then Step(pulled, calls + [DeleteCall(srcTotalImage, false, true)], false)
      else Step(pulled, calls, false)
  }

  /** The import path: a single import call, of the source, repository,
      tag, message and changes of the form and the platform's OS (or ""),
      and the stream is what that import wrote. */
  function ImportStep(req: Request, be: Backend, platform: Option<Platform>): (s: Step)
    ensures !s.panicked && |s.calls| == 1 && s.calls[0].ImportCall?
    ensures var call := s.calls[0];
      call.src == FormGet(req.form, "fromSrc") && call.repo == FormGet(req.form, "repo") &&
      call.tag == FormGet(req.form, "tag") && call.message == FormGet(req.form, "message") &&
      call.changes == FormValues(req.form, "changes") &&
      call.os == (if platform.Some? then platform.value.os else "") &&
      s.streamed == be.importImage(call.src, call.repo, call.os, call.tag, call.message, call.changes)
  {
    var os := if platform.Some? then platform.value.os else "";
    var call := ImportCall(FormGet(req.form, "fromSrc"), FormGet(req.form, "repo"), os,
                           FormGet(req.form, "tag"), FormGet(req.form, "message"),
                           FormValues(req.form, "changes"));
    Step(be.importImage(call.src, call.repo, call.os, call.tag, call.message, call.changes), [call], false)
  }

  /** The backend step the request takes: pull when it names an image. */
  function BackendStep(req: Request, lib: Library, be: Backend, platform: Option<Platform>): Step {
    if FormGet(req.form, "fromImage") != "" then PullStep(req, lib, be, platform) else ImportStep(req, be, platform)
  }

  /** The flush-aware error policy. With no backend error the stream is
      left as the backend wrote it. A backend error is returned as the
      result when the backend flushed nothing, and is otherwise appended
      to the stream, formatted, while the result is nil. */
  function Report(streamed: Streamed, calls: seq<Call>, lib: Library): (o: Outcome)
    ensures o.Returned? && o.calls == calls
    ensures streamed.err.None? ==> o.result.None? && o.sink == Apply(Unstarted, streamed.events)
    ensures streamed.err.Some? && FlushEvent !in streamed.events ==>
      o.result == streamed.err && !o.sink.flushed && o.sink.written == Apply(Unstarted, streamed.events).written
    ensures streamed.err.Some? && FlushEvent in streamed.events ==>
      o.result.None? && o.sink.flushed &&
      o.sink.written == Apply(Unstarted, streamed.events).written + lib.formatError(streamed.err.value)
  {
    ApplyExtends(Unstarted, streamed.events);
    var state := Apply(Unstarted, streamed.events);
    match streamed.err
    case None => Returned(None, calls, state)
    case Some(e) =>
      if !state.flushed then Returned(Some(e), calls, state)
      else Returned(None, calls, state.(written := state.written + lib.formatError(e)))
  }

  /** postImagesCreate, as a function of the request and its collaborators.
      It never answers with an error once bytes were flushed. */
  function Create(req: Request, lib: Library, be: Backend): (o: Outcome)
    ensures o.Returned? && o.result.Some? ==> !o.sink.flushed
    ensures o.Panicked? ==> ReachesBackend(req, lib) && FormGet(req.form, "fromImage") != ""
  {
    match lib.parseForm(req)
    case Some(e) => Returned(Some(e), [], Unstarted)
    case None =>
      match RequestedPlatform(req, lib)
      case Err(e) => Returned(Some(e), [], Unstarted)
      case Ok(platform) =>
        var step := BackendStep(req, lib, be, platform);
        if step.panicked then Panicked(step.calls, Apply(Unstarted, step.streamed.events))
        else Report(step.streamed, step.calls, lib)
  }

  /** The handler with the evident intent at the familiar-name comparison:
      when the intermediate reference does not parse, the cleanup is
      skipped and the request ends like any other. It never panics, it
      agrees with the handler wherever the handler does not panic, and a
      backend error always reaches the client once. */
  function CreateChecked(req: Request, lib: Library, be: Backend): (o: Outcome)
    ensures o.Returned?
    ensures !Create(req, lib, be).Panicked? ==> o == Create(req, lib, be)
    ensures ReachesBackend(req, lib) ==>
      var streamed := BackendStep(req, lib, be, RequestedPlatform(req, lib).value).streamed;
      streamed.err.Some? ==>
        (o.result == streamed.err && FlushEvent !in streamed.events) ||
        (o.result.None? && o.sink.written == Apply(Unstarted, streamed.events).written + lib.formatError(streamed.err.value))
  {
    match Create(req, lib, be)
    case Panicked(calls, _) =>
      Report(BackendStep(req, lib, be, RequestedPlatform(req, lib).value).streamed, calls, lib)
    case Returned(_, _, _) => Create(req, lib, be)
  }

  // ---------------------------------------------------------------------
  // The handler
  // ---------------------------------------------------------------------

  /** The pull path of postImagesCreate: returns what the pull streamed
      into output, the calls made, and whether taking the familiar form of
      the intermediate reference panicked; retag and removal errors are
      dropped. */
  method PullAndRetag(req: Request, lib: Library, be: Backend, platform: Option<Platform>, output: Sink)
    returns (pulled: Streamed, calls: seq<Call>, panicked: bool)
    modifies output
    ensures Step(pulled, calls, panicked) == PullStep(req, lib, be, platform)
    ensures output.State() == Apply(old(output.State()), pulled.events)
  {
    var image := FormGet(req.form, "fromImage");
    var tag := FormGet(req.form, "tag");
    var metaHeaders := FilterMetaHeaders(req.headers);
    MetaHeadersFiltered(req.headers, metaHeaders);

    // 1. ask the resolver for the registry and rewrite the name
    var url := ResolverUrl(image + ":" + tag);
    calls := [ResolveCall(url)];
    var registryUrl := GetRegistryUrl(be.resolver(url));
    var newImage := ConvertImageTag(registryUrl, image);
    assert newImage == PullReference(req, be);

    // 2. pull the rewritten name; the backend streams into output
    calls := calls + [PullCall(newImage, tag, platform, metaHeaders)];
    pulled := be.pull(newImage, tag, platform, metaHeaders);
    output.Replay(pulled.events);

    // 3. retag to the name asked for; a retag error is only logged
    var srcTotalImage := newImage + ":" + tag;
    calls := calls + [TagCall(srcTotalImage, image, tag)];
    assert calls == [ResolveCall(url), PullCall(newImage, tag, platform, metaHeaders), TagCall(srcTotalImage, image, tag)];
    var retagged := be.tag(srcTotalImage, image, tag);

    // 4. the familiar form of a reference that did not parse panics
    var familiar := lib.familiar(srcTotalImage);
    if familiar.None? {
      return pulled, calls, true;
    }
    panicked := false;

    // 5. remove the intermediate tag; a removal error is only logged
    if retagged.name != familiar.value {
      calls := calls + [DeleteCall(srcTotalImage, false, true)];
      var removeError := be.delete(srcTotalImage, false, true);
    }
  }

  /** The import path of postImagesCreate. */
  method Import(req: Request, be: Backend, platform: Option<Platform>, output: Sink)
    returns (imported: Streamed, calls: seq<Call>)
    modifies output
    ensures Step(imported, calls, false) == ImportStep(req, be, platform)
    ensures output.State() == Apply(old(output.State()), imported.events)
  {
    var src := FormGet(req.form, "fromSrc");
    var repo := FormGet(req.form, "repo");
    var tag := FormGet(req.form, "tag");
    var message := FormGet(req.form, "message");
    var os := "";
    if platform.Some? {
      os := platform.value.os;
    }
    var changes := FormValues(req.form, "changes");
    calls := [ImportCall(src, repo, os, tag, message, changes)];
    imported := be.importImage(src, repo, os, tag, message, changes);
    output.Replay(imported.events);
  }

  /** postImagesCreate over a freshly wrapped response writer. */
  method PostImagesCreate(req: Request, lib: Library, be: Backend, output: Sink)
    returns (panicked: bool, err: Option<Error>, calls: seq<Call>)
    requires output.State() == Unstarted
    modifies output
    ensures panicked == Create(req, lib, be).Panicked?
    ensures !panicked ==> err == Create(req, lib, be).result
    ensures calls == Create(req, lib, be).calls
    ensures output.State() == Create(req, lib, be).sink
  {
    calls := [];
    panicked := false;
    var formError := lib.parseForm(req);
    if formError.Some? {
      return false, formError, calls;
    }
    var image := FormGet(req.form, "fromImage");
    var platform: Option<Platform> := None;

    if lib.versionAtLeast(req.version, PlatformMinVersion) {
      var apiPlatform := FormGet(req.form, "platform");
      if apiPlatform != "" {
        var parsed := lib.parsePlatform(apiPlatform);
        if parsed.Err? {
          return false, Some(parsed.error), calls;
        }
        var invalid := lib.validatePlatform(parsed.value);
        if invalid.Some? {
          return false, invalid, calls;
        }
        platform := Some(parsed.value);
      }
    }

    var streamed: Streamed;
    if image != "" {
      streamed, calls, panicked := PullAndRetag(req, lib, be, platform, output);
      if panicked {
        return true, None, calls;
      }
    } else {
      streamed, calls := Import(req, be, platform, output);
    }
    var streamError := streamed.err;

    if streamError.Some? {
      if !output.Flushed() {
        return false, streamError, calls;
      }
      output.Write(lib.formatError(streamError.value));
    }
    return false, None, calls;
  }

  // ---------------------------------------------------------------------
  // Properties of the handler
  // ---------------------------------------------------------------------

  /** A form or platform failure is returned as the result before any
      collaborator is called and before anything is written. */
  lemma EarlyFailureStopsRequest(req: Request, lib: Library, be: Backend)
    requires !ReachesBackend(req, lib)
    ensures Create(req, lib, be).Returned?
    ensures Create(req, lib, be).calls == []
    ensures Create(req, lib, be).sink == Unstarted
    ensures lib.parseForm(req).Some? ==> Create(req, lib, be).result == lib.parseForm(req)
    ensures lib.parseForm(req).None? ==> Create(req, lib, be).result == Some(RequestedPlatform(req, lib).error)
  {
  }

  /** A request naming an image is pulled: the resolver is asked for
      `image:tag`, the rewritten name is pulled with the meta headers, and
      then retagged to the name asked for. */
  lemma PullPathCalls(req: Request, lib: Library, be: Backend)
    requires ReachesBackend(req, lib)
    requires FormGet(req.form, "fromImage") != ""
    ensures var image := FormGet(req.form, "fromImage");
      var tag := FormGet(req.form, "tag");
      var newImage := PullReference(req, be);
      var calls := Create(req, lib, be).calls;
      3 <= |calls| <= 4 &&
      calls[..3] == [ResolveCall(ResolverUrl(image + ":" + tag)),
                     PullCall(newImage, tag, RequestedPlatform(req, lib).value, MetaHeaders(req.headers)),
                     TagCall(newImage + ":" + tag, image, tag)]
  {
  }

  /** A request without an image is imported: one import call, and neither
      the resolver (so neither the rewriter) nor pull, retag or delete has
      any bearing on the outcome; the import path never panics. */
  lemma ImportPathCalls(req: Request, lib: Library, be: Backend, resolver: string -> Reply,
                        pull: (string, string, Option<Platform>, Values) -> Streamed,
                        tag: (string, string, string) -> Retagged, delete: (string, bool, bool) -> Option<Error>)
    requires ReachesBackend(req, lib)
    requires FormGet(req.form, "fromImage") == ""
    ensures Create(req, lib, be).Returned?
    ensures var platform := RequestedPlatform(req, lib).value;
      Create(req, lib, be).calls ==
        [ImportCall(FormGet(req.form, "fromSrc"), FormGet(req.form, "repo"),
                    if platform.Some? then platform.value.os else "",
                    FormGet(req.form, "tag"), FormGet(req.form, "message"), FormValues(req.form, "changes"))]
    ensures Create(req, lib, be.(resolver := resolver, pull := pull, tag := tag, delete := delete)) == Create(req, lib, be)
  {
  }

  /** The handler panics exactly when a pull's intermediate reference
      `newImage:tag` does not parse. It has then pulled and retagged, but
      deletes nothing, and the pull's error is neither returned nor
      written: the stream holds only what the pull wrote. */
  lemma PanicOnUnparsableReference(req: Request, lib: Library, be: Backend)
    requires ReachesBackend(req, lib)
    ensures Create(req, lib, be).Panicked? <==>
      FormGet(req.form, "fromImage") != "" && lib.familiar(IntermediateReference(req, be)).None?
    ensures Create(req, lib, be).Panicked? ==>
      var pulled := be.pull(PullReference(req, be), FormGet(req.form, "tag"),
                            RequestedPlatform(req, lib).value, MetaHeaders(req.headers));
      |Create(req, lib, be).calls| == 3 &&
      Create(req, lib, be).sink == Apply(Unstarted, pulled.events)
  {
  }

  /** The intermediate tag `newImage:tag` is deleted, without force and
      with pruning, exactly when it parses and the retag reports a name
      other than its familiar form; the deletion is the last call and no
      other reference is ever deleted. */
  lemma DeletePolicy(req: Request, lib: Library, be: Backend)
    requires ReachesBackend(req, lib)
    ensures var image := FormGet(req.form, "fromImage");
      var tag := FormGet(req.form, "tag");
      var src := IntermediateReference(req, be);
      var calls := Create(req, lib, be).calls;
      ((exists k :: 0 <= k < |calls| && calls[k].DeleteCall?) <==>
        image != "" && lib.familiar(src).Some? && be.tag(src, image, tag).name != lib.familiar(src).value) &&
      (forall k :: 0 <= k < |calls| && calls[k].DeleteCall? ==>
        k == |calls| - 1 && calls[k] == DeleteCall(src, false, true))
  {
    var image := FormGet(req.form, "fromImage");
    var tag := FormGet(req.form, "tag");
    var src := IntermediateReference(req, be);
    var calls := Create(req, lib, be).calls;
    if image != "" && lib.familiar(src).Some? && be.tag(src, image, tag).name != lib.familiar(src).value {
      assert calls[3].DeleteCall?;
    }
  }

  /** Retag and removal errors never reach the client: the outcome depends
      on the retag only through the name it reports, and not on removal. */
  lemma BookkeepingErrorsIgnored(req: Request, lib: Library, be: Backend,
                                 tag: (string, string, string) -> Retagged, delete: (string, bool, bool) -> Option<Error>)
    requires forall src, repo, t :: tag(src, repo, t).name == be.tag(src, repo, t).name
    ensures Create(req, lib, be.(tag := tag, delete := delete)) == Create(req, lib, be)
  {
  }

  /** The flush-aware error policy for every request that reaches the
      backend and does not panic. */
  lemma FlushAwareErrorPolicy(req: Request, lib: Library, be: Backend)
    requires ReachesBackend(req, lib)
    requires !BackendStep(req, lib, be, RequestedPlatform(req, lib).value).panicked
    ensures var streamed := BackendStep(req, lib, be, RequestedPlatform(req, lib).value).streamed;
      var streamedState := Apply(Unstarted, streamed.events);
      var o := Create(req, lib, be);
      o.Returned? &&
      (streamed.err.None? ==> o.result.None? && o.sink == streamedState) &&
      (streamed.err.Some? && FlushEvent !in streamed.events ==>
        o.result == streamed.err && !o.sink.flushed && o.sink.written == streamedState.written) &&
      (streamed.err.Some? && FlushEvent in streamed.events ==>
        o.result.None? && o.sink.flushed &&
        o.sink.written == streamedState.written + lib.formatError(streamed.err.value))
  {
  }

  /** Whatever the handler leaves in the stream begins with what the
      backend wrote. */
  lemma StreamExtendsBackendOutput(req: Request, lib: Library, be: Backend)
    requires ReachesBackend(req, lib)
    ensures Apply(Unstarted, BackendStep(req, lib, be, RequestedPlatform(req, lib).value).streamed.events).written
        <= Create(req, lib, be).sink.written
  {
  }

  /** A pull with an empty tag of `nginx` that the resolver sends to
      `myreg.io`, where the reference library rejects the intermediate
      reference `myreg.io/library/nginx:` and the pull fails before
      flushing: the handler panics, so the pull's error is lost, while the
      corrected handler returns it. */
  lemma PanicOnEmptyTag(req: Request, lib: Library, be: Backend)
    requires lib.parseForm(req).None?
    requires FormGet(req.form, "fromImage") == "nginx" && FormGet(req.form, "tag") == ""
    requires FormGet(req.form, "platform") == ""
    requires be.resolver(ResolverUrl("nginx:")) == Response(200, "myreg.io", BufferSize)
    requires lib.familiar("myreg.io/library/nginx:").None?
    requires var pulled := be.pull("myreg.io/library/nginx", "", None, MetaHeaders(req.headers));
      pulled.err.Some? && FlushEvent !in pulled.events
    ensures Create(req, lib, be).Panicked?
    ensures CreateChecked(req, lib, be).result ==
      be.pull("myreg.io/library/nginx", "", None, MetaHeaders(req.headers)).err
  {
    ScenarioNames();
    RewriteBareName("myreg.io", "nginx");
    assert PullReference(req, be) == "myreg.io/library/nginx";
    assert IntermediateReference(req, be) == "myreg.io/library/nginx:";
  }

  /** Facts about the literal names of the pull scenarios. */
  lemma ScenarioNames()
    ensures '/' !in "nginx"
    ensures "nginx" + ":" + "latest" == "nginx:latest"
    ensures "nginx" + ":" + "" == "nginx:"
    ensures "myreg.io" + "/" + DefaultUserName + "/" + "nginx" == "myreg.io/library/nginx"
    ensures "myreg.io/library/nginx" + ":" + "" == "myreg.io/library/nginx:"
    ensures "myreg.io/library/nginx" + ":" + "latest" == "myreg.io/library/nginx:latest"
    ensures |"myreg.io"| <= BufferSize
  {
  }

  /** A pull of `nginx:latest` that the resolver sends to `myreg.io`, where
      the intermediate reference parses: the backend pulls
      `myreg.io/library/nginx`, the result is retagged to `nginx:latest`,
      and the intermediate tag is deleted exactly when the retag reports a
      name other than its familiar form. If the pull fails after the stream
      was flushed, the result is still nil and the stream ends with the
      formatted error. */
  lemma ScenarioPullFromResolvedRegistry(req: Request, lib: Library, be: Backend)
    requires lib.parseForm(req).None?
    requires FormGet(req.form, "fromImage") == "nginx" && FormGet(req.form, "tag") == "latest"
    requires FormGet(req.form, "platform") == ""
    requires be.resolver(ResolverUrl("nginx:latest")) == Response(200, "myreg.io", BufferSize)
    requires lib.familiar("myreg.io/library/nginx:latest").Some?
    ensures var pulled := be.pull("myreg.io/library/nginx", "latest", None, MetaHeaders(req.headers));
      var retagged := be.tag("myreg.io/library/nginx:latest", "nginx", "latest");
      var o := Create(req, lib, be);
      o.Returned? &&
      o.calls[1] == PullCall("myreg.io/library/nginx", "latest", None, MetaHeaders(req.headers)) &&
      o.calls[2] == TagCall("myreg.io/library/nginx:latest", "nginx", "latest") &&
      (|o.calls| == 4 <==> retagged.name != lib.familiar("myreg.io/library/nginx:latest").value) &&
      (pulled.err.None? ==> o.result.None? && o.sink == Apply(Unstarted, pulled.events)) &&
      (pulled.err.Some? && FlushEvent in pulled.events ==>
        o.result.None? && o.sink.written == Apply(Unstarted, pulled.events).written + lib.formatError(pulled.err.value))
  {
    ScenarioNames();
    RewriteBareName("myreg.io", "nginx");
    assert PullReference(req, be) == "myreg.io/library/nginx";
    assert IntermediateReference(req, be) == "myreg.io/library/nginx:latest";
    PullPathCalls(req, lib, be);
    FlushAwareErrorPolicy(req, lib, be);
  }
}

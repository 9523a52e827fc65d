# Pull redirection in the image routes of the Docker API server

This project models, in Dafny, the pull-redirection layer that sits in
front of the image backend in `api/server/router/image/image_routes.go`.
A client asks to create an image by a possibly short name such as
`nginx:latest`. The layer does four things:

1. It asks a local resolver process which registry domain should serve the
   image (`getRegistryUrl`). It falls back to `docker.io`.
2. It rewrites the name into a fully qualified reference under that domain
   (`convertImageTag`).
3. It pulls the rewritten reference.
4. It retags the result to the name the client asked for, and removes the
   intermediate tag when the name the retag reports differs from the
   familiar form of the intermediate reference.

A request that names no image imports one instead. A backend error is
returned while nothing has been flushed to the client. After that it is
written into the stream.

Modules:

- `GoStrings` (`go_strings.dfy`): the Go `strings` functions the rewriter
  uses (`Count`, `IndexRune`, `ContainsAny`).
- `ImageReference` (`reference.dfy`): `ConvertImageTag`, and a second,
  independent reading of its rules segment by segment (`SplitPath`,
  `RepositoryPath`, `RewriteSegments`). The two are proved equal on every
  name. Their consequences are also proved: the per-case rules, that the
  result is fully qualified, and that, when the first domain has no `/`,
  swapping the domain of a rewritten reference gives the same result as
  rewriting the original name (idempotence follows from this).
- `RegistryResolver` (`resolver.dfy`): the exchange over the unix socket is
  an input value `Reply` (`RequestFailure` or `Response(status, body,
  delivered)`). `GetRegistryUrl` fills a 32-byte array from one read of the
  body and is proved equal to the decision function `ResolvedDomain`.
- `Output` (`output.dfy`): the streaming sink, a class with a `flushed`
  flag and the bytes written. A backend writes into the sink during a call.
  These writes are given as a sequence of write and flush events that
  `Sink.Replay` carries out.
- `ImageCreate` (`create.dfy`): `postImagesCreate`. The imperative handler
  `PostImagesCreate` and its helpers `PullAndRetag`, `Import` and
  `FilterMetaHeaders` are proved equal to the functional description
  `Create`. `Create` says whether the handler returns or panics, and gives the
  result, the calls made to collaborators in order, and the final sink. The
  lemmas state the path choice, when the handler panics, the deletion rule,
  that retag and removal errors are ignored, and the flush-aware error
  policy. `CreateChecked` is the handler without the panic.

The collaborators are inputs:

- **Backend calls** (`Backend`): Pull, Tag, Delete and Import, and the
  resolver reached through the socket. Each is a function of its
  arguments.
- **Library functions** (`Library`): code the handler calls whose source is
  not part of this model. These are form parsing,
  `versions.GreaterThanOrEqualTo`, `platforms.Parse`,
  `system.ValidatePlatform`, `FamiliarString` applied to
  `ParseNormalizedNamed`, and `streamformatter.FormatError`.

Go strings are byte strings; here each byte is one `char`.

The deletion rule compares two names. The code deletes the intermediate tag
when the name the retag reports differs from the familiar form of
`ParseNormalizedNamed(newImage + ":" + tag)` (lines 164-165), not from the
name the client asked for. The model keeps that comparison (`DeletePolicy`).
The familiar form drops the domain only for Docker Hub: `docker.io`, and the
legacy `index.docker.io`, which normalises to it. Under any other registry
the familiar form keeps its domain, so for `nginx:latest` resolved to
`myreg.io` the comparison is between the retag's reported name and
`myreg.io/library/nginx:latest`. `ScenarioPullFromResolvedRegistry` states
that example with the comparison left explicit.

When `ParseNormalizedNamed` fails, the reference it returns is nil, and
`FamiliarString` of nil panics. The outcome of the handler therefore has two
forms: it returns an error or nil (`Returned`), or it panics (`Panicked`).

## Model

| member | source | states |
|---|---|---|
| `GoStrings.Count` | api/server/router/image/image_routes.go:65 | the count is at most the length, and zero exactly when the character does not occur |
| `GoStrings.CountIsMultiplicity` | api/server/router/image/image_routes.go:65 | the count is the multiplicity of the character in the string's multiset |
| `GoStrings.IndexRune` | api/server/router/image/image_routes.go:68 | -1 exactly when the character is absent; otherwise an index holding it with no earlier occurrence |
| `GoStrings.IndexAny` | api/server/router/image/image_routes.go:72 | -1 exactly when no character of the string is in the set; otherwise the first index holding one |
| `GoStrings.ContainsAny` | api/server/router/image/image_routes.go:72 | true exactly when some character of the set occurs in the string |
| `ImageReference.LooksLikeDomain` | api/server/router/image/image_routes.go:72 | a first segment names a host exactly when it holds `.` or `:` or is `localhost` |
| `ImageReference.ConvertImageTag` | api/server/router/image/image_routes.go:63-87 | the result is empty exactly when the name has more than two `/`; otherwise it starts with `domain + "/"` |
| `ImageReference.SplitPath` | api/server/router/image/image_routes.go:65-71 | the name splits into at least one `/`-free segment, and joining them with `/` gives the name back |
| `ImageReference.ConvertBySegments` | api/server/router/image/image_routes.go:63-87 | on any path of `/`-free segments, the rewriter agrees with the segment rules: default namespace for a bare name, a one-slash name keeps a user namespace and drops a domain-like one, a two-slash name drops its first segment, more gives "" |
| `ImageReference.ConvertAgreesWithRules` | api/server/router/image/image_routes.go:63-87 | every name is rewritten by the segment rules applied to its split |
| `ImageReference.RewriteBareName` | api/server/router/image/image_routes.go:79-81 | with no `/` the result is `domain/library/image` |
| `ImageReference.RewriteOneSlash` | api/server/router/image/image_routes.go:70-78 | `a/b`: `domain/a/b` when `a` has no `.` or `:` and is not `localhost`, else `domain/library/b` |
| `ImageReference.RewriteTwoSlashes` | api/server/router/image/image_routes.go:66-69 | `a/b/c`: the first segment is dropped, giving `domain/b/c` |
| `ImageReference.RewrittenIsQualified` | api/server/router/image/image_routes.go:63-87 | a non-empty result has exactly two more `/` than the domain (domain, namespace, repository) |
| `ImageReference.Redomain` | api/server/router/image/image_routes.go:63-87 | when the first domain has no `/`, rewriting a rewritten reference under another domain equals rewriting the original name under that domain |
| `ImageReference.RewriteIdempotent` | api/server/router/image/image_routes.go:63-87 | with a `/`-free domain, rewriting twice gives the same as rewriting once |
| `ImageReference.RewriteExamples` | api/server/router/image/image_routes.go:64-85 | worked cases: `nginx`, `myuser/nginx`, `localhost/nginx`, `registry.example.com/nginx`, `oldreg.io/myuser/nginx`, and `a/b/c/d` giving "" |
| `RegistryResolver.ResolverUrl` | api/server/router/image/image_routes.go:47 | the URL is `http://dockerd/` followed by the image name with its tag, unchanged |
| `RegistryResolver.ResolvedDomain` | api/server/router/image/image_routes.go:48-60 | a failed exchange or a status other than 200 gives `docker.io`; a 200 gives a prefix of the body of at most 32 bytes; the whole body when it is short and fully delivered; exactly 32 bytes when at least that much is delivered; in every 200 case the length is 32, the number of bytes delivered, or the whole body, whichever is least |
| `RegistryResolver.GetRegistryUrl` | api/server/router/image/image_routes.go:38-61 | the 32-byte buffer filled by one read yields exactly the decided domain |
| `Output.ApplyExtends` | api/server/router/image/image_routes.go:151 | a backend's writes only append to the sink, and the sink is flushed afterwards exactly when it was before or the backend flushed |
| `Output.Sink.Flushed` | api/server/router/image/image_routes.go:184 | reports the flush flag of the sink's state |
| `Output.Sink.Write` | api/server/router/image/image_routes.go:187 | appends the bytes and leaves the flush flag alone |
| `Output.Sink.Replay` | api/server/router/image/image_routes.go:151 | the sink ends in the state the backend's events lead to |
| `ImageCreate.FilterMetaHeaders` | api/server/router/image/image_routes.go:128-133 | keeps exactly the headers whose name starts with `X-Meta-`, each with all its values |
| `ImageCreate.RequestedPlatform` | api/server/router/image/image_routes.go:112-125 | no platform exactly when the API is older than 1.32 or the field is empty; a platform only when it parses and validates; an error only from parsing or validation of a non-empty field |
| `ImageCreate.PullStep` | api/server/router/image/image_routes.go:146-171 | the pull of the rewritten name is what is streamed; a panic exactly when `newImage:tag` does not parse; a fourth call, the delete of `newImage:tag` (no force, prune), exactly when it parses and the retag reports another name than its familiar form |
| `ImageCreate.ImportStep` | api/server/router/image/image_routes.go:172-182 | one import call of the form's source, repository, tag, message and changes and the platform's OS or ""; never panics; the import's output is what is streamed |
| `ImageCreate.Report` | api/server/router/image/image_routes.go:183-190 | no error: nil and the stream as written; an error with nothing flushed is returned and the sink stays unflushed; an error after a flush gives nil and the formatted error appended |
| `ImageCreate.Create` | api/server/router/image/image_routes.go:90-191 | an error result never comes with a flushed stream; a panic only on the pull path of a request past the form and platform checks |
| `ImageCreate.PullAndRetag` | api/server/router/image/image_routes.go:146-171 | resolve, rewrite, pull, retag, the familiar-name panic and the conditional delete are exactly `PullStep`, and the sink ends as the pull left it |
| `ImageCreate.Import` | api/server/router/image/image_routes.go:172-182 | exactly `ImportStep`, and the sink ends as the import left it |
| `ImageCreate.PostImagesCreate` | api/server/router/image/image_routes.go:90-191 | whether it panics, the returned error, the calls made and the final sink are those of `Create` |
| `ImageCreate.EarlyFailureStopsRequest` | api/server/router/image/image_routes.go:92-125 | a form or platform failure is the result, no collaborator is called, nothing is written or flushed |
| `ImageCreate.PullPathCalls` | api/server/router/image/image_routes.go:127-156 | with an image named, the resolver is asked for `image:tag`, the rewritten name is pulled with the meta headers, then retagged to `image:tag` |
| `ImageCreate.ImportPathCalls` | api/server/router/image/image_routes.go:172-182 | without an image, exactly one import call, no panic, and the outcome does not depend on the resolver, pull, retag or delete |
| `ImageCreate.PanicOnUnparsableReference` | api/server/router/image/image_routes.go:164-165 | the handler panics exactly when an image is named and `newImage:tag` does not parse; it then made three calls and the stream holds only what the pull wrote |
| `ImageCreate.DeletePolicy` | api/server/router/image/image_routes.go:163-170 | `newImage:tag` is deleted (no force, prune) exactly when it parses and the retag's reported name differs from its familiar form; it is the last call and no other reference is deleted |
| `ImageCreate.BookkeepingErrorsIgnored` | api/server/router/image/image_routes.go:156-170 | the outcome depends on the retag only through its reported name and not at all on the removal |
| `ImageCreate.FlushAwareErrorPolicy` | api/server/router/image/image_routes.go:183-190 | for every request that reaches the backend without panicking: no backend error gives nil and the stream as written; an error with nothing flushed is returned; an error after a flush gives nil and the formatted error appended |
| `ImageCreate.StreamExtendsBackendOutput` | api/server/router/image/image_routes.go:183-190 | the final stream begins with what the backend wrote |
| `ImageCreate.PanicOnEmptyTag` | api/server/router/image/image_routes.go:154-165 | `nginx` with an empty tag resolved to `myreg.io`, where `myreg.io/library/nginx:` does not parse, and a pull failing before any flush: the handler panics, while the corrected handler returns the pull's error |
| `ImageCreate.CreateChecked` | api/server/router/image/image_routes.go:163-190 | never panics; equals the handler wherever the handler does not panic; a backend error is either returned with nothing flushed or appended to the stream |
| `ImageCreate.ScenarioPullFromResolvedRegistry` | api/server/router/image/image_routes.go:146-190 | `nginx:latest` resolved to `myreg.io` pulls `myreg.io/library/nginx` and retags to `nginx:latest`; delete iff the retag's name differs from the familiar form; success leaves the stream alone, a failure after a flush is appended |

## Left out

- Dialing the unix socket `/tmp/server.sock`, the `http.Client` and closing the body: network I/O. The exchange is the input `Reply`, and `ResolverUrl` builds the URL asked for.
- Logging through logrus, the request `context` and its cancellation, and `defer output.Close()`: side channels and resource release.
- Base64 and JSON decoding of `X-Registry-Auth` (lines 135-144): library decoding whose failure only yields empty credentials. The credentials passed to the pull are not part of the recorded `PullCall`.
- The request body passed to the import: an opaque payload, not recorded in `ImportCall`.
- `httputils.ParseForm`, `versions.GreaterThanOrEqualTo`, `platforms.Parse`, `system.ValidatePlatform`, `reference.ParseNormalizedNamed`/`FamiliarString` and `streamformatter.FormatError` are not part of this model. They are the opaque `Library` functions. The familiar-name function gives None where `ParseNormalizedNamed` fails.
- Setting the `Content-Type: application/json` response header (line 110): a header write with no bearing on the result, the calls or the stream.
- The flushing policy of the response writer (pkg/ioutils) is not part of this model. Which backend writes flush is carried by the backend's event sequence. The final error write is modelled as an append only.
- Go map iteration order in the meta-header loop: the loop takes the keys in an arbitrary order, and its result does not depend on that order.
- The peripheral handlers (`postImagesPush`, `getImagesGet`, `postImagesLoad`, `deleteImages`, `getImagesByName`, `getImagesJSON`, `getImagesHistory`, `postImagesTag`, `getImagesSearch`, `postImagesPrune`): parameter parsing and delegation to the backend, with no logic of their own.
- The panic is an outcome of its own (`Panicked`). What the HTTP server does after it recovers, such as closing the connection, is not part of this model.

## Findings

| source | as written | input that shows it | evidently intended | confidence | as-written member | corrected member |
|---|---|---|---|---|---|---|
| api/server/router/image/image_routes.go:164-165 | the error of `ParseNormalizedNamed(srcTotalImage)` is discarded and `FamiliarString` is applied to the nil reference, which panics | `fromImage=nginx`, `tag=` (empty), resolver answers `myreg.io`: `myreg.io/library/nginx:` does not parse; a pull error raised before any flush is then lost | skip the cleanup when the intermediate reference does not parse, and report the pull's error as on any other path | medium, not executed | `ImageCreate.PanicOnEmptyTag` | `ImageCreate.CreateChecked` |

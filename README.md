# ember-cli-deploy-sentry, modelled in Dafny

ember-cli-deploy-sentry is an ember-cli-deploy plugin. It publishes a build's
JavaScript files and source maps to a Sentry release, so that Sentry can
symbolicate errors reported by the deployed application. This project models
the plugin's decision logic from `index.js`:

- the `upload` hook (module `ReleaseUpload`, file `upload.dfy`). It refuses to
  run without a revision key, deletes the release and ignores the outcome, and
  creates the release (a failure here aborts with "Creating release failed").
  It then globs the files, uploads each one, lists the release's files and
  logs their names. Every remote request, the glob, `path.relative` and
  `url-join` are inputs: an `Effects` value says how each collaborator
  answers, and a `PathLibrary` value supplies the two path functions, which
  are left uninterpreted. `UploadRun` is the promise chain as a pure function
  that returns the outcome, the calls issued in order and the lines logged.
  `Upload` is the same hook written step by step, with the loop over the
  listing response. It is proved equal to `UploadRun`.
- the `prepare` hook (module `RevisionTagging`, file `revision.dfy`). It
  appends `"\nwindow.REVISION_KEY=" + key` to the first globbed path that
  matches `/smee(?!-vendor)/`. The file system is a `FileSystem` object
  holding a mutable map from path to contents. The regular expression is
  written directly over strings (`SmeeAt`, `SearchSmee`). `PrepareSpec` is the
  reference definition of the hook's effect, and the method `Prepare` is proved
  against it.
- `contentFor`, the default `didDeployMessage` and `didDeploy` (module
  `Messages`, file `messages.dfy`).
- `common.dfy` (module `Common`) holds the shared values: `Option`, the
  `Error`, `Outcome` and `Result` of promises, log lines, and `FirstIndex`,
  the first-match search behind `Array.prototype.find` and behind the first
  rejected upload.

A falsy revision key (unset, `undefined` or empty) is the empty string
throughout. A falsy `enableRevisionTagging` is `false`. The one place this
differs from the code is `didDeployMessage`: with an unset key the code
writes the text `undefined` where the model writes nothing, but that case
never arises, because `upload` throws first (index.js:189-190) and
`didDeploy` does not run.

Three behaviours of the code are kept as written:

- A rejected listing request fails the `upload` run with the listing's
  error. It is not treated as non-fatal: the rejection handler at
  index.js:208 belongs to the create request only.
- When no globbed path matches, `prepare` passes `undefined` to
  `fs.appendFileSync`, which throws. The model has a `NoTarget` outcome that
  writes nothing. There is no dedicated "target not found" error.
- Among several matches the first in glob order is tagged. No ambiguity is
  reported.

## Model

| member | source | states |
|---|---|---|
| `Common.FirstIndex` | index.js:65-67 | `find` semantics: no result exactly when no element passes the test; otherwise the index of an element that passes, and every earlier element fails |
| `Messages.ContentFor` | index.js:20-24 | the revision meta tag is returned for the `head-footer` slot and only for it; nothing for every other slot |
| `Messages.DidDeployMessage` | index.js:39-49 | the message starts with the fixed prefix, the Sentry URL and a slash, followed by the organisation slug, a slash and the project slug; it ends with `/releases/<key>/` and has exactly the length of its parts plus the separators |
| `Messages.MessageEndsWithReleasePath` | index.js:39-49 | after the prefix, the Sentry URL and one slash, the message is exactly the organisation slug, `/`, the project slug, `/releases/`, the key and `/` |
| `Messages.ReleasePathSplits` | index.js:39-49 | the part of the message after the Sentry URL, with slash-free slugs, determines the organisation slug, the project slug and the revision key |
| `Messages.DidDeployMessageDeterminesRelease` | index.js:39-49 | for one Sentry URL, equal messages with slash-free slugs come from equal organisation slugs, project slugs and revision keys |
| `Messages.DidDeploy` | index.js:214-219 | the configured message is logged exactly when it is truthy, once, without the verbose flag |
| `RevisionTagging.SearchSmee` | index.js:66 | the regular-expression engine's left-to-right scan over start positions; its meaning is stated by `SearchSmeeFindsMatch` |
| `RevisionTagging.IsEntryBundle` | index.js:66 | `/smee(?!-vendor)/.test(file)`; its meaning is stated by `IsEntryBundleMeansMatch`, and `VendorBundleRejected` and `AppBundleAccepted` apply it to bundle names |
| `RevisionTagging.SearchSmeeFindsMatch` | index.js:66 | the left-to-right regular-expression scan succeeds exactly when some start position matches `smee` not followed by `-vendor` |
| `RevisionTagging.IsEntryBundleMeansMatch` | index.js:66 | the file-name test holds exactly when the path matches `/smee(?!-vendor)/` at some position |
| `RevisionTagging.FindTarget` | index.js:64-67 | the chosen path is the first in glob order that passes the test; nothing is chosen exactly when no path passes |
| `RevisionTagging.VendorBundleRejected` | index.js:66 | a path made of a directory prefix, `smee-vendor` and a rest fails the test whenever `smee` occurs in neither the prefix nor the rest (so also under a prefix such as `tmp/deploy-dist/assets/`) |
| `RevisionTagging.AppBundleAccepted` | index.js:66 | a path made of any directory prefix, `smee-` and a name that does not start with `vendor` passes the test |
| `RevisionTagging.VendorBundleExample` | index.js:66 | `dist/assets/smee-vendor-4f2a.js` fails the test |
| `RevisionTagging.AppBundleExample` | index.js:66 | `dist/assets/smee-9c1b.js` passes the test |
| `RevisionTagging.VendorBundleSkipped` | index.js:64-67 | with the vendor bundle globbed first, the application bundle (position 1) is chosen |
| `RevisionTagging.VendorBundleUnderSmeeDirectory` | index.js:64-66 | the test reads the whole path, so a vendor bundle under a directory named `smee` passes it |
| `RevisionTagging.Appended` | index.js:72 | `appendFileSync` on the map: the file exists afterwards, keeps its old contents as a prefix, ends with the appended data, is exactly as long as the two together (so nothing lies between them), and no other path changes |
| `RevisionTagging.PrepareSpec` | index.js:53-77 | the reference definition of the hook's outcome and new file system; its properties are stated by `PrepareDisabledWritesNothing`, `PrepareWithoutKeyWritesNothing` and `PrepareTagsFirstEntryBundle`, and `Prepare` is proved equal to it |
| `RevisionTagging.PrepareDisabledWritesNothing` | index.js:54-57 | with tagging disabled the hook returns and the file system is unchanged |
| `RevisionTagging.PrepareWithoutKeyWritesNothing` | index.js:59-62 | with a falsy key the hook returns the "Could not find revision key…" `SilentError` and the file system is unchanged |
| `RevisionTagging.PrepareTagsFirstEntryBundle` | index.js:64-72 | the first path passing the test gets exactly old contents + `"\nwindow.REVISION_KEY=" + key`; every other file is unchanged; with no passing path nothing is written |
| `RevisionTagging.FileSystem.AppendFile` | index.js:72 | the new map is the old one with `data` appended to `path`; a missing file is created |
| `RevisionTagging.Prepare` | index.js:53-77 | the outcome and the new file system are those `PrepareSpec` gives for the old file system |
| `ReleaseUpload.RelativePaths` | index.js:123-126 | `files.map(path.relative(dir, ·))` after the glob; `OneUploadPerFile` states that upload `i` carries `relative(distDir, matches[i])` |
| `ReleaseUpload.UploadCalls` | index.js:195-199 | `files.map(throat(5, uploader))`, one `_uploadFile` per path in order, named `urljoin(publicUrl, path)` as at index.js:135; `UploadCountOfUploads` counts exactly one upload per path, and `OneUploadPerFile` places them in the trace |
| `ReleaseUpload.UploadRun` | index.js:189-212 | the promise chain as a reference definition of outcome, calls and log; its properties are stated by the lemmas below, from `NoReleaseNoCall` to `SucceedsExactlyWhenAllSucceed`, and `Upload` is proved equal to it |
| `ReleaseUpload.UploadCountOfUploads` | index.js:199 | the trace of `files.map(throat(5, uploader))` holds exactly one upload per path |
| `ReleaseUpload.Upload` | index.js:176-213 | the outcome, the issued calls and the log are exactly those of the promise chain `UploadRun`; the log loop writes the header and one line per record |
| `ReleaseUpload.NoReleaseNoCall` | index.js:189-191 | without a revision key the run fails with the "revisionKey setting is not available…" `SilentError`, issues no call (no delete) and logs nothing |
| `ReleaseUpload.DeleteOutcomeIgnored` | index.js:192-193 | with a key the first calls are delete and then create, and changing how the delete settles changes nothing in the run |
| `ReleaseUpload.CreateFailureAborts` | index.js:192-211 | a rejected create fails the run with "Creating release failed" after exactly the delete and the create; no glob, upload or listing follows |
| `ReleaseUpload.GlobFailurePropagates` | index.js:112-128 | a rejected glob fails the run with the glob's own error; no upload or listing follows |
| `ReleaseUpload.AllUploadedIff` | index.js:199 | no relative path's upload rejects exactly when every matched file's upload succeeds |
| `ReleaseUpload.CallsAfterGlob` | index.js:194-201 | after a successful glob the calls are delete, create, glob, one upload per path, then the listing exactly when no upload rejected |
| `ReleaseUpload.OneUploadPerFile` | index.js:124-201 | exactly one upload per matched file, in glob order, named `urljoin(publicUrl, relative(distDir, file))`; the number of upload calls equals the number of files; the listing is the last call and is issued exactly when every upload succeeded |
| `ReleaseUpload.UploadFailurePropagates` | index.js:143-208 | when some upload rejects, the run fails with a rejecting upload's own error (not relabelled), does not list, and logs nothing |
| `ReleaseUpload.ListingFailureFailsRun` | index.js:199-208 | when every upload succeeds and the listing rejects, the run fails with the listing's error and logs nothing |
| `ReleaseUpload.SucceedsExactlyWhenAllSucceed` | index.js:189-206 | the run succeeds exactly when the key is set and create, glob, every upload and listing succeed; a failed run logs nothing; on success the log is the verbose header and then one verbose `'✔  ' + name` line per listed record, in listing order |

## Left out

- HTTP transport: Basic authentication, the request URLs, JSON bodies and the multipart form with streamed file content (index.js:79-110, 130-174). Each request is one `Call` value, and its answer is part of `Effects`.
- `url-join`, `path.join` and `path.relative`. They are library code. `url-join` and `path.relative` are uninterpreted functions in `PathLibrary`, so nothing is claimed about slash normalisation.
- Glob matching (index.js:64, 112-122). The matched paths, or the glob's error, are an input.
- The `throat(5, …)` limit on concurrent uploads and the order in which uploads complete (index.js:199). These are concurrency handled by a library.
- ReleaseUpload.UploadRun: `Promise.all` rejects with the error of whichever upload rejects first in time. The model reports the first rejecting file in glob order instead. It also records every upload call as issued even after a rejection, because `throat` keeps running queued tasks.
- The `_uploadFile` error path dereferences `result` after `reject` (index.js:150-153), which throws inside the callback. The model treats it as that upload rejecting with its error.
- `console.error(err)` for a failed create (index.js:209). It writes to the console, not to the plugin's log.
- `fs.statSync` sizes and file streams (index.js:137-141).
- File-system errors in `prepare`: `glob.sync` throwing (index.js:64) and `fs.appendFileSync` failing on an existing path (index.js:72). The glob result there is always a list of paths, and `FileSystem.AppendFile` always succeeds.
- Configuration: `readConfig`, the default config functions (index.js:29-37) and `requiredConfig` (index.js:51). Every configured value is a parameter.
- The synchronous `throw` at index.js:190 is modelled like a rejection. In both cases the hook fails with that error.
- State on the Sentry server, and so the claim that running a deploy twice gives the same listing. The server is not part of the plugin. The model only records the requests the plugin sends.

/** The plugin's `upload` hook: reset the Sentry release named by the
    revision key (delete, then create), upload every file the pattern finds
    under the distribution directory, then list the release's files and log
    their names. Every remote call, the glob, `path.relative` and `url-join`
    are given as inputs; the model records which calls are issued and in
    what order, what is logged, and how the hook settles. */
module ReleaseUpload {
  import opened Common

  const MissingReleaseMessage := "revisionKey setting is not available, either provide it manually or make sure the ember-cli-deploy-revision-data plugin is loaded"
  const CreateFailedMessage := "Creating release failed"
  const ListingHeader := "Files known to sentry for this release"
  const CheckMark := "✔  "

  /** The `sentrySettings` object `upload` builds from its configuration. A
      falsy `release` (an unset or empty revision key) is the empty string. */
  datatype SentrySettings = SentrySettings(url: string, publicUrl: string, organizationSlug: string,
                                           projectSlug: string, apiKey: string, release: string)

  /** One record of the release's file listing. */
  datatype ReleaseFile = ReleaseFile(name: string)

  /** A call `upload` issues to a collaborator: the four remote requests and
      the glob. `UploadFile` carries the artifact name sent in the form and
      the path, relative to the distribution directory, of the file sent. */
  datatype Call =
    | DeleteRelease(settings: SentrySettings)
    | CreateRelease(settings: SentrySettings)
    | GetUploadFiles(dir: string, pattern: string)
    | UploadFile(settings: SentrySettings, name: string, filePath: string)
    | GetReleaseFiles(settings: SentrySettings)

  /** `url-join` and `path.relative`, whose definitions are not part of this
      model. */
  datatype PathLibrary = PathLibrary(urljoin: (string, string) -> string, relative: (string, string) -> string)

  /** How each collaborator answers: the delete and create requests, the glob
      (the paths it matched, or its error), each file's upload (by relative
      path) and the listing request. */
  datatype Effects = Effects(deleted: Outcome, created: Outcome, globbed: Result<seq<string>>,
                             uploaded: string -> Outcome, listed: Result<seq<ReleaseFile>>)

  /** Everything one run of `upload` does: how it settles, the calls it
      issues in order, and the lines it logs. */
  datatype Run = Run(outcome: Outcome, calls: seq<Call>, log: seq<LogLine>)

  /** `_getUploadFiles` after the glob: each match made relative to `dir`. */
  function RelativePaths(dir: string, matches: seq<string>, lib: PathLibrary): (paths: seq<string>)
  {
    seq(|matches|, i requires 0 <= i < |matches| => lib.relative(dir, matches[i]))
  }

  /** `files.map(throat(5, uploader))`: one `_uploadFile` call per path, in
      order, naming the artifact by joining the public URL and the path. */
  function UploadCalls(settings: SentrySettings, paths: seq<string>, lib: PathLibrary): (calls: seq<Call>)
  {
    seq(|paths|, i requires 0 <= i < |paths| => UploadFile(settings, lib.urljoin(settings.publicUrl, paths[i]), paths[i]))
  }

  /** The upload of `path` rejects. */
  function UploadRejects(fx: Effects): string -> bool {
    path => fx.uploaded(path).Failure?
  }

  /** One `'✔  ' + name` line per record, in listing order. */
  function RecordLines(records: seq<ReleaseFile>): (lines: seq<LogLine>)
  {
    seq(|records|, i requires 0 <= i < |records| => LogLine(CheckMark + records[i].name, true))
  }

  /** What `upload` logs once the listing arrives. */
  function ListingLog(records: seq<ReleaseFile>): (lines: seq<LogLine>)
  {
    [LogLine(ListingHeader, true)] + RecordLines(records)
  }

  /** The promise chain of `upload`. The rejection handler that relabels an
      error as "Creating release failed" is attached to the create request
      alone, so errors from the glob, an upload or the listing reach the
      caller as they are. `Promise.all` rejects when any upload rejects; the
      error reported is that of the first rejecting file in glob order. */
  function UploadRun(settings: SentrySettings, distDir: string, filePattern: string,
                     fx: Effects, lib: PathLibrary): Run
  {
    if settings.release == "" then Run(Failure(SilentError(MissingReleaseMessage)), [], [])
    else
      // the delete's outcome is collapsed by `.then(function() {}, function() {})`
      var reset := [DeleteRelease(settings), CreateRelease(settings)];
      if fx.created.Failure? then Run(Failure(SilentError(CreateFailedMessage)), reset, [])
      else
        var enumerated := reset + [GetUploadFiles(distDir, filePattern)];
        match fx.globbed
        case Err(e) => Run(Failure(e), enumerated, [])
        case Ok(matches) =>
          var paths := RelativePaths(distDir, matches, lib);
          var uploaded := enumerated + UploadCalls(settings, paths, lib);
          match FirstIndex(paths, UploadRejects(fx))
          case Some(k) => Run(Failure(fx.uploaded(paths[k]).error), uploaded, [])
          case None =>
            var listed := uploaded + [GetReleaseFiles(settings)];
            match fx.listed
            case Err(e) => Run(Failure(e), listed, [])
            case Ok(records) => Run(Success, listed, ListingLog(records))
  }

  /** `upload()`, step by step: the calls are issued in order and the
      listing is logged record by record. */
  method Upload(settings: SentrySettings, distDir: string, filePattern: string, fx: Effects, lib: PathLibrary)
    returns (outcome: Outcome, calls: seq<Call>, log: seq<LogLine>)
    ensures Run(outcome, calls, log) == UploadRun(settings, distDir, filePattern, fx, lib)
  {
    calls, log := [], [];
    if settings.release == "" {
      outcome := Failure(SilentError(MissingReleaseMessage));
      return;
    }
    calls := calls + [DeleteRelease(settings)];
    calls := calls + [CreateRelease(settings)];
    if fx.created.Failure? {
      outcome := Failure(SilentError(CreateFailedMessage));
      return;
    }
    calls := calls + [GetUploadFiles(distDir, filePattern)];
    if fx.globbed.Err? {
      outcome := Failure(fx.globbed.error);
      return;
    }
    var files := RelativePaths(distDir, fx.globbed.value, lib);
    calls := calls + UploadCalls(settings, files, lib);
    var rejected := FirstIndex(files, UploadRejects(fx));
    if rejected.Some? {
      outcome := Failure(fx.uploaded(files[rejected.value]).error);
      return;
    }
    calls := calls + [GetReleaseFiles(settings)];
    if fx.listed.Err? {
      outcome := Failure(fx.listed.error);
      return;
    }
    var response := fx.listed.value;
    log := log + [LogLine(ListingHeader, true)];
    var i := 0;
    while i < |response|
      invariant 0 <= i <= |response|
      invariant log == ListingLog(response[..i])
    {
      log := log + [LogLine(CheckMark + response[i].name, true)];
      i := i + 1;
    }
    assert response[..i] == response;
    outcome := Success;
  }

  /** The number of `_uploadFile` calls in a trace. */
  function UploadCount(calls: seq<Call>): nat
  {
    if calls == [] then 0 else (if calls[0].UploadFile? then 1 else 0) + UploadCount(calls[1..])
  }

  lemma {:induction false} UploadCountAppend(a: seq<Call>, b: seq<Call>)
    ensures UploadCount(a + b) == UploadCount(a) + UploadCount(b)
  {
    if a == [] {
      assert a + b == b;
    } else {
      assert (a + b)[1..] == a[1..] + b;
      UploadCountAppend(a[1..], b);
    }
  }

  lemma {:induction false} UploadCountOfUploads(settings: SentrySettings, paths: seq<string>, lib: PathLibrary)
    ensures UploadCount(UploadCalls(settings, paths, lib)) == |paths|
  {
    if paths != [] {
      assert UploadCalls(settings, paths, lib)[1..] == UploadCalls(settings, paths[1..], lib);
      UploadCountOfUploads(settings, paths[1..], lib);
    }
  }

  /** Without a revision key `upload` throws the `SilentError` before any
      call is issued; in particular the release is not deleted. */
  lemma NoReleaseNoCall(settings: SentrySettings, distDir: string, filePattern: string, fx: Effects, lib: PathLibrary)
    requires settings.release == ""
    ensures UploadRun(settings, distDir, filePattern, fx, lib)
      == Run(Failure(SilentError(MissingReleaseMessage)), [], [])
  {
  }

  /** With a revision key the first two calls are always the delete and the
      create, and how the delete settles changes nothing in the run. */
  lemma DeleteOutcomeIgnored(settings: SentrySettings, distDir: string, filePattern: string, fx: Effects,
                             lib: PathLibrary, deleted: Outcome)
    requires settings.release != ""
    ensures var run := UploadRun(settings, distDir, filePattern, fx, lib);
      |run.calls| >= 2 && run.calls[0] == DeleteRelease(settings) && run.calls[1] == CreateRelease(settings)
    ensures UploadRun(settings, distDir, filePattern, fx.(deleted := deleted), lib)
      == UploadRun(settings, distDir, filePattern, fx, lib)
  {
  }

  /** A rejected create fails the run with "Creating release failed" and
      nothing after it is called. */
  lemma CreateFailureAborts(settings: SentrySettings, distDir: string, filePattern: string, fx: Effects, lib: PathLibrary)
    requires settings.release != "" && fx.created.Failure?
    ensures UploadRun(settings, distDir, filePattern, fx, lib)
      == Run(Failure(SilentError(CreateFailedMessage)), [DeleteRelease(settings), CreateRelease(settings)], [])
  {
  }

  /** A rejected glob fails the run with the glob's own error, after the
      glob call and before any upload. */
  lemma GlobFailurePropagates(settings: SentrySettings, distDir: string, filePattern: string, fx: Effects, lib: PathLibrary)
    requires settings.release != "" && fx.created.Success? && fx.globbed.Err?
    ensures UploadRun(settings, distDir, filePattern, fx, lib)
      == Run(Failure(fx.globbed.error),
             [DeleteRelease(settings), CreateRelease(settings), GetUploadFiles(distDir, filePattern)], [])
  {
  }

  lemma {:induction false} UploadCountWithoutUploads(calls: seq<Call>)
    requires forall i :: 0 <= i < |calls| ==> !calls[i].UploadFile?
    ensures UploadCount(calls) == 0
  {
    if calls != [] {
      UploadCountWithoutUploads(calls[1..]);
    }
  }

  /** All uploads succeed exactly when none of the relative paths rejects. */
  lemma AllUploadedIff(distDir: string, matches: seq<string>, fx: Effects, lib: PathLibrary)
    ensures FirstIndex(RelativePaths(distDir, matches, lib), UploadRejects(fx)).None?
      <==> forall i :: 0 <= i < |matches| ==> fx.uploaded(lib.relative(distDir, matches[i])).Success?
  {
    var paths := RelativePaths(distDir, matches, lib);
    assert forall i :: 0 <= i < |matches| ==> (UploadRejects(fx)(paths[i]) <==> fx.uploaded(lib.relative(distDir, matches[i])).Failure?);
  }

  /** The calls of a run whose create and glob succeeded: the three reset and
      enumeration calls, the uploads, and the listing exactly when no upload
      rejected. */
  lemma CallsAfterGlob(settings: SentrySettings, distDir: string, filePattern: string, fx: Effects, lib: PathLibrary)
    requires settings.release != "" && fx.created.Success? && fx.globbed.Ok?
    ensures var run := UploadRun(settings, distDir, filePattern, fx, lib);
      var matches := fx.globbed.value;
      var allUploaded := forall i :: 0 <= i < |matches| ==> fx.uploaded(lib.relative(distDir, matches[i])).Success?;
      run.calls == [DeleteRelease(settings), CreateRelease(settings), GetUploadFiles(distDir, filePattern)]
        + UploadCalls(settings, RelativePaths(distDir, matches, lib), lib)
        + (if allUploaded then [GetReleaseFiles(settings)] else [])
  {
    AllUploadedIff(distDir, fx.globbed.value, fx, lib);
  }

  /** The shape of a trace made of the reset and glob calls, the uploads of
      `paths` and, when `listed`, the listing. */
  lemma TraceAfterGlob(settings: SentrySettings, distDir: string, filePattern: string, paths: seq<string>,
                       lib: PathLibrary, listed: bool)
    ensures var reset := [DeleteRelease(settings), CreateRelease(settings), GetUploadFiles(distDir, filePattern)];
      var uploads := UploadCalls(settings, paths, lib);
      var calls := reset + uploads + (if listed then [GetReleaseFiles(settings)] else []);
      && |calls| == 3 + |paths| + (if listed then 1 else 0)
      && calls[..3] == reset
      && (forall i :: 0 <= i < |paths| ==> calls[3 + i] == uploads[i])
      && UploadCount(calls) == |paths|
      && (listed ==> calls[|calls| - 1] == GetReleaseFiles(settings))
      && (GetReleaseFiles(settings) in calls <==> listed)
  {
    var reset := [DeleteRelease(settings), CreateRelease(settings), GetUploadFiles(distDir, filePattern)];
    var uploads := UploadCalls(settings, paths, lib);
    var listing := if listed then [GetReleaseFiles(settings)] else [];
    UploadCountWithoutUploads(reset);
    UploadCountWithoutUploads(listing);
    UploadCountOfUploads(settings, paths, lib);
    UploadCountAppend(reset, uploads);
    UploadCountAppend(reset + uploads, listing);
    assert GetReleaseFiles(settings) !in reset + uploads;
  }

  /** After a successful create and glob, exactly one upload follows per
      matched file, in glob order, each naming the artifact by joining the
      public URL with the file's relative path; the listing comes after all
      of them, and only when none was rejected, as the last call. */
  lemma OneUploadPerFile(settings: SentrySettings, distDir: string, filePattern: string, fx: Effects, lib: PathLibrary)
    requires settings.release != "" && fx.created.Success? && fx.globbed.Ok?
    ensures var run := UploadRun(settings, distDir, filePattern, fx, lib);
      var matches := fx.globbed.value;
      var allUploaded := forall i :: 0 <= i < |matches| ==> fx.uploaded(lib.relative(distDir, matches[i])).Success?;
      && |run.calls| == 3 + |matches| + (if allUploaded then 1 else 0)
      && run.calls[..3] == [DeleteRelease(settings), CreateRelease(settings), GetUploadFiles(distDir, filePattern)]
      && (forall i :: 0 <= i < |matches| ==>
            run.calls[3 + i] == UploadFile(settings, lib.urljoin(settings.publicUrl, lib.relative(distDir, matches[i])),
                                           lib.relative(distDir, matches[i])))
      && UploadCount(run.calls) == |matches|
      && (allUploaded ==> run.calls[|run.calls| - 1] == GetReleaseFiles(settings))
      && (GetReleaseFiles(settings) in run.calls <==> allUploaded)
  {
    var matches := fx.globbed.value;
    var allUploaded := forall i :: 0 <= i < |matches| ==> fx.uploaded(lib.relative(distDir, matches[i])).Success?;
    var paths := RelativePaths(distDir, matches, lib);
    var calls := UploadRun(settings, distDir, filePattern, fx, lib).calls;
    CallsAfterGlob(settings, distDir, filePattern, fx, lib);
    TraceAfterGlob(settings, distDir, filePattern, paths, lib, allUploaded);
    forall i | 0 <= i < |matches|
      ensures calls[3 + i] == UploadFile(settings, lib.urljoin(settings.publicUrl, lib.relative(distDir, matches[i])),
                                         lib.relative(distDir, matches[i]))
    {
      assert paths[i] == lib.relative(distDir, matches[i]);
    }
  }

  /** When some upload is rejected the run fails with that upload's own
      error, not relabelled, nothing is listed and nothing is logged. */
  lemma UploadFailurePropagates(settings: SentrySettings, distDir: string, filePattern: string, fx: Effects,
                                lib: PathLibrary, k: nat)
    requires settings.release != "" && fx.created.Success? && fx.globbed.Ok?
    requires k < |fx.globbed.value| && fx.uploaded(lib.relative(distDir, fx.globbed.value[k])).Failure?
    ensures var run := UploadRun(settings, distDir, filePattern, fx, lib);
      && run.log == []
      && GetReleaseFiles(settings) !in run.calls
      && exists j :: 0 <= j <= k && fx.uploaded(lib.relative(distDir, fx.globbed.value[j])).Failure?
           && run.outcome == Failure(fx.uploaded(lib.relative(distDir, fx.globbed.value[j])).error)
  {
    var paths := RelativePaths(distDir, fx.globbed.value, lib);
    assert UploadRejects(fx)(paths[k]);
    OneUploadPerFile(settings, distDir, filePattern, fx, lib);
  }

  /** When every upload succeeds but the listing is rejected, the run fails
      with the listing's error. */
  lemma ListingFailureFailsRun(settings: SentrySettings, distDir: string, filePattern: string, fx: Effects, lib: PathLibrary)
    requires settings.release != "" && fx.created.Success? && fx.globbed.Ok? && fx.listed.Err?
    requires forall p :: p in fx.globbed.value ==> fx.uploaded(lib.relative(distDir, p)).Success?
    ensures var run := UploadRun(settings, distDir, filePattern, fx, lib);
      run.outcome == Failure(fx.listed.error) && run.log == []
  {
  }

  /** The run succeeds exactly when the key is set and the create, the glob,
      every upload and the listing succeed; then the log is the verbose
      header followed by one `'✔  ' + name` line per listed record, in
      listing order. A failed run logs nothing. */
  lemma SucceedsExactlyWhenAllSucceed(settings: SentrySettings, distDir: string, filePattern: string, fx: Effects,
                                      lib: PathLibrary)
    ensures var run := UploadRun(settings, distDir, filePattern, fx, lib);
      && (run.outcome.Success? <==>
            settings.release != "" && fx.created.Success? && fx.globbed.Ok? && fx.listed.Ok?
            && forall p :: p in fx.globbed.value ==> fx.uploaded(lib.relative(distDir, p)).Success?)
      && (run.outcome.Failure? ==> run.log == [])
      && (run.outcome.Success? ==>
            var records := fx.listed.value;
            && |run.log| == |records| + 1
            && run.log[0] == LogLine("Files known to sentry for this release", true)
            && forall i :: 0 <= i < |records| ==> run.log[i + 1] == LogLine("✔  " + records[i].name, true))
  {
    if settings.release != "" && fx.created.Success? && fx.globbed.Ok? {
      var matches := fx.globbed.value;
      var paths := RelativePaths(distDir, matches, lib);
      match FirstIndex(paths, UploadRejects(fx))
      case Some(k) =>
        assert matches[k] in matches && fx.uploaded(lib.relative(distDir, matches[k])).Failure?;
      case None =>
        forall p | p in matches ensures fx.uploaded(lib.relative(distDir, p)).Success? {
          var j :| 0 <= j < |matches| && matches[j] == p;
          assert !UploadRejects(fx)(paths[j]);
        }
    }
  }
}

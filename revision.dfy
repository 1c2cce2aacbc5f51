/** Revision tagging, the plugin's `prepare` hook: append an assignment of the
    revision key to the application's entry bundle, chosen among the files
    the glob `assets/smee-*.js` found in the distribution directory. */
module RevisionTagging {
  import opened Common

  /** The text appended to the entry bundle, before the key itself. */
  const RevisionAssignment := "\nwindow.REVISION_KEY="

  const MissingKeyMessage := "Could not find revision key to fingerprint Sentry revision with."

  /** The regular expression `/smee(?!-vendor)/` matches at position `i`:
      `smee` starts there and is not immediately followed by `-vendor`. */
  predicate SmeeAt(path: string, i: nat) {
    i + 4 <= |path| && path[i..i + 4] == "smee" && !StartsWith(path[i + 4..], "-vendor")
  }

  /** `/smee(?!-vendor)/.test(path)`, as the regular expression engine runs
      it: try each start position from `from` on, left to right. */
  function SearchSmee(path: string, from: nat): (found: bool)
    decreases |path| - from
  {
    if from + 4 > |path| then false
    else SmeeAt(path, from) || SearchSmee(path, from + 1)
  }

  /** The file-name test of `prepare`: the path contains `smee` somewhere
      that is not the start of `smee-vendor`. */
  predicate IsEntryBundle(path: string) {
    SearchSmee(path, 0)
  }

  /** The left-to-right scan succeeds exactly when some position at or after
      `from` matches. */
  lemma {:induction false} SearchSmeeFindsMatch(path: string, from: nat)
    ensures SearchSmee(path, from) <==> exists i: nat :: from <= i && SmeeAt(path, i)
    decreases |path| - from
  {
    if from + 4 <= |path| {
      SearchSmeeFindsMatch(path, from + 1);
      assert forall i: nat :: from <= i && SmeeAt(path, i) ==> i == from || from + 1 <= i;
    }
  }

  /** The test succeeds exactly when the path matches somewhere. */
  lemma IsEntryBundleMeansMatch(path: string)
    ensures IsEntryBundle(path) <==> exists i: nat :: SmeeAt(path, i)
  {
    SearchSmeeFindsMatch(path, 0);
  }

  /** `files.find(...)`: the position, in glob order, of the first path that
      passes the test. */
  function FindTarget(globbed: seq<string>): (r: Option<nat>)
    ensures r.None? <==> forall j :: 0 <= j < |globbed| ==> !IsEntryBundle(globbed[j])
    ensures r.Some? ==> r.value < |globbed| && IsEntryBundle(globbed[r.value])
    ensures r.Some? ==> forall j :: 0 <= j < r.value ==> !IsEntryBundle(globbed[j])
  {
    FirstIndex(globbed, IsEntryBundle)
  }

  /** Every match of the expression puts an `m` right after its start. */
  lemma SmeeAtHasM(path: string, i: nat)
    requires SmeeAt(path, i)
    ensures path[i + 1] == 'm'
  {
    assert path[i..i + 4][1] == 'm';
  }

  /** `smee` occurs nowhere in `s`. */
  predicate NoSmee(s: string) {
    forall i :: 0 <= i < |s| ==> !StartsWith(s[i..], "smee")
  }

  /** A string without an `m` does not contain `smee`. */
  lemma WithoutMNoSmee(s: string)
    requires 'm' !in s
    ensures NoSmee(s)
  {
    forall i | 0 <= i < |s| ensures !StartsWith(s[i..], "smee") {
      if 4 <= |s[i..]| {
        assert s[i..][..4][1] == s[i + 1];
      }
    }
  }

  /** A vendor bundle fails the test: `smee-vendor` followed by any rest,
      under any directory prefix, provided neither the prefix nor the rest
      contains `smee` (as in `dist/assets/smee-vendor-4f2a.js`). */
  lemma VendorBundleRejected(dir: string, rest: string)
    requires NoSmee(dir) && NoSmee(rest)
    ensures !IsEntryBundle(dir + "smee-vendor" + rest)
  {
    var path := dir + "smee-vendor" + rest;
    var d := |dir|;
    assert path[d..d + 11] == "smee-vendor";
    forall i: nat | i + 4 <= |path| ensures !SmeeAt(path, i) {
      if i + 4 <= d {
        assert path[i..i + 4] == dir[i..][..4];
      } else if i < d {
        // a match straddling the join would need an `s` at `d - i` in `smee`
        assert path[i..i + 4][d - i] == path[d] == 's';
      } else if i == d {
        assert path[d + 4..][..7] == path[d..d + 11][4..];
      } else if i < d + 11 {
        assert path[i..i + 4][0] == path[d..d + 11][i - d];
      } else {
        assert path[i..i + 4] == rest[i - d - 11..][..4];
      }
    }
    IsEntryBundleMeansMatch(path);
  }

  /** `-` and a name start with `-vendor` only if the name starts with
      `vendor`. */
  lemma DashVendorNeedsVendor(name: string)
    requires !StartsWith(name, "vendor")
    ensures !StartsWith("-" + name, "-vendor")
  {
    if 6 <= |name| {
      assert name[..6] != "vendor";
      var j :| 0 <= j < 6 && name[..6][j] != "vendor"[j];
      assert ("-" + name)[..7][j + 1] == name[j];
    }
  }

  /** An application bundle passes the test: `smee-` followed by a name that
      does not start with `vendor`, under any directory prefix (as in
      `dist/assets/smee-9c1b.js`). */
  lemma AppBundleAccepted(dir: string, name: string)
    requires !StartsWith(name, "vendor")
    ensures IsEntryBundle(dir + "smee-" + name)
  {
    var path := dir + "smee-" + name;
    var i := |dir|;
    assert path[i..i + 4] == "smee";
    assert path[i + 4..] == "-" + name;
    DashVendorNeedsVendor(name);
    assert SmeeAt(path, i);
    IsEntryBundleMeansMatch(path);
  }

  /** A vendor bundle and an application bundle, as the glob returns them. */
  const VendorBundle := "dist/assets/smee-vendor-4f2a.js"
  const AppBundle := "dist/assets/smee-9c1b.js"

  /** `dist/assets/smee-vendor-4f2a.js` fails the test. */
  lemma VendorBundleExample()
    ensures !IsEntryBundle(VendorBundle)
  {
    assert VendorBundle == "dist/assets/" + "smee-vendor" + "-4f2a.js";
    WithoutMNoSmee("dist/assets/");
    WithoutMNoSmee("-4f2a.js");
    VendorBundleRejected("dist/assets/", "-4f2a.js");
  }

  /** `dist/assets/smee-9c1b.js` passes the test. */
  lemma AppBundleExample()
    ensures IsEntryBundle(AppBundle)
  {
    assert AppBundle == "dist/assets/" + "smee-" + "9c1b.js";
    assert "9c1b.js"[..6][0] == '9';
    AppBundleAccepted("dist/assets/", "9c1b.js");
  }

  /** A vendor bundle globbed before the application bundle is passed over. */
  lemma VendorBundleSkipped()
    ensures FindTarget([VendorBundle, AppBundle]) == Some(1)
  {
    VendorBundleExample();
    AppBundleExample();
    var globbed := [VendorBundle, AppBundle];
    assert !IsEntryBundle(globbed[0]);
    assert globbed[1..] == [AppBundle] && IsEntryBundle(globbed[1..][0]);
    assert FirstIndex(globbed[1..], IsEntryBundle) == Some(0);
  }

  /** The test reads the whole path, directory included: under a directory
      named `smee` the vendor bundle passes it too. */
  lemma VendorBundleUnderSmeeDirectory()
    ensures IsEntryBundle("smee/assets/smee-vendor-4f2a.js")
  {
    var path := "smee/assets/smee-vendor-4f2a.js";
    assert path[0..4] == "smee" && path[4..][0] == '/';
    assert SmeeAt(path, 0);
    IsEntryBundleMeansMatch(path);
  }

  /** What `prepare` ends with. `Disabled` and `Tagged` are the two ways it
      returns `undefined`; `MissingKey` is the `SilentError` it returns (does
      not throw); `NoTarget` is the exception `fs.appendFileSync` throws when
      no path passed the test and it is handed `undefined`. */
  datatype PrepareOutcome = Disabled | MissingKey(error: Error) | Tagged(path: string) | NoTarget

  /** The contents of `path`; a missing file reads as empty. */
  function Contents(files: map<string, string>, path: string): string {
    if path in files then files[path] else ""
  }

  /** `fs.appendFileSync(path, data)` on a file system given as a map from
      path to contents; a missing file is created. */
  function Appended(files: map<string, string>, path: string, data: string): (r: map<string, string>)
    ensures path in r && StartsWith(r[path], Contents(files, path))
    ensures EndsWith(r[path], data)
    ensures |r[path]| == |Contents(files, path)| + |data|
    ensures forall q :: q != path ==> (q in r <==> q in files)
    ensures forall q :: q != path && q in files ==> r[q] == files[q]
  {
    var old_contents := Contents(files, path);
    assert (old_contents + data)[..|old_contents|] == old_contents;
    assert (old_contents + data)[|old_contents|..] == data;
    files[path := old_contents + data]
  }

  /** The effect of `prepare` on the file system, and how it ends. */
  function PrepareSpec(files: map<string, string>, enabled: bool, revisionKey: string,
                       globbed: seq<string>): (PrepareOutcome, map<string, string>)
  {
    if !enabled then (Disabled, files)
    else if revisionKey == "" then (MissingKey(SilentError(MissingKeyMessage)), files)
    else
      match FindTarget(globbed)
      case None => (NoTarget, files)
      case Some(k) => (Tagged(globbed[k]), Appended(files, globbed[k], RevisionAssignment + revisionKey))
  }

  /** With tagging disabled, `prepare` returns at once and writes nothing. */
  lemma PrepareDisabledWritesNothing(files: map<string, string>, revisionKey: string, globbed: seq<string>)
    ensures PrepareSpec(files, false, revisionKey, globbed) == (Disabled, files)
  {
  }

  /** With tagging enabled and a falsy key, `prepare` returns the
      `SilentError` and writes nothing. */
  lemma PrepareWithoutKeyWritesNothing(files: map<string, string>, globbed: seq<string>)
    ensures PrepareSpec(files, true, "", globbed) == (MissingKey(SilentError(MissingKeyMessage)), files)
  {
  }

  /** With tagging enabled and a key, `prepare` tags the first path in glob
      order that passes the test: that file gains exactly the assignment of
      the key at its end, its previous contents are kept as a prefix, and
      every other file is unchanged. If no path passes, nothing is written. */
  lemma PrepareTagsFirstEntryBundle(files: map<string, string>, revisionKey: string, globbed: seq<string>)
    requires revisionKey != ""
    ensures var (outcome, after) := PrepareSpec(files, true, revisionKey, globbed);
      match outcome
      case Tagged(path) =>
        exists k :: 0 <= k < |globbed| && globbed[k] == path && IsEntryBundle(path)
          && (forall j :: 0 <= j < k ==> !IsEntryBundle(globbed[j]))
          && path in after
          && after[path] == Contents(files, path) + "\nwindow.REVISION_KEY=" + revisionKey
          && (forall q :: q != path ==> (q in after <==> q in files))
          && (forall q :: q != path && q in files ==> after[q] == files[q])
      case NoTarget =>
        (forall j :: 0 <= j < |globbed| ==> !IsEntryBundle(globbed[j])) && after == files
      case _ => false
  {
  }

  /** The file system `prepare` writes to, as a mutable map from path to
      contents. */
  class FileSystem {
    var files: map<string, string>

    constructor (initial: map<string, string>)
      ensures files == initial
    {
      files := initial;
    }

    /** `fs.appendFileSync(path, data)`. */
    method AppendFile(path: string, data: string)
      modifies this
      ensures files == old(files)[path := Contents(old(files), path) + data]
    {
      files := files[path := Contents(files, path) + data];
    }
  }

  /** `prepare(context)`, with the configuration read beforehand and the glob
      of `assets/smee-*.js` under the distribution directory given as
      `globbed`. */
  method Prepare(fs: FileSystem, enabled: bool, revisionKey: string, globbed: seq<string>)
    returns (outcome: PrepareOutcome)
    modifies fs
    ensures (outcome, fs.files) == PrepareSpec(old(fs.files), enabled, revisionKey, globbed)
  {
    if !enabled {
      return Disabled;
    }
    if revisionKey == "" {
      return MissingKey(SilentError(MissingKeyMessage));
    }
    var target := FindTarget(globbed);
    if target.None? {
      return NoTarget;
    }
    var indexPath := globbed[target.value];
    fs.AppendFile(indexPath, RevisionAssignment + revisionKey);
    outcome := Tagged(indexPath);
  }
}

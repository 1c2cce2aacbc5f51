/** The plugin's fixed strings: the tag `contentFor` injects into the page
    and the message `didDeploy` logs once the release is published. */
module Messages {
  import opened Common

  /** The tag `contentFor` contributes to the `head-footer` slot. */
  const RevisionMetaTag := "<meta name=\"sentry:revision\"></meta>"

  const DidDeployPrefix := "Uploaded sourcemaps to sentry release: "

  /** `contentFor(type, config)`: the meta tag for the `head-footer` slot and
      nothing (`undefined`) for every other slot. */
  function ContentFor(kind: string): (r: Option<string>)
    ensures r.Some? <==> kind == "head-footer"
    ensures r.Some? ==> r.value == RevisionMetaTag
  {
    if kind == "head-footer" then Some(RevisionMetaTag) else None
  }

  /** The default `didDeployMessage`: the address of the release page on the
      Sentry server, built from the server URL, the organisation and project
      slugs and the revision key, in that order and separated by slashes. */
  function DidDeployMessage(sentryUrl: string, organizationSlug: string, projectSlug: string,
                            revisionKey: string): (m: string)
    ensures StartsWith(m, DidDeployPrefix + sentryUrl + "/")
    ensures EndsWith(m, "/releases/" + revisionKey + "/")
    ensures |m| == |DidDeployPrefix| + |sentryUrl| + |organizationSlug| + |projectSlug| + |revisionKey| + 13
    ensures m[|DidDeployPrefix| + |sentryUrl| + 1..][..|organizationSlug|] == organizationSlug
    ensures m[|DidDeployPrefix| + |sentryUrl| + |organizationSlug| + 1] == '/'
    ensures m[|DidDeployPrefix| + |sentryUrl| + |organizationSlug| + 2..][..|projectSlug|] == projectSlug
  {
    DidDeployPrefix + (sentryUrl + ("/" + ReleasePath(organizationSlug, projectSlug, revisionKey)))
  }

  /** Two strings that each start with a slash-free segment followed by a
      slash split the same way. */
  lemma {:induction false} SplitAtFirstSlash(a: string, x: string, b: string, y: string)
    requires '/' !in a && '/' !in b
    requires a + "/" + x == b + "/" + y
    ensures a == b && x == y
  {
    var s, t := a + "/" + x, b + "/" + y;
    assert s[|a|] == '/' && t[|b|] == '/';
    assert |a| == |b|;
    assert a == s[..|a|] && b == t[..|b|];
    assert x == s[|a| + 1..] && y == t[|b| + 1..];
  }

  /** The part of the message after the Sentry URL: the organisation slug,
      the project slug and the revision key, each followed by a slash. */
  function ReleasePath(organizationSlug: string, projectSlug: string, revisionKey: string): string {
    organizationSlug + ("/" + (projectSlug + ("/releases/" + (revisionKey + "/"))))
  }

  /** With slash-free slugs the release path splits back into its parts. */
  lemma {:induction false} ReleasePathSplits(org1: string, project1: string, key1: string,
                                             org2: string, project2: string, key2: string)
    requires '/' !in org1 && '/' !in project1 && '/' !in org2 && '/' !in project2
    requires ReleasePath(org1, project1, key1) == ReleasePath(org2, project2, key2)
    ensures org1 == org2 && project1 == project2 && key1 == key2
  {
    var r1, r2 := "releases/" + (key1 + "/"), "releases/" + (key2 + "/");
    var tail1, tail2 := project1 + ("/" + r1), project2 + ("/" + r2);
    assert ReleasePath(org1, project1, key1) == org1 + "/" + tail1;
    assert ReleasePath(org2, project2, key2) == org2 + "/" + tail2;
    SplitAtFirstSlash(org1, tail1, org2, tail2);
    assert tail1 == project1 + "/" + r1;
    assert tail2 == project2 + "/" + r2;
    SplitAtFirstSlash(project1, r1, project2, r2);
    assert key1 == r1[9..|r1| - 1];
    assert key2 == r2[9..|r2| - 1];
  }

  /** After the prefix, the Sentry URL and a slash, the message is the
      release path. */
  lemma MessageEndsWithReleasePath(sentryUrl: string, organizationSlug: string, projectSlug: string,
                                   revisionKey: string)
    ensures DidDeployMessage(sentryUrl, organizationSlug, projectSlug, revisionKey)[|DidDeployPrefix| + |sentryUrl| + 1..]
      == ReleasePath(organizationSlug, projectSlug, revisionKey)
  {
    var tail := "/" + ReleasePath(organizationSlug, projectSlug, revisionKey);
    var m := DidDeployPrefix + (sentryUrl + tail);
    assert m[|DidDeployPrefix| + |sentryUrl|..] == tail;
    assert m[|DidDeployPrefix| + |sentryUrl| + 1..] == tail[1..];
  }

  /** For one Sentry server, the message names the release unambiguously:
      when the slugs contain no slash, equal messages come from equal
      organisation slugs, equal project slugs and equal revision keys. */
  lemma DidDeployMessageDeterminesRelease(sentryUrl: string, org1: string, project1: string, key1: string,
                                          org2: string, project2: string, key2: string)
    requires '/' !in org1 && '/' !in project1 && '/' !in org2 && '/' !in project2
    requires DidDeployMessage(sentryUrl, org1, project1, key1) == DidDeployMessage(sentryUrl, org2, project2, key2)
    ensures org1 == org2 && project1 == project2 && key1 == key2
  {
    MessageEndsWithReleasePath(sentryUrl, org1, project1, key1);
    MessageEndsWithReleasePath(sentryUrl, org2, project2, key2);
    ReleasePathSplits(org1, project1, key1, org2, project2, key2);
  }

  /** `didDeploy`: the configured message is logged, once and not verbose,
      exactly when it is non-empty (truthy). */
  function DidDeploy(didDeployMessage: string): (log: seq<LogLine>)
    ensures |log| <= 1
    ensures log != [] <==> didDeployMessage != ""
    ensures log != [] ==> log[0] == LogLine(didDeployMessage, false)
  {
    if didDeployMessage != "" then [LogLine(didDeployMessage, false)] else []
  }
}

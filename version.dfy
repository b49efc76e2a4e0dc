/** The version string of the cca binary (cmd/cca/version/version.go). The
    three package-level variables provisioned at link time are the fields of
    `BuildInfo`; the clock and the platform are parameters. */
module VersionInfo {

  const Current := "v0.0.1-dev"

  predicate HasSuffix(s: string, suffix: string) {
    |suffix| <= |s| && s[|s| - |suffix|..] == suffix
  }

  /** The version after `Version()`: defaulted when empty, then extended by
      the commit hash unless it already ends with it. */
  function NextVersion(version: string, commitHash: string): (r: string)
    ensures r != ""
    ensures var v := if version == "" then Current else version; |v| <= |r| && r[..|v|] == v
    ensures commitHash != "" ==> HasSuffix(r, commitHash)
  {
    var v := if version == "" then Current else version;
    if commitHash != "" && !HasSuffix(v, commitHash) then
      var w := v + " " + commitHash;
      assert w[|w| - |commitHash|..] == commitHash;
      w
    else
      v
  }

  function NextBuildDate(buildDate: string, now: string): string
  {
    if buildDate == "" then now else buildDate
  }

  function Render(version: string, goos: string, goarch: string, buildDate: string): string
  {
    version + " " + goos + "/" + goarch + " BuildDate: " + buildDate
  }

  /** An empty version becomes the current one; that defaulted version is
      extended by a space and the commit hash exactly when the hash is non-empty
      and not already its suffix; a non-empty commit hash ends the version
      afterwards; an empty one never extends it. */
  lemma NextVersionShape(version: string, commitHash: string)
    ensures version == "" && commitHash == "" ==> NextVersion(version, commitHash) == Current
    ensures var v := if version == "" then Current else version;
      && (commitHash != "" && !HasSuffix(v, commitHash) ==> NextVersion(version, commitHash) == v + " " + commitHash)
      && (commitHash == "" || HasSuffix(v, commitHash) ==> NextVersion(version, commitHash) == v)
    ensures commitHash != "" ==> HasSuffix(NextVersion(version, commitHash), commitHash)
    ensures commitHash == "" ==> NextVersion(version, commitHash) == (if version == "" then Current else version)
    ensures version != "" && HasSuffix(version, commitHash) ==> NextVersion(version, commitHash) == version
  {
    var v := if version == "" then Current else version;
    if commitHash != "" && !HasSuffix(v, commitHash) {
      var w := v + " " + commitHash;
      assert w[|w| - |commitHash|..] == commitHash;
    }
  }

  /** A second `Version()` leaves the version as the first one made it: the
      commit hash is not appended twice. */
  lemma NextVersionIdempotent(version: string, commitHash: string)
    ensures NextVersion(NextVersion(version, commitHash), commitHash) == NextVersion(version, commitHash)
  {
    NextVersionShape(version, commitHash);
    assert NextVersion(version, commitHash) != "";
  }

  class BuildInfo {
    var version: string
    var commitHash: string
    var buildDate: string

    constructor (version: string, commitHash: string, buildDate: string)
      ensures this.version == version && this.commitHash == commitHash && this.buildDate == buildDate
    {
      this.version := version;
      this.commitHash := commitHash;
      this.buildDate := buildDate;
    }

    /** `Version()`. `now` is the current time formatted as RFC 3339. */
    method Version(goos: string, goarch: string, now: string) returns (s: string)
      modifies this`version, this`buildDate
      ensures version == NextVersion(old(version), commitHash)
      ensures buildDate == NextBuildDate(old(buildDate), now)
      ensures old(buildDate) != "" ==> buildDate == old(buildDate)
      ensures s == Render(version, goos, goarch, buildDate)
    {
      if version == "" {
        version := Current;
      }
      if commitHash != "" && !HasSuffix(version, commitHash) {
        version := version + " " + commitHash;
      }
      if buildDate == "" {
        buildDate := now;
      }
      s := version + " " + goos + "/" + goarch + " BuildDate: " + buildDate;
    }
  }

  /** Calling `Version()` twice on the same platform returns the same string:
      the version is already final, and the clock is read only while the
      build date is empty, which a formatted time never is. */
  lemma VersionIdempotent(version: string, commitHash: string, buildDate: string,
                          goos: string, goarch: string, now1: string, now2: string)
    requires now1 != ""
    ensures var v1, d1 := NextVersion(version, commitHash), NextBuildDate(buildDate, now1);
      && NextVersion(v1, commitHash) == v1
      && NextBuildDate(d1, now2) == d1
      && Render(NextVersion(v1, commitHash), goos, goarch, NextBuildDate(d1, now2)) == Render(v1, goos, goarch, d1)
  {
    NextVersionIdempotent(version, commitHash);
  }
}

/**
 * Where msbuild.exe lives: the primary toolset locator first, and only if it
 * gives nothing, a fixed, ordered list of Visual Studio 2017 installations
 * under the 32-bit Program Files folder.
 */
module Location {
  import opened Wrappers
  import opened Exceptions
  import opened Paths

  /** What the host shows the locator; the I/O of the original is read off this. */
  datatype Host = Host(
    locatorResult: Option<Path>,  // the primary toolset locator's answer; None is null
    programFilesX86: Path,        // the ProgramFilesX86 special folder
    existingFiles: set<Path>)     // the files for which an existence probe succeeds

  const ToolsNotFoundMessage: string := "Could not locate the tools (msbuild.exe) path"

  /** The Visual Studio 2017 editions probed, in order of preference. */
  const Editions: seq<string> := ["Enterprise", "Professional", "Community"]

  /** The directory msbuild.exe sits in for one edition, relative to Program Files (x86). */
  function InstallDir(edition: string): seq<Segment> {
    ["Microsoft Visual Studio", "2017", edition, "MSBuild", "15.0", "Bin"]
  }

  function Candidate(programFilesX86: Path, edition: string): Path {
    Combine(programFilesX86, InstallDir(edition) + ["MSBuild.exe"])
  }

  function Candidates(programFilesX86: Path): seq<Path> {
    [Candidate(programFilesX86, Editions[0]),
     Candidate(programFilesX86, Editions[1]),
     Candidate(programFilesX86, Editions[2])]
  }

  predicate IsNullOrEmpty(p: Option<Path>) {
    p.None? || p.value == []
  }

  /** The first of `paths` that exists, or None when none of them does. */
  function FirstExisting(paths: seq<Path>, files: set<Path>): (r: Option<Path>)
    ensures r.None? <==> forall i :: 0 <= i < |paths| ==> paths[i] !in files
    ensures r.Some? ==> exists i :: 0 <= i < |paths| && paths[i] == r.value && r.value in files &&
                                    forall j :: 0 <= j < i ==> paths[j] !in files
  {
    if paths == [] then None
    else if paths[0] in files then Some(paths[0])
    else
      var rest := FirstExisting(paths[1..], files);
      assert forall i :: 1 <= i < |paths| ==> paths[i] == paths[1..][i - 1];
      rest
  }

  /** Probe the three installations in order and return the first msbuild.exe that exists. */
  function PollForToolsPath(programFilesX86: Path, files: set<Path>): (r: Option<Path>)
    ensures r.None? <==> forall e :: e in Editions ==> Candidate(programFilesX86, e) !in files
    ensures r.Some? ==> r.value in files && exists e :: e in Editions && r.value == Candidate(programFilesX86, e)
  {
    var candidates := Candidates(programFilesX86);
    assert forall e :: e in Editions ==> Candidate(programFilesX86, e) in candidates;
    FirstExisting(candidates, files)
  }

  /** The directory of msbuild.exe, or the exception that ends the search. */
  function LocatedToolsPath(host: Host): (r: Result<Path, Exception>)
    ensures r.Failure? ==> r.error == InvalidOperation(ToolsNotFoundMessage)
  {
    if !IsNullOrEmpty(host.locatorResult) then
      Success(DirectoryName(host.locatorResult.value))
    else
      var polled := PollForToolsPath(host.programFilesX86, host.existingFiles);
      if polled.None? then Failure(InvalidOperation(ToolsNotFoundMessage))
      else
        assert polled.value in Candidates(host.programFilesX86);
        Success(DirectoryName(polled.value))
  }

  method LocateToolsPath(host: Host) returns (r: Result<Path, Exception>)
    ensures r == LocatedToolsPath(host)
  {
    var toolsPath := host.locatorResult;
    if IsNullOrEmpty(toolsPath) {
      // the primary locator can fail on some installations: poll the known ones
      toolsPath := PollForToolsPath(host.programFilesX86, host.existingFiles);
    }
    if IsNullOrEmpty(toolsPath) {
      return Failure(InvalidOperation(ToolsNotFoundMessage));
    }
    return Success(DirectoryName(toolsPath.value));
  }

  /** Earlier editions win: the result is decided by the first existing candidate in list order. */
  lemma PollPrefersEditionOrder(programFilesX86: Path, files: set<Path>)
    ensures var enterprise, professional, community :=
              Candidate(programFilesX86, "Enterprise"),
              Candidate(programFilesX86, "Professional"),
              Candidate(programFilesX86, "Community");
            PollForToolsPath(programFilesX86, files) ==
              if enterprise in files then Some(enterprise)
              else if professional in files then Some(professional)
              else if community in files then Some(community)
              else None
  {
    var cs := Candidates(programFilesX86);
    assert cs[1..] == [cs[1], cs[2]];
    assert cs[1..][1..] == [cs[2]];
    assert [cs[2]][1..] == [];
  }

  /** A non-empty primary answer decides the result; the fallback list is never looked at. */
  lemma PrimaryLocatorShadowsFallback(host: Host, other: Host)
    requires !IsNullOrEmpty(host.locatorResult) && other.locatorResult == host.locatorResult
    ensures LocatedToolsPath(host) == LocatedToolsPath(other) == Success(DirectoryName(host.locatorResult.value))
  {
  }

  /** Location fails exactly when the primary locator gives nothing and no edition is installed. */
  lemma LocationFailsIff(host: Host)
    ensures LocatedToolsPath(host).Failure? <==>
              IsNullOrEmpty(host.locatorResult) &&
              forall e :: e in Editions ==> Candidate(host.programFilesX86, e) !in host.existingFiles
    ensures LocatedToolsPath(host).Failure? ==> LocatedToolsPath(host).error == InvalidOperation(ToolsNotFoundMessage)
  {
    PollPrefersEditionOrder(host.programFilesX86, host.existingFiles);
  }

  /** A path found by polling is the Bin directory of an installed edition. */
  lemma FallbackToolsPath(host: Host)
    requires IsNullOrEmpty(host.locatorResult) && LocatedToolsPath(host).Success?
    ensures exists e :: e in Editions && Candidate(host.programFilesX86, e) in host.existingFiles &&
                        LocatedToolsPath(host).value == host.programFilesX86 + InstallDir(e)
  {
  }
}

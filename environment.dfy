/**
 * The build environment for a .NET Framework host: the msbuild tools
 * directory, the paths derived from it, and the global properties handed to
 * msbuild.
 */
module Environment {
  import opened Wrappers
  import opened Exceptions
  import opened Paths
  import opened Location

  /** The reserved global-property names msbuild reads these paths from. */
  const MSBuildExtensionsPathKey: string := "MSBuildExtensionsPath"
  const MSBuildSDKsPathKey: string := "MSBuildSDKsPath"
  const RoslynTargetsPathKey: string := "RoslynTargetsPath"
  const ReservedKeys: set<string> := {MSBuildExtensionsPathKey, MSBuildSDKsPathKey, RoslynTargetsPathKey}

  const SdksDir: Segment := "Sdks"
  const RoslynDir: Segment := "Roslyn"

  /** Resolves the SDK root of a project, or fails with the resolver's message. */
  type SdkPathResolver = Path -> Result<Path, string>

  datatype EnvironmentPaths = EnvironmentPaths(
    toolsPath: Path,
    extensionsPath: Path,
    sdksPath: Path,
    roslynTargetsPath: Path)

  /** Two levels up from the tools directory, normalised. */
  function ExtensionsPathOf(toolsPath: Path): (r: Path)
    ensures IsNormal(r) && |r| <= |toolsPath|
  {
    FullPath(Combine(toolsPath, ["..", ".."]))
  }

  /** What constructing an environment yields: the four paths, or the exception it throws. */
  function ResolvedPaths(projectPath: Path, sdkProject: bool, host: Host, resolver: SdkPathResolver)
    : (r: Result<EnvironmentPaths, Exception>)
    ensures r.Success? ==> LocatedToolsPath(host).Success? && r.value.toolsPath == LocatedToolsPath(host).value
    ensures r.Success? ==> r.value.extensionsPath == ExtensionsPathOf(r.value.toolsPath)
  {
    match LocatedToolsPath(host)
    case Failure(e) => Failure(e)
    case Success(toolsPath) =>
      var extensionsPath := ExtensionsPathOf(toolsPath);
      var sdkRoot := if sdkProject then resolver(projectPath) else Success(extensionsPath);
      match sdkRoot
      case Failure(message) => Failure(SdkResolution(message))
      case Success(root) =>
        Success(EnvironmentPaths(toolsPath, extensionsPath, Combine(root, [SdksDir]), Combine(toolsPath, [RoslynDir])))
  }

  /** Dictionary.Add on the entries: adds a new entry, and throws rather than overwrite an existing key. */
  function DictionaryAdd(properties: map<string, string>, key: string, value: string): (r: Result<map<string, string>, Exception>)
    ensures r.Failure? <==> key in properties
    ensures r.Failure? ==> r.error == DuplicateKey(key)
    ensures r.Success? ==> r.value.Keys == properties.Keys + {key} && r.value[key] == value
    ensures r.Success? ==> forall k :: k in properties ==> r.value[k] == properties[k]
  {
    if key in properties then Failure(DuplicateKey(key)) else Success(properties[key := value])
  }

  /** The property dictionary, an object that `Add` changes in place. */
  class PropertyDictionary {
    var Entries: map<string, string>

    constructor (entries: map<string, string>)
      ensures Entries == entries
    {
      Entries := entries;
    }

    method Add(key: string, value: string) returns (r: Outcome<Exception>)
      modifies this
      ensures match DictionaryAdd(old(Entries), key, value)
              case Success(entries) => r.Pass? && Entries == entries
              case Failure(e) => r == Fail(e) && Entries == old(Entries)
    {
      if key in Entries {
        return Fail(DuplicateKey(key));
      }
      Entries := Entries[key := value];
      return Pass;
    }
  }

  class FrameworkEnvironment {
    const ToolsPath: Path
    const ExtensionsPath: Path
    const SDKsPath: Path
    const RoslynTargetsPath: Path

    function AllPaths(): EnvironmentPaths {
      EnvironmentPaths(ToolsPath, ExtensionsPath, SDKsPath, RoslynTargetsPath)
    }

    constructor FromPaths(paths: EnvironmentPaths)
      ensures AllPaths() == paths
    {
      ToolsPath := paths.toolsPath;
      ExtensionsPath := paths.extensionsPath;
      SDKsPath := paths.sdksPath;
      RoslynTargetsPath := paths.roslynTargetsPath;
    }

    /**
     * The constructor of the original: locate the tools, derive the other
     * paths from them once, and fail without an object if location or SDK
     * resolution throws.
     */
    static method Create(projectPath: Path, sdkProject: bool, host: Host, resolver: SdkPathResolver)
      returns (r: Result<FrameworkEnvironment, Exception>)
      ensures r.Failure? <==> ResolvedPaths(projectPath, sdkProject, host, resolver).Failure?
      ensures r.Failure? ==> r.error == ResolvedPaths(projectPath, sdkProject, host, resolver).error
      ensures r.Success? ==> fresh(r.value) && r.value.AllPaths() == ResolvedPaths(projectPath, sdkProject, host, resolver).value
      ensures r.Success? ==> r.value.GetToolsPath() == LocatedToolsPath(host).value
    {
      var toolsPath :- LocateToolsPath(host);
      var extensionsPath := ExtensionsPathOf(toolsPath);
      var sdkRoot := extensionsPath;
      if sdkProject {
        var resolved := resolver(projectPath);
        if resolved.Failure? {
          return Failure(SdkResolution(resolved.error));
        }
        sdkRoot := resolved.value;
      }
      var env := new FrameworkEnvironment.FromPaths(
        EnvironmentPaths(toolsPath, extensionsPath, Combine(sdkRoot, [SdksDir]), Combine(toolsPath, [RoslynDir])));
      r := Success(env);
    }

    /** The tools path; a const field, so every call returns the value fixed at creation. */
    function GetToolsPath(): (r: Path)
      ensures r == ToolsPath
    {
      ToolsPath
    }

    /**
     * Adds the three reserved paths to the dictionary the base environment
     * returned, in place, and returns that same dictionary.  The first
     * reserved key already present throws, leaving the entries added before it.
     */
    method GetGlobalProperties(globalProperties: PropertyDictionary) returns (r: Result<PropertyDictionary, Exception>)
      modifies globalProperties
      ensures r.Success? ==> r.value == globalProperties
      ensures var before := old(globalProperties.Entries);
              r.Failure? <==> MSBuildExtensionsPathKey in before || MSBuildSDKsPathKey in before ||
                              RoslynTargetsPathKey in before
      ensures var before := old(globalProperties.Entries);
              r.Failure? ==> r.error == DuplicateKey(
                               if MSBuildExtensionsPathKey in before then MSBuildExtensionsPathKey
                               else if MSBuildSDKsPathKey in before then MSBuildSDKsPathKey
                               else RoslynTargetsPathKey)
      ensures var before := old(globalProperties.Entries);
              var withExtensions := before[MSBuildExtensionsPathKey := Render(ExtensionsPath)];
              var withSdks := withExtensions[MSBuildSDKsPathKey := Render(SDKsPath)];
              globalProperties.Entries ==
                if MSBuildExtensionsPathKey in before then before
                else if MSBuildSDKsPathKey in before then withExtensions
                else if RoslynTargetsPathKey in before then withSdks
                else withSdks[RoslynTargetsPathKey := Render(RoslynTargetsPath)]
      ensures var before, after := old(globalProperties.Entries), globalProperties.Entries;
              r.Success? ==> && after.Keys == before.Keys + ReservedKeys
                             && after[MSBuildExtensionsPathKey] == Render(ExtensionsPath)
                             && after[MSBuildSDKsPathKey] == Render(SDKsPath)
                             && after[RoslynTargetsPathKey] == Render(RoslynTargetsPath)
                             && forall k :: k in before ==> after[k] == before[k]
    {
      var added := globalProperties.Add(MSBuildExtensionsPathKey, Render(ExtensionsPath));
      if added.Fail? {
        return Failure(added.error);
      }
      added := globalProperties.Add(MSBuildSDKsPathKey, Render(SDKsPath));
      if added.Fail? {
        return Failure(added.error);
      }
      added := globalProperties.Add(RoslynTargetsPathKey, Render(RoslynTargetsPath));
      if added.Fail? {
        return Failure(added.error);
      }
      return Success(globalProperties);
    }
  }

  /** Construction fails exactly when location fails or, for an SDK-style project, the resolver does. */
  lemma ResolutionFailsIff(projectPath: Path, sdkProject: bool, host: Host, resolver: SdkPathResolver)
    ensures var r := ResolvedPaths(projectPath, sdkProject, host, resolver);
            && (r.Failure? <==> LocatedToolsPath(host).Failure? || (sdkProject && resolver(projectPath).Failure?))
            && (LocatedToolsPath(host).Failure? ==> r.error == InvalidOperation(ToolsNotFoundMessage))
            && (LocatedToolsPath(host).Success? && r.Failure? ==> r.error == SdkResolution(resolver(projectPath).error))
  {
  }

  /** The tools path is the located one; the Roslyn targets sit in its Roslyn subdirectory. */
  lemma ToolsAndRoslynPaths(projectPath: Path, sdkProject: bool, host: Host, resolver: SdkPathResolver)
    requires ResolvedPaths(projectPath, sdkProject, host, resolver).Success?
    ensures var p := ResolvedPaths(projectPath, sdkProject, host, resolver).value;
            && p.toolsPath == LocatedToolsPath(host).value
            && p.roslynTargetsPath == p.toolsPath + [RoslynDir]
  {
  }

  /** The extensions path is the grandparent of the normalised tools path (empty above the top). */
  lemma ExtensionsPathIsGrandparent(projectPath: Path, sdkProject: bool, host: Host, resolver: SdkPathResolver)
    requires ResolvedPaths(projectPath, sdkProject, host, resolver).Success?
    ensures var p := ResolvedPaths(projectPath, sdkProject, host, resolver).value;
            var n := FullPath(p.toolsPath);
            p.extensionsPath == if |n| >= 2 then n[..|n| - 2] else []
  {
    UpTwice(LocatedToolsPath(host).value);
  }

  /** For a normal tools path, the extensions path followed by its last two segments is the tools path. */
  lemma ExtensionsPathOfNormalTools(projectPath: Path, sdkProject: bool, host: Host, resolver: SdkPathResolver)
    requires ResolvedPaths(projectPath, sdkProject, host, resolver).Success?
    requires var t := LocatedToolsPath(host).value; IsNormal(t) && |t| >= 2
    ensures var p := ResolvedPaths(projectPath, sdkProject, host, resolver).value;
            p.extensionsPath + p.toolsPath[|p.toolsPath| - 2..] == p.toolsPath
  {
    GrandparentOfNormal(LocatedToolsPath(host).value);
  }

  /** SDK-style projects take the SDK root from the resolver, legacy ones from the extensions path. */
  lemma SdksPathSource(projectPath: Path, sdkProject: bool, host: Host, resolver: SdkPathResolver)
    requires ResolvedPaths(projectPath, sdkProject, host, resolver).Success?
    ensures var p := ResolvedPaths(projectPath, sdkProject, host, resolver).value;
            && (sdkProject ==> resolver(projectPath).Success? && p.sdksPath == resolver(projectPath).value + [SdksDir])
            && (!sdkProject ==> p.sdksPath == p.extensionsPath + [SdksDir])
  {
  }

  /** A legacy project never consults the SDK path resolver. */
  lemma LegacyProjectIgnoresResolver(projectPath: Path, host: Host, resolver: SdkPathResolver, other: SdkPathResolver)
    ensures ResolvedPaths(projectPath, false, host, resolver) == ResolvedPaths(projectPath, false, host, other)
  {
  }

  /**
   * With the primary locator silent, the environment sits in an installed
   * Visual Studio 2017 edition: tools in its Bin directory, extensions in its
   * (normalised) MSBuild directory.
   */
  lemma FallbackEnvironment(projectPath: Path, sdkProject: bool, host: Host, resolver: SdkPathResolver)
    requires IsNullOrEmpty(host.locatorResult)
    requires ResolvedPaths(projectPath, sdkProject, host, resolver).Success?
    ensures var p := ResolvedPaths(projectPath, sdkProject, host, resolver).value;
            exists e :: e in Editions && Candidate(host.programFilesX86, e) in host.existingFiles &&
                        p.toolsPath == host.programFilesX86 + InstallDir(e) &&
                        p.extensionsPath == FullPath(host.programFilesX86) + ["Microsoft Visual Studio", "2017", e, "MSBuild"]
  {
    var pf := host.programFilesX86;
    FallbackToolsPath(host);
    var e :| e in Editions && Candidate(pf, e) in host.existingFiles && LocatedToolsPath(host).value == pf + InstallDir(e);
    var t := pf + InstallDir(e);
    FullPathAppendNormal(pf, InstallDir(e));
    UpTwice(t);
    var n := FullPath(t);
    assert n[..|n| - 2] == FullPath(pf) + ["Microsoft Visual Studio", "2017", e, "MSBuild"];
  }

  /** A legacy project with tools in /opt/tools/v17/bin. */
  lemma LegacyScenario(host: Host, resolver: SdkPathResolver)
    requires host.locatorResult == Some(["opt", "tools", "v17", "bin", "MSBuild.exe"])
    ensures ResolvedPaths([], false, host, resolver) == Success(EnvironmentPaths(
              ["opt", "tools", "v17", "bin"],
              ["opt", "tools"],
              ["opt", "tools", "Sdks"],
              ["opt", "tools", "v17", "bin", "Roslyn"]))
  {
    var toolsPath: Path := ["opt", "tools", "v17", "bin"];
    assert DirectoryName(host.locatorResult.value) == toolsPath;
    assert IsNormal(toolsPath) by {
      assert forall i :: 0 <= i < 4 ==> toolsPath[i] in {"opt", "tools", "v17", "bin"};
    }
    GrandparentOfNormal(toolsPath);
    assert LocatedToolsPath(host) == Success(toolsPath);
    assert ExtensionsPathOf(toolsPath) == ["opt", "tools"];
    assert toolsPath + [RoslynDir] == ["opt", "tools", "v17", "bin", "Roslyn"];
    assert ["opt", "tools"] + [SdksDir] == ["opt", "tools", "Sdks"];
  }
}

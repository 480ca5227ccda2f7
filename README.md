# Buildalyzer's .NET Framework build environment, in Dafny

This project models `FrameworkEnvironment`, the part of Buildalyzer that decides where MSBuild lives on a
.NET Framework host and which paths it hands to MSBuild as global properties:

- **Tools location** (`Location`): ask the primary toolset locator for `msbuild.exe`. Only if its answer
  is null or empty, probe the Visual Studio 2017 installations under the Program Files (x86) folder, in the
  order Enterprise, Professional, Community, and take the first that exists. If both give nothing, throw
  `InvalidOperationException`. Otherwise the tools path is the directory of the executable found.
- **Derived paths** (`Environment.ResolvedPaths`, `FrameworkEnvironment.Create`): the extensions path is the
  tools path two levels up. The SDKs path is `Sdks` under the SDK resolver's answer for SDK-style projects,
  and `Sdks` under the extensions path otherwise. The Roslyn targets path is `Roslyn` under the tools path.
  The four paths are `const` fields of the object, set once when it is created.
- **Global properties** (`FrameworkEnvironment.GetGlobalProperties`): the dictionary returned by the base
  environment, with three reserved keys added in place by `Dictionary.Add`. The same dictionary object is
  returned. `Dictionary.Add` throws `ArgumentException` on a key that is already present, so a base dictionary
  that already holds a reserved key makes the call fail, and the entries added before that key stay in it.
  The model fails with `DuplicateKey` and never overwrites.

Paths are sequences of segments (`Paths`). `Combine` appends segments, `DirectoryName` drops the last one,
and `FullPath` resolves `.`, `..` and empty segments from left to right. Host input/output is a value of
`Location.Host`: the primary locator's answer, the Program Files (x86) folder, and the set of files that
exist. The SDK path resolver is a function parameter that can fail. The dictionary is a `PropertyDictionary`
object whose `Entries` map `Add` updates. Exceptions are `Failure` values of `Result` (or `Fail` values of
`Outcome` for a call that returns nothing).

The primary locator's answer is only tested for null or empty, never for existence. The model does the same.

## Model

| member | source | states |
|---|---|---|
| Paths.FullPath | src/Buildalyzer/Environment/FrameworkEnvironment.cs:21 | full-path normalisation leaves no `.`, `..` or empty segment and never lengthens the path |
| Paths.FullPathOfNormal | src/Buildalyzer/Environment/FrameworkEnvironment.cs:21 | normalising a path that is already normal changes nothing |
| Paths.UpTwice | src/Buildalyzer/Environment/FrameworkEnvironment.cs:21 | combining any path with `..\..` and normalising gives its normalised form without the last two segments, or the empty path when it has fewer |
| Paths.GrandparentOfNormal | src/Buildalyzer/Environment/FrameworkEnvironment.cs:21 | for a normal path of two or more segments that is the path without its last two segments |
| Paths.FullPathAppendNormal | src/Buildalyzer/Environment/FrameworkEnvironment.cs:21 | normalising a path followed by plain segments gives the normalised path followed by those segments |
| Location.FirstExisting | src/Buildalyzer/Environment/FrameworkEnvironment.cs:63-64 | `Where(File.Exists).FirstOrDefault()`: none exactly when no candidate exists; otherwise an existing candidate with no existing candidate before it |
| Location.PollForToolsPath | src/Buildalyzer/Environment/FrameworkEnvironment.cs:54-65 | nothing exactly when no edition's executable exists; otherwise an existing candidate under the Program Files (x86) folder; the order is stated by `PollPrefersEditionOrder` |
| Location.PollPrefersEditionOrder | src/Buildalyzer/Environment/FrameworkEnvironment.cs:54-65 | polling returns the Enterprise executable if it exists, else Professional, else Community, else nothing |
| Location.LocatedToolsPath | src/Buildalyzer/Environment/FrameworkEnvironment.cs:37-51 | the location specification; a failure is always `InvalidOperationException` with the source's message; when it fails is stated by `LocationFailsIff`, the primary answer's precedence by `PrimaryLocatorShadowsFallback` |
| Location.LocateToolsPath | src/Buildalyzer/Environment/FrameworkEnvironment.cs:37-51 | the step-by-step location with the early throw agrees with the location specification `LocatedToolsPath` |
| Location.PrimaryLocatorShadowsFallback | src/Buildalyzer/Environment/FrameworkEnvironment.cs:39-50 | a non-empty primary answer yields its directory, whatever the Program Files folder and the installed files are |
| Location.LocationFailsIff | src/Buildalyzer/Environment/FrameworkEnvironment.cs:40-49 | location throws `InvalidOperationException` with the source's message exactly when the primary answer is null or empty and no edition's executable exists |
| Location.FallbackToolsPath | src/Buildalyzer/Environment/FrameworkEnvironment.cs:50-61 | a polled tools path is `<Program Files (x86)>/Microsoft Visual Studio/2017/<edition>/MSBuild/15.0/Bin` of an edition whose executable exists |
| Environment.ResolvedPaths | src/Buildalyzer/Environment/FrameworkEnvironment.cs:18-24 | the constructor's specification: on success the tools path is the located one and the extensions path is derived from it; its failures are stated by `ResolutionFailsIff`, its paths by `ToolsAndRoslynPaths`, `ExtensionsPathIsGrandparent` and `SdksPathSource` |
| Environment.ExtensionsPathOf | src/Buildalyzer/Environment/FrameworkEnvironment.cs:21 | the extensions path is a normalised path no longer than the tools path; `ExtensionsPathIsGrandparent` states it is the grandparent |
| Environment.ResolutionFailsIff | src/Buildalyzer/Environment/FrameworkEnvironment.cs:18-22 | construction fails exactly when location fails or, for an SDK-style project, the resolver fails; a location failure is reported first and a resolver failure is passed on with its message |
| Environment.ToolsAndRoslynPaths | src/Buildalyzer/Environment/FrameworkEnvironment.cs:20-26 | the tools path is the located directory and the Roslyn targets path is that directory joined with `Roslyn` |
| Environment.ExtensionsPathIsGrandparent | src/Buildalyzer/Environment/FrameworkEnvironment.cs:21 | for any located tools path, the extensions path is the normalised tools path without its last two segments (empty when it has fewer) |
| Environment.ExtensionsPathOfNormalTools | src/Buildalyzer/Environment/FrameworkEnvironment.cs:21 | for a normal tools path of two or more segments, the extensions path followed by the tools path's last two segments is the tools path |
| Environment.SdksPathSource | src/Buildalyzer/Environment/FrameworkEnvironment.cs:22 | SDK-style: `Sdks` under the resolver's answer for the project path; legacy: `Sdks` under the extensions path |
| Environment.LegacyProjectIgnoresResolver | src/Buildalyzer/Environment/FrameworkEnvironment.cs:22 | for a legacy project the result is the same whatever the SDK resolver does |
| Environment.FallbackEnvironment | src/Buildalyzer/Environment/FrameworkEnvironment.cs:20-21 | with the primary locator silent, the tools path is the `Bin` directory of an installed Visual Studio 2017 edition and the extensions path is the normalised Program Files (x86) folder followed by that edition's `MSBuild` directory |
| Environment.LegacyScenario | src/Buildalyzer/Environment/FrameworkEnvironment.cs:18-24 | a legacy project with tools in `/opt/tools/v17/bin` gets extensions `/opt/tools`, SDKs `/opt/tools/Sdks`, Roslyn `/opt/tools/v17/bin/Roslyn` |
| Environment.DictionaryAdd | src/Buildalyzer/Environment/FrameworkEnvironment.cs:31-33 | `Dictionary.Add` on the entries: fails exactly on a key already present; otherwise it adds that key with the value and leaves every other entry as it was |
| Environment.PropertyDictionary.Add | src/Buildalyzer/Environment/FrameworkEnvironment.cs:31-33 | `Dictionary.Add` in place: the entries become `DictionaryAdd`'s result, or on a duplicate key stay as they were and the call fails with `DuplicateKey` |
| Environment.FrameworkEnvironment.Create | src/Buildalyzer/Environment/FrameworkEnvironment.cs:18-24 | the constructor: fails exactly when the path specification fails, with its exception; otherwise a new object whose four paths are the specified ones and whose `GetToolsPath()` is the located directory |
| Environment.FrameworkEnvironment.GetToolsPath | src/Buildalyzer/Environment/FrameworkEnvironment.cs:26 | returns the `ToolsPath` field, a const fixed at creation; `Create` states it is the located directory |
| Environment.FrameworkEnvironment.GetGlobalProperties | src/Buildalyzer/Environment/FrameworkEnvironment.cs:28-35 | updates the given dictionary in place and returns that same object; fails exactly when it holds a reserved key, naming the first in `Add` order and leaving the reserved entries added before it; otherwise the old keys plus exactly the three reserved keys, holding the extensions, SDKs and Roslyn targets paths, with every old entry unchanged |

## Left out

- The primary toolset locator (`ToolLocationHelper.GetPathToBuildToolsFile`) is a field of `Host`, not a registry or toolset lookup.
- `File.Exists` and `Environment.GetFolderPath(ProgramFilesX86)` are the `existingFiles` set and the `programFilesX86` path of `Host`.
- `DotnetPathResolver.ResolvePath` is not part of this model. It is a function parameter whose failure carries a message.
- The base `BuildEnvironment.GetGlobalProperties` is not part of this model. The dictionary it returns is the `PropertyDictionary` passed to `GetGlobalProperties`.
- FrameworkEnvironment.GetGlobalProperties: the enumeration order of the .NET `Dictionary` is not modelled, because `Entries` is a `map`; the in-place update, the returned object being the one passed in, and the entries left behind by a failing `Add` are modelled.
- The literal values of the `MsBuildProperties` constants are not part of this model. The model uses the MSBuild property names `MSBuildExtensionsPath`, `MSBuildSDKsPath` and `RoslynTargetsPath`; the proofs only need them to be distinct.
- Windows path details are not modelled: drive letters, `\` versus `/`, the trailing separator `GetFullPath` keeps, a rooted second argument to `Path.Combine`, `..` at a drive root, `GetDirectoryName` returning null for a root, and resolution of relative paths against the current directory. `Render` joins segments with `\` to give property values.
- The unused private field `_sdkProject` is not modelled.

/**
 * `Tools.ComputeVersions` of the installer: finds the built add-in assembly in
 * the first directory that holds one and derives the installer's version from
 * its file version. MSI versions allow at most 255 as the major component, so a
 * year-numbered major (2025) becomes its last two digits (25).
 */
module InstallerTools {
  import opened Wrappers
  import opened Host

  /** A `System.Version` after `ClearRevision()`: major, minor and build. */
  datatype Version = Version(major: nat, minor: nat, build: nat)

  datatype Versions = Versions(installerVersion: Version, assemblyVersion: Version, revitVersion: nat)

  const NotFound: Exception := Exception(OtherException, "RevitLookup.dll file could not be found")

  /** The versions derived from the assembly's file version. */
  function Derive(version: Version): (r: Versions)
    ensures r.assemblyVersion == version && r.revitVersion == version.major
    ensures version.major <= 255 ==> r.installerVersion == version
    ensures version.major > 255 ==> r.installerVersion == Version(version.major % 100, version.minor, version.build)
    ensures r.installerVersion.major <= 255
  {
    Versions(
      installerVersion := if version.major > 255 then Version(version.major % 100, version.minor, version.build) else version,
      assemblyVersion := version,
      revitVersion := version.major)
  }

  /** The index of the first directory whose search finds the assembly, if any. */
  function FirstWithAssembly(directories: seq<string>, assembliesIn: string -> seq<string>): (r: Option<nat>)
    ensures r.Some? ==> r.value < |directories| && assembliesIn(directories[r.value]) != []
    ensures r.Some? ==> forall k | 0 <= k < r.value :: assembliesIn(directories[k]) == []
    ensures r.None? ==> forall k | 0 <= k < |directories| :: assembliesIn(directories[k]) == []
  {
    if directories == [] then None
    else if assembliesIn(directories[0]) != [] then Some(0)
    else match FirstWithAssembly(directories[1..], assembliesIn)
      case None => None
      case Some(i) => Some(i + 1)
  }

  /**
   * `ComputeVersions(args)`: searches the directories in argument order and
   * skips those without the assembly; the first assembly found decides. The
   * directory search and the file version read are host inputs (`assembliesIn`,
   * `fileVersion`); reading or parsing a file version can itself fail.
   */
  method ComputeVersions(args: seq<string>, assembliesIn: string -> seq<string>, fileVersion: string -> Result<Version, Exception>)
    returns (r: Result<Versions, Exception>)
    ensures FirstWithAssembly(args, assembliesIn).None? ==> r == Failure(NotFound)
    ensures FirstWithAssembly(args, assembliesIn).Some? ==>
      var found := assembliesIn(args[FirstWithAssembly(args, assembliesIn).value])[0];
      r == match fileVersion(found) case Failure(e) => Failure(e) case Success(v) => Success(Derive(v))
    ensures r.Success? ==> r.value.installerVersion.major <= 255 && r.value.revitVersion == r.value.assemblyVersion.major
  {
    for i := 0 to |args|
      invariant forall k | 0 <= k < i :: assembliesIn(args[k]) == []
    {
      var assemblies := assembliesIn(args[i]);
      if |assemblies| == 0 {
        continue;
      }
      FirstIs(args, assembliesIn, i);
      var version := fileVersion(assemblies[0]);
      if version.Failure? {
        return Failure(version.error);
      }
      return Success(Derive(version.value));
    }
    return Failure(NotFound);
  }

  /** The first directory with the assembly is the one the loop stops at. */
  lemma FirstIs(directories: seq<string>, assembliesIn: string -> seq<string>, i: nat)
    requires i < |directories| && assembliesIn(directories[i]) != []
    requires forall k | 0 <= k < i :: assembliesIn(directories[k]) == []
    ensures FirstWithAssembly(directories, assembliesIn) == Some(i)
  {
  }

  /**
   * Year-numbered builds of this century install under the year's last two digits
   * (2025.1.0 as 25.1.0) with the year as the Revit version, so two such builds
   * of different years never share an installer version.
   */
  lemma YearMajor(version: Version, other: Version)
    requires 2000 <= version.major < 2100 && 2000 <= other.major < 2100
    ensures Derive(version).installerVersion == Version(version.major - 2000, version.minor, version.build)
    ensures Derive(version).revitVersion == version.major
    ensures version.major != other.major ==> Derive(version).installerVersion != Derive(other).installerVersion
  {
  }
}

/**
 * The release-version properties of the build script. A release version reads
 * `version-stage.n.date` for a prerelease (1.0.0-alpha.1.250101) and plain
 * `version` for a production release (1.0.0); it may also be unset (null).
 */
module BuildConfiguration {
  import opened Wrappers
  import Text

  /** `ReleaseVersionNumber`: the text before the first '-'; null stays null. */
  function ReleaseVersionNumber(releaseVersion: Option<string>): (r: Option<string>)
    ensures r.None? <==> releaseVersion.None?
    ensures r.Some? ==> '-' !in r.value && r.value <= releaseVersion.value
  {
    match releaseVersion
    case None => None
    case Some(v) =>
      FirstFieldIsPrefix(v, '-');
      Some(Text.Split(v, '-')[0])
  }

  /** The first field of a split is a prefix of the string. */
  lemma {:induction false} FirstFieldIsPrefix(s: string, separator: char)
    ensures Text.Split(s, separator)[0] <= s
  {
    if s != [] {
      FirstFieldIsPrefix(s[1..], separator);
    }
  }

  /**
   * `IsPrerelease`: the version differs from its number, which happens exactly when
   * it is set and contains '-'; an unset version is not one.
   */
  function IsPrerelease(releaseVersion: Option<string>): (r: bool)
    ensures r <==> releaseVersion.Some? && '-' in releaseVersion.value
  {
    if releaseVersion.None? then releaseVersion != ReleaseVersionNumber(releaseVersion)
    else
      Text.SplitFirstField(releaseVersion.value, '-');
      releaseVersion != ReleaseVersionNumber(releaseVersion)
  }

  /** `ReleaseStage`: for a prerelease, the second '-' field up to its first '.'; otherwise "production". */
  function ReleaseStage(releaseVersion: Option<string>): (r: string)
    ensures !IsPrerelease(releaseVersion) ==> r == "production"
    ensures IsPrerelease(releaseVersion) ==> '.' !in r && '-' !in r
  {
    if IsPrerelease(releaseVersion) then
      Text.SplitFirstField(releaseVersion.value, '-');
      var second := Text.Split(releaseVersion.value, '-')[1];
      FirstFieldIsPrefix(second, '.');
      assert forall c | c in Text.Split(second, '.')[0] :: c in second;
      Text.Split(second, '.')[0]
    else "production"
  }

  /** A string without the separator splits into itself. */
  lemma {:induction false} SplitWhole(s: string, separator: char)
    requires separator !in s
    ensures Text.Split(s, separator) == [s]
  {
    if s != [] {
      assert s[0] in s;
      SplitWhole(s[1..], separator);
      assert [s[0]] + s[1..] == s;
    }
  }

  /** Splitting at the first separator: the text before it, then the fields of the rest. */
  lemma {:induction false} SplitAtFirst(a: string, separator: char, b: string)
    requires separator !in a
    ensures Text.Split(a + [separator] + b, separator) == [a] + Text.Split(b, separator)
  {
    if a != [] {
      assert a[0] in a;
      SplitAtFirst(a[1..], separator, b);
      assert (a + [separator] + b)[1..] == a[1..] + [separator] + b;
      assert [a[0]] + a[1..] == a;
    } else {
      assert (a + [separator] + b)[1..] == b;
    }
  }

  /** The stage of `number-stage.rest` with no '-' in the number and no '-' or '.' in the stage. */
  lemma StageOf(number: string, stage: string, rest: string)
    requires '-' !in number && '-' !in stage && '.' !in stage && '-' !in rest
    ensures ReleaseVersionNumber(Some(number + "-" + stage + "." + rest)) == Some(number)
    ensures IsPrerelease(Some(number + "-" + stage + "." + rest))
    ensures ReleaseStage(Some(number + "-" + stage + "." + rest)) == stage
  {
    var tail := stage + "." + rest;
    assert '-' !in tail;
    assert number + "-" + stage + "." + rest == number + ['-'] + tail;
    SplitAtFirst(number, '-', tail);
    SplitWhole(tail, '-');
    SplitAtFirst(stage, '.', rest);
  }

  /**
   * A version without '-' (a production release such as 1.0.0) is its own number,
   * not a prerelease, and its stage is "production"; so is an unset version.
   */
  lemma ProductionOf(number: string)
    requires '-' !in number
    ensures ReleaseVersionNumber(Some(number)) == Some(number)
    ensures !IsPrerelease(Some(number)) && ReleaseStage(Some(number)) == "production"
    ensures ReleaseVersionNumber(None) == None && !IsPrerelease(None) && ReleaseStage(None) == "production"
  {
    SplitWhole(number, '-');
  }
}

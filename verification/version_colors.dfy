/** `VERSION_COLOR_SCHEME`: the display colour of each version-bump category. */
module VersionColors {
  import opened Options

  datatype Color = Red | Yellow | Green | White

  /** The nine bump categories the table knows. */
  const BumpCategories: set<string> :=
    {"major", "premajor", "minor", "preminor", "patch", "prepatch", "prerelease", "unchanged", "unknown"}

  const VersionColorScheme: map<string, Color> := map[
    "major" := Red,
    "premajor" := Red,
    "minor" := Yellow,
    "preminor" := Yellow,
    "patch" := Green,
    "prepatch" := Green,
    "prerelease" := Red,
    "unchanged" := White,
    "unknown" := Red
  ]

  /** Looks a category up; a name outside the nine has no colour. */
  function ColorFor(category: string): (r: Option<Color>)
    ensures r.Some? <==> category in BumpCategories
    ensures r == Some(Red) <==>
      category == "major" || category == "premajor" || category == "prerelease" || category == "unknown"
    ensures r == Some(Yellow) <==> category == "minor" || category == "preminor"
    ensures r == Some(Green) <==> category == "patch" || category == "prepatch"
    ensures r == Some(White) <==> category == "unchanged"
  {
    if category in VersionColorScheme then Some(VersionColorScheme[category]) else None
  }

  /** A pre-release bump has the colour of the bump it precedes. */
  lemma PreBumpSharesColor(bump: string)
    requires bump == "major" || bump == "minor" || bump == "patch"
    ensures ColorFor("pre" + bump) == ColorFor(bump)
    ensures ColorFor(bump).Some?
  {
  }
}

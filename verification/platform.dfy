/**
 * The host platform, as Node's `process.platform` reports it. The two tags the
 * module branches on get their own constructors; every other tag is kept as text.
 */
module Platforms {

  datatype Platform = Win32 | Darwin | Other(tag: string) {

    /** An `Other` platform never carries one of the two distinguished tags. */
    predicate Valid() {
      Other? ==> tag != "win32" && tag != "darwin"
    }
  }

  /** The `process.platform` string of a platform. */
  function TagOf(p: Platform): string {
    match p
    case Win32 => "win32"
    case Darwin => "darwin"
    case Other(t) => t
  }

  /** Classifies a `process.platform` string. */
  function FromTag(tag: string): (p: Platform)
    ensures p.Valid()
    ensures TagOf(p) == tag
    ensures p.Win32? <==> tag == "win32"
    ensures p.Darwin? <==> tag == "darwin"
  {
    if tag == "win32" then Win32
    else if tag == "darwin" then Darwin
    else Other(tag)
  }

  /** Classifying the tag of a valid platform gives that platform back. */
  lemma FromTagOfTag(p: Platform)
    requires p.Valid()
    ensures FromTag(TagOf(p)) == p
  {
  }
}

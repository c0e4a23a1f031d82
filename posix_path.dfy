/** Python's `posixpath.join` for two components. */
module PosixPath {

  /**
   * An absolute second component replaces the first; otherwise the two are
   * joined with a single '/', none being added after an empty first component
   * or one that already ends in '/'.
   */
  function Join(a: string, b: string): string
  {
    if |b| > 0 && b[0] == '/' then b
    else if a == [] || a[|a| - 1] == '/' then a + b
    else a + "/" + b
  }

  /**
   * The joined path ends with the second component; a relative second
   * component keeps the first component in front and puts exactly one '/'
   * between the two when the first neither is empty nor ends in one.
   */
  lemma JoinParts(a: string, b: string)
    ensures var r := Join(a, b);
      && |r| >= |b| && r[|r| - |b|..] == b
      && ((b == [] || b[0] != '/') ==> |r| >= |a| && r[..|a|] == a)
      && ((b == [] || b[0] != '/') && a != [] && a[|a| - 1] != '/' ==> |r| == |a| + 1 + |b| && r[|a|] == '/')
      && (|b| > 0 && b[0] == '/' ==> r == b)
  {
  }
}

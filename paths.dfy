/** Suffix tests on paths, as the two picker callbacks of app1.py use them. */
module Paths {

  const CsvSuffix := ".csv"
  const HtmlSuffix := ".html"

  /** Python's `str.endswith` for one suffix: an exact, case-sensitive comparison
      of the last |suffix| characters. */
  predicate EndsWith(s: string, suffix: string)
    // `s` ends with `suffix` exactly when it is some prefix followed by `suffix`
    ensures EndsWith(s, suffix) <==> |suffix| <= |s| && s == s[..|s| - |suffix|] + suffix
  {
    |suffix| <= |s| && s[|s| - |suffix|..] == suffix
  }

  /** The save-path normalisation of the save callback: a destination that does
      not already end in ".html" gets ".html" appended. */
  function NormalizeSavePath(p: string): (r: string)
    ensures EndsWith(r, HtmlSuffix)
    ensures EndsWith(p, HtmlSuffix) ==> r == p
    ensures !EndsWith(p, HtmlSuffix) ==> r == p + HtmlSuffix
    ensures |p| <= |r| && r[..|p|] == p
  {
    if EndsWith(p, HtmlSuffix) then p
    else p + HtmlSuffix
  }

  /** Normalising twice is normalising once. */
  lemma NormalizeSavePathIdempotent(p: string)
    ensures NormalizeSavePath(NormalizeSavePath(p)) == NormalizeSavePath(p)
  {
  }

  /** Concrete cases: a bare name gains the suffix, a name that has it is passed
      through, and an upper-case ".HTML" does not count as the suffix. */
  lemma NormalizeSavePathExamples()
    ensures NormalizeSavePath("report") == "report.html"
    ensures NormalizeSavePath("report.html") == "report.html"
    ensures NormalizeSavePath("report.HTML") == "report.HTML.html"
  {
  }

  /** The ".csv" test is case-sensitive: an upper-case extension is refused. */
  lemma CsvSuffixIsCaseSensitive()
    ensures EndsWith("data.csv", CsvSuffix)
    ensures !EndsWith("data.CSV", CsvSuffix)
  {
  }
}

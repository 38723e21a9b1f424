/** String facts shared by the naming code: trailing separators, suffixes and
    `/`-joined paths. */
module Strings {

  predicate EndsWithSlash(s: string) {
    |s| > 0 && s[|s| - 1] == '/'
  }

  predicate IsSuffix(suffix: string, s: string) {
    |suffix| <= |s| && s[|s| - |suffix|..] == suffix
  }

  /** A well-formed path segment: not empty and free of `/`. */
  predicate IsSegment(s: string) {
    s != "" && '/' !in s
  }

  /** The segments joined by single `/` separators. */
  function Join(segments: seq<string>): (s: string)
    decreases |segments|
  {
    if |segments| == 0 then ""
    else if |segments| == 1 then segments[0]
    else segments[0] + "/" + Join(segments[1..])
  }

  /** Joining one more segment at the end adds one separator. */
  lemma {:induction false} JoinSnoc(segments: seq<string>, last: string)
    requires segments != []
    ensures Join(segments + [last]) == Join(segments) + "/" + last
    decreases |segments|
  {
    if |segments| == 1 {
      assert (segments + [last])[1..] == [last];
    } else {
      assert (segments + [last])[1..] == segments[1..] + [last];
      JoinSnoc(segments[1..], last);
    }
  }

  /** A join of non-empty segments starts with the first character of the
      first segment and ends with the last character of the last one. */
  lemma {:induction false} JoinEnds(segments: seq<string>)
    requires segments != [] && forall i :: 0 <= i < |segments| ==> segments[i] != ""
    ensures |Join(segments)| > 0
    ensures Join(segments)[0] == segments[0][0]
    ensures Join(segments)[|Join(segments)| - 1] == segments[|segments| - 1][|segments[|segments| - 1]| - 1]
    decreases |segments|
  {
    if |segments| > 1 {
      var rest := segments[1..];
      assert forall i :: 0 <= i < |rest| ==> rest[i] == segments[i + 1];
      JoinEnds(rest);
      assert Join(segments) == segments[0] + "/" + Join(rest);
      assert rest[|rest| - 1] == segments[|segments| - 1];
    }
  }
}

/**
 * The string operations the dispatcher applies to a request URL and a query:
 * `startsWith`, `split('/')` with indexing, and `slice(0, end)`.
 */
module Paths {
  import opened JsValues

  /** `s.startsWith(prefix)` */
  predicate StartsWith(s: string, prefix: string) {
    |prefix| <= |s| && s[..|prefix|] == prefix
  }

  /** `startsWith` holds exactly when the string is the prefix followed by some rest. */
  lemma StartsWithAppend(s: string, prefix: string)
    ensures StartsWith(s, prefix) <==> exists rest :: s == prefix + rest
  {
    if StartsWith(s, prefix) {
      assert s == prefix + s[|prefix|..];
    }
  }

  /** `parts.join('/')` */
  function Join(parts: seq<string>): string
    requires |parts| > 0
  {
    if |parts| == 1 then parts[0] else parts[0] + "/" + Join(parts[1..])
  }

  /**
   * `s.split('/')`: the pieces between slashes, in order; a leading, trailing or
   * doubled slash gives an empty piece, and the empty string splits into [""].
   */
  function Split(s: string): (parts: seq<string>)
    ensures |parts| > 0
    ensures forall i :: 0 <= i < |parts| ==> '/' !in parts[i]
    ensures Join(parts) == s
  {
    if s == [] then [""]
    else
      var rest := Split(s[1..]);
      if s[0] == '/' then
        [""] + rest
      else
        assert Join(rest) == s[1..];
        var parts := [[s[0]] + rest[0]] + rest[1..];
        assert parts[1..] == rest[1..];
        parts
  }

  /** Splitting is the inverse of joining slash-free pieces, so Split finds the only such decomposition. */
  lemma {:induction false} SplitJoin(parts: seq<string>)
    requires |parts| > 0
    requires forall i :: 0 <= i < |parts| ==> '/' !in parts[i]
    ensures Split(Join(parts)) == parts
    decreases |parts|, |parts[0]|
  {
    var p := parts[0];
    if |parts| == 1 {
      if p != [] {
        SplitJoin([p[1..]]);
        assert Join([p[1..]]) == p[1..];
        assert Join(parts)[1..] == p[1..];
      }
    } else if p == [] {
      SplitJoin(parts[1..]);
      assert Join(parts) == "/" + Join(parts[1..]);
    } else {
      var shorter := [p[1..]] + parts[1..];
      assert shorter[1..] == parts[1..];
      SplitJoin(shorter);
      assert Join(parts) == [p[0]] + Join(shorter);
      assert Join(parts)[1..] == Join(shorter);
      assert Join(parts)[0] == p[0] && p[0] != '/';
      assert [p[0]] + p[1..] == p;
      assert parts == [p] + parts[1..];
    }
  }

  /** `url.split('/')[i]`, with None for an index past the last piece (JavaScript's undefined). */
  function Segment(url: string, i: nat): (r: Option<string>)
    ensures r.Some? <==> i < |Split(url)|
    ensures r.Some? ==> r.value == Split(url)[i] && '/' !in r.value
  {
    var parts := Split(url);
    if i < |parts| then Some(parts[i]) else None
  }

  /** The test `!segment`: both a missing piece and an empty one fail it. */
  function Present(segment: Option<string>): (r: bool)
    ensures r <==> segment.Some? && Truthy(Str(segment.value))
  {
    segment.Some? && segment.value != ""
  }

  function Min(a: int, b: int): int { if a <= b then a else b }

  function Max(a: int, b: int): int { if a <= b then b else a }

  /**
   * `s.slice(0, end)`: the first `end` characters, all of `s` when it is shorter,
   * and for a negative `end` all but the last `-end` characters.
   */
  function SliceTo(s: string, end: int): (r: string)
    ensures StartsWith(s, r)
    ensures end >= 0 ==> |r| == Min(end, |s|)
    ensures end < 0 ==> |r| == Max(|s| + end, 0)
  {
    if end >= 0 then
      if end <= |s| then s[..end] else s
    else if |s| + end >= 0 then s[..|s| + end]
    else []
  }
}

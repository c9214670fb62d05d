/** Python's str.find, str.split and str.join with a non-empty separator, as
    the scraper uses them to build and re-read a record line and to take the
    file name off a download url. */
module Strings {
  import opened Utils

  /** `sep` occurs in `s` starting at index `i`. */
  predicate OccursAt(s: string, sep: string, i: int)
  {
    0 <= i && i + |sep| <= |s| && s[i..i + |sep|] == sep
  }

  /** The leftmost occurrence of `sep` in `s` at or after `start`. */
  function FindFrom(s: string, sep: string, start: nat): (r: Option<nat>)
    requires |sep| > 0
    ensures r.Some? ==> start <= r.value && OccursAt(s, sep, r.value)
    ensures r.Some? ==> forall j :: start <= j < r.value ==> !OccursAt(s, sep, j)
    ensures r.None? ==> forall j :: start <= j ==> !OccursAt(s, sep, j)
    decreases |s| - start
  {
    if start + |sep| > |s| then None
    else if OccursAt(s, sep, start) then Some(start)
    else FindFrom(s, sep, start + 1)
  }

  /** str.find: the leftmost occurrence of `sep` in `s`. */
  function Find(s: string, sep: string): (r: Option<nat>)
    requires |sep| > 0
    ensures r.Some? ==> OccursAt(s, sep, r.value)
    ensures r.Some? ==> forall j :: 0 <= j < r.value ==> !OccursAt(s, sep, j)
    ensures r.None? ==> forall j :: !OccursAt(s, sep, j)
  {
    FindFrom(s, sep, 0)
  }

  /** An occurrence with none before it is the one Find reports. */
  lemma FindIs(s: string, sep: string, i: nat)
    requires |sep| > 0 && OccursAt(s, sep, i)
    requires forall j :: 0 <= j < i ==> !OccursAt(s, sep, j)
    ensures Find(s, sep) == Some(i)
  {
  }

  /** str.split(sep): the pieces between the leftmost non-overlapping
      occurrences of `sep`. */
  function Split(s: string, sep: string): (parts: seq<string>)
    requires |sep| > 0
    ensures |parts| > 0
    decreases |s|
  {
    match Find(s, sep)
    case None => [s]
    case Some(i) => [s[..i]] + Split(s[i + |sep|..], sep)
  }

  /** sep.join(parts). */
  function Join(parts: seq<string>, sep: string): string
  {
    if |parts| == 0 then ""
    else if |parts| == 1 then parts[0]
    else parts[0] + sep + Join(parts[1..], sep)
  }

  /** Joining the pieces of a split gives the string back, whatever it holds. */
  lemma {:induction false} JoinSplit(s: string, sep: string)
    requires |sep| > 0
    ensures Join(Split(s, sep), sep) == s
    decreases |s|
  {
    match Find(s, sep)
    case None =>
    case Some(i) =>
      var rest := Split(s[i + |sep|..], sep);
      JoinSplit(s[i + |sep|..], sep);
      assert ([s[..i]] + rest)[1..] == rest;
      assert s == s[..i] + sep + s[i + |sep|..];
  }

  /** `f` can stand before `sep` in a joined string: searching `f + sep`
      finds the appended separator first. */
  predicate SplitsCleanly(f: string, sep: string)
    requires |sep| > 0
  {
    Find(f + sep, sep) == Some(|f|)
  }

  /** What follows the separator does not move the first occurrence. */
  lemma {:induction false} FindBeforeRest(f: string, sep: string, rest: string)
    requires |sep| > 0 && SplitsCleanly(f, sep)
    ensures Find(f + sep + rest, sep) == Some(|f|)
  {
    var s := f + sep + rest;
    assert s[|f|..|f| + |sep|] == sep;
    forall j | 0 <= j < |f|
      ensures !OccursAt(s, sep, j)
    {
      assert !OccursAt(f + sep, sep, j);
      assert s[j..j + |sep|] == (f + sep)[j..j + |sep|];
    }
    FindIs(s, sep, |f|);
  }

  /** Splitting a joined sequence gives the pieces back when every piece but
      the last splits cleanly and the last holds no separator. */
  lemma {:induction false} SplitJoin(parts: seq<string>, sep: string)
    requires |sep| > 0 && |parts| > 0
    requires forall k :: 0 <= k < |parts| - 1 ==> SplitsCleanly(parts[k], sep)
    requires Find(parts[|parts| - 1], sep) == None
    ensures Split(Join(parts, sep), sep) == parts
    decreases |parts|
  {
    if |parts| > 1 {
      var tail := parts[1..];
      var rest := Join(tail, sep);
      var s := parts[0] + sep + rest;
      assert Join(parts, sep) == s;
      FindBeforeRest(parts[0], sep, rest);
      assert s[|parts[0]| + |sep|..] == rest;
      assert s[..|parts[0]|] == parts[0];
      assert Split(s, sep) == [parts[0]] + Split(rest, sep);
      assert forall k :: 0 <= k < |tail| - 1 ==> SplitsCleanly(tail[k], sep) by {
        forall k | 0 <= k < |tail| - 1 ensures SplitsCleanly(tail[k], sep) {
          assert tail[k] == parts[k + 1];
        }
      }
      assert tail[|tail| - 1] == parts[|parts| - 1];
      SplitJoin(tail, sep);
      assert [parts[0]] + tail == parts;
    }
  }
}

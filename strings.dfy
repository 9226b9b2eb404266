/** Go's `strings.Join`, and where a part ends up inside the joined text. */
module Strings {

  /** `strings.Join(parts, sep)`: the parts in order with `sep` between neighbours. */
  function Join(parts: seq<string>, sep: string): string
    decreases |parts|
  {
    if |parts| == 0 then ""
    else if |parts| == 1 then parts[0]
    else parts[0] + sep + Join(parts[1..], sep)
  }

  /** `t` stands in `s` starting at offset `i`. */
  predicate OccursAt(s: string, t: string, i: int) {
    0 <= i && i + |t| <= |s| && s[i..i + |t|] == t
  }

  ghost predicate Occurs(s: string, t: string) {
    exists i :: OccursAt(s, t, i)
  }

  lemma OccursShifted(s: string, t: string, i: int, prefix: string)
    requires OccursAt(s, t, i)
    ensures OccursAt(prefix + s, t, |prefix| + i)
  {
    assert (prefix + s)[|prefix| + i..|prefix| + i + |t|] == s[i..i + |t|];
  }

  /** Every part of a join stands in the joined text. */
  lemma {:induction false} JoinContainsPart(parts: seq<string>, sep: string, k: int) returns (offset: int)
    requires 0 <= k < |parts|
    ensures OccursAt(Join(parts, sep), parts[k], offset)
    decreases k
  {
    if |parts| == 1 {
      offset := 0;
      assert Join(parts, sep) == parts[0];
      assert parts[0][0..|parts[0]|] == parts[0];
    } else {
      var tail := Join(parts[1..], sep);
      assert Join(parts, sep) == parts[0] + (sep + tail);
      if k == 0 {
        offset := 0;
        assert (parts[0] + (sep + tail))[0..|parts[0]|] == parts[0];
      } else {
        var inner := JoinContainsPart(parts[1..], sep, k - 1);
        assert parts[1..][k - 1] == parts[k];
        OccursShifted(tail, parts[k], inner, parts[0] + sep);
        assert parts[0] + sep + tail == parts[0] + (sep + tail);
        offset := |parts[0] + sep| + inner;
      }
    }
  }
}

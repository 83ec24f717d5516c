/** String helpers used to build the scripts' error messages. */
module Text {

  /** `part` appears somewhere inside `whole` as a contiguous run of characters. */
  ghost predicate Occurs(part: string, whole: string)
  {
    exists k :: 0 <= k <= |whole| && part <= whole[k..]
  }

  /** JavaScript's `Array.prototype.join(sep)` on an array of strings. */
  function Join(parts: seq<string>, sep: string): string
  {
    if |parts| == 0 then ""
    else if |parts| == 1 then parts[0]
    else parts[0] + sep + Join(parts[1..], sep)
  }

  /** Joining loses no part: every element can be read back out of the result. */
  lemma {:induction false} JoinKeepsEveryPart(parts: seq<string>, sep: string)
    ensures forall i :: 0 <= i < |parts| ==> Occurs(parts[i], Join(parts, sep))
  {
    if |parts| > 1 {
      var whole := Join(parts, sep);
      var rest := Join(parts[1..], sep);
      var lead := parts[0] + sep;
      assert whole == lead + rest;
      JoinKeepsEveryPart(parts[1..], sep);
      forall i | 0 <= i < |parts|
        ensures Occurs(parts[i], whole)
      {
        if i == 0 {
          assert parts[0] <= whole[0..];
        } else {
          assert parts[i] == parts[1..][i - 1];
          var k :| 0 <= k <= |rest| && parts[i] <= rest[k..];
          assert whole[|lead| + k..] == rest[k..];
        }
      }
    } else if |parts| == 1 {
      assert parts[0] <= Join(parts, sep)[0..];
    }
  }
}

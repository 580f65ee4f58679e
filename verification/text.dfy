/** Python's `sep.join(parts)` and the facts about it that the scraper's
    length threshold relies on. */
module Text {

  /** `sep.join(parts)`: the parts in order with `sep` between neighbours. */
  function Join(parts: seq<string>, sep: string): (r: string)
    ensures |parts| == 0 ==> r == ""
    ensures |parts| == 1 ==> r == parts[0]
    decreases |parts|
  {
    if |parts| == 0 then ""
    else if |parts| == 1 then parts[0]
    else parts[0] + sep + Join(parts[1..], sep)
  }

  /** The summed lengths of the parts. */
  function TotalLength(parts: seq<string>): nat
    decreases |parts|
  {
    if |parts| == 0 then 0 else |parts[0]| + TotalLength(parts[1..])
  }

  /** Where `parts[i]` starts inside `Join(parts, sep)`: every earlier part
      and one separator after each. */
  function Offset(parts: seq<string>, sep: string, i: nat): nat
    requires i < |parts|
    decreases i
  {
    if i == 0 then 0 else |parts[0]| + |sep| + Offset(parts[1..], sep, i - 1)
  }

  /** The joined string is exactly as long as the parts plus one separator
      between each pair of neighbours. */
  lemma {:induction false} JoinLength(parts: seq<string>, sep: string)
    ensures |Join(parts, sep)| ==
            TotalLength(parts) + (if |parts| == 0 then 0 else (|parts| - 1) * |sep|)
    decreases |parts|
  {
    if |parts| > 1 {
      JoinLength(parts[1..], sep);
    }
  }

  /** A slice of the right-hand operand of a concatenation, read off the
      concatenation. */
  lemma SliceOfRight(a: string, b: string, x: nat, y: nat)
    requires x <= y <= |b|
    ensures (a + b)[|a| + x..|a| + y] == b[x..y]
  {
  }

  /** The first part opens the join, followed by the separator when more
      parts come. */
  lemma JoinStartsWithFirst(parts: seq<string>, sep: string)
    requires |parts| > 0
    ensures |parts[0]| <= |Join(parts, sep)|
    ensures Join(parts, sep)[..|parts[0]|] == parts[0]
    ensures |parts| > 1 ==>
              |parts[0]| + |sep| <= |Join(parts, sep)| &&
              Join(parts, sep)[|parts[0]|..|parts[0]| + |sep|] == sep
  {
    if |parts| > 1 {
      var rest := Join(parts[1..], sep);
      assert Join(parts, sep) == parts[0] + (sep + rest);
      SliceOfRight(parts[0], sep + rest, 0, |sep|);
    }
  }

  /** Every part appears intact, in order, at its offset, and is followed by
      the separator unless it is the last one. Together with `JoinLength`
      this pins the joined string down completely. */
  lemma {:induction false} JoinPlacesPart(parts: seq<string>, sep: string, i: nat)
    requires i < |parts|
    ensures Offset(parts, sep, i) + |parts[i]| <= |Join(parts, sep)|
    ensures Join(parts, sep)[Offset(parts, sep, i)..Offset(parts, sep, i) + |parts[i]|] == parts[i]
    ensures i + 1 < |parts| ==>
              Offset(parts, sep, i) + |parts[i]| + |sep| <= |Join(parts, sep)| &&
              Join(parts, sep)[Offset(parts, sep, i) + |parts[i]|..Offset(parts, sep, i) + |parts[i]| + |sep|] == sep
    decreases i
  {
    if i == 0 {
      JoinStartsWithFirst(parts, sep);
    } else {
      var tail := parts[1..];
      var head := parts[0] + sep;
      var rest := Join(tail, sep);
      assert Join(parts, sep) == head + rest;
      JoinPlacesPart(tail, sep, i - 1);
      var o := Offset(tail, sep, i - 1);
      var n := |parts[i]|;
      assert tail[i - 1] == parts[i];
      assert Offset(parts, sep, i) == |head| + o;
      SliceOfRight(head, rest, o, o + n);
      if i + 1 < |parts| {
        SliceOfRight(head, rest, o + n, o + n + |sep|);
      }
    }
  }
}

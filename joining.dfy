/** Python's `sep.join(parts)` on strings, and the facts about it that the
    listing and the row rendering rely on. */
module Joining {

  /** `sep.join(parts)`: the parts in order, with `sep` between each
      neighbouring pair and nowhere else. Empty for no parts; otherwise led
      by the first part. */
  function Join(parts: seq<string>, sep: string): (r: string)
    ensures parts == [] ==> r == ""
    ensures parts != [] ==> parts[0] <= r
  {
    if |parts| == 0 then ""
    else if |parts| == 1 then parts[0]
    else parts[0] + sep + Join(parts[1..], sep)
  }

  /** Reference reading of a join's tail: every part preceded by `sep`. */
  function Prefixed(parts: seq<string>, sep: string): string
  {
    if parts == [] then "" else sep + parts[0] + Prefixed(parts[1..], sep)
  }

  /** A join is its first part followed by every later part, each preceded
      by the separator. */
  lemma {:induction false} JoinIsHeadThenPrefixed(parts: seq<string>, sep: string)
    requires parts != []
    ensures Join(parts, sep) == parts[0] + Prefixed(parts[1..], sep)
  {
    if |parts| == 1 {
      assert parts[1..] == [];
    } else {
      JoinIsHeadThenPrefixed(parts[1..], sep);
      assert parts[1..][1..] == parts[2..];
    }
  }

  /** Appending one part to a non-empty list of parts appends the separator
      and that part to the join. */
  lemma {:induction false} JoinSnoc(parts: seq<string>, sep: string, last: string)
    requires parts != []
    ensures Join(parts + [last], sep) == Join(parts, sep) + sep + last
  {
    if |parts| == 1 {
      assert (parts + [last])[1..] == [last];
    } else {
      JoinSnoc(parts[1..], sep, last);
      assert (parts + [last])[1..] == parts[1..] + [last];
    }
  }
}

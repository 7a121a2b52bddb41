/** Small vocabulary shared by every module: optional values and sequence ends. */
module Basics {

  datatype Option<+T> = None | Some(value: T)

  function Last<T>(s: seq<T>): T
    requires s != []
  {
    s[|s| - 1]
  }

  function Init<T>(s: seq<T>): seq<T>
    requires s != []
  {
    s[..|s| - 1]
  }

  /** The first n elements, all of them when there are fewer, none when n is not positive. */
  function Take<T>(s: seq<T>, n: int): (t: seq<T>)
    ensures t <= s && |t| == if n <= 0 then 0 else if n < |s| then n else |s|
  {
    if n <= 0 then [] else if n < |s| then s[..n] else s
  }

  lemma LastOfAppend<T>(s: seq<T>, x: T)
    ensures Last(s + [x]) == x && Init(s + [x]) == s
  {
  }

  lemma Associates<T>(a: seq<T>, b: seq<T>, c: seq<T>)
    ensures a + b + c == a + (b + c)
  {
  }

  /** Where the elements are once the one at k0 is gone. */
  lemma OneGone<T>(s: seq<T>, k0: nat, k: nat)
    requires k0 < |s| && k < |s| - 1
    ensures (s[..k0] + s[k0 + 1..])[k] == s[if k < k0 then k else k + 1]
  {
  }

  /** Two elements that stay keep their order. */
  lemma TwoStay<T>(s: seq<T>, k0: nat, j: nat, k: nat) returns (i: nat)
    requires k0 < |s| && j < k < |s| && j != k0 && k != k0
    ensures var rest, at := s[..k0] + s[k0 + 1..], if k < k0 then k else k - 1;
            i < at < |rest| && rest[i] == s[j] && rest[at] == s[k]
  {
    i := if j < k0 then j else j - 1;
    OneGone(s, k0, i);
    OneGone(s, k0, if k < k0 then k else k - 1);
  }

  lemma SplitLast<T>(s: seq<T>)
    requires s != []
    ensures s == Init(s) + [Last(s)]
  {
  }
}

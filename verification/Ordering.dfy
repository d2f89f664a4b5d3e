/** The order of sequences by their first difference: of field indexes, and of strings as
    sort.Strings and string comparison use it. */
module Ordering {

  predicate LexBefore(a: seq<int>, b: seq<int>) {
    if a == [] then b != []
    else if b == [] then false
    else a[0] < b[0] || (a[0] == b[0] && LexBefore(a[1..], b[1..]))
  }

  lemma {:induction false} LexOrder(a: seq<int>, b: seq<int>, c: seq<int>)
    ensures a == b || LexBefore(a, b) || LexBefore(b, a)
    ensures !(LexBefore(a, b) && LexBefore(b, a))
    ensures LexBefore(a, b) && LexBefore(b, c) ==> LexBefore(a, c)
    decreases |a|
  {
    if a != [] && b != [] {
      LexOrder(a[1..], b[1..], if c == [] then [] else c[1..]);
      assert a[0] == b[0] && a[1..] == b[1..] ==> a == b by {
        assert a == [a[0]] + a[1..] && b == [b[0]] + b[1..];
      }
    }
  }

  function Codes(s: string): seq<int> { seq(|s|, i requires 0 <= i < |s| => s[i] as int) }

  predicate Before(a: string, b: string) { LexBefore(Codes(a), Codes(b)) }

  lemma BeforeOrder(a: string, b: string, c: string)
    ensures a == b || Before(a, b) || Before(b, a)
    ensures !(Before(a, b) && Before(b, a))
    ensures Before(a, b) && Before(b, c) ==> Before(a, c)
  {
    LexOrder(Codes(a), Codes(b), Codes(c));
    if Codes(a) == Codes(b) {
      assert forall i | 0 <= i < |a| :: a[i] as int == Codes(a)[i] == Codes(b)[i] == b[i] as int;
    }
  }
}

/** Price totals of orders and carts.

    Prices are a floating-point column in the shop; here they are integers in
    minor currency units (cents), so totals are exact and do not depend on the
    order in which the items are added up. */
module Totals {

  /** One priced line: the unit price of the item's product and the item's quantity. */
  datatype Line = Line(price: int, quantity: int)

  /** The amount one line contributes: price times quantity. */
  function LineTotal(l: Line): int {
    l.price * l.quantity
  }

  /** The sum of the line totals, as the shop's `sum(...)` comprehensions compute it. */
  function Sum(lines: seq<Line>): int {
    if lines == [] then 0 else LineTotal(lines[0]) + Sum(lines[1..])
  }

  /** A total splits over a concatenation of lines. */
  lemma {:induction false} SumAppend(a: seq<Line>, b: seq<Line>)
    ensures Sum(a + b) == Sum(a) + Sum(b)
  {
    if a == [] {
      assert a + b == b;
    } else {
      assert (a + b)[1..] == a[1..] + b;
      SumAppend(a[1..], b);
    }
  }

  /** With no negative price and no negative quantity, a total is never negative. */
  lemma {:induction false} SumNonNegative(lines: seq<Line>)
    requires forall l | l in lines :: l.price >= 0 && l.quantity >= 0
    ensures Sum(lines) >= 0
  {
    if lines != [] {
      assert lines[0] in lines;
      SumNonNegative(lines[1..]);
    }
  }

  /** Replacing one line changes the total by exactly the difference of the two line totals. */
  lemma {:induction false} SumUpdate(lines: seq<Line>, i: nat, l: Line)
    requires i < |lines|
    ensures Sum(lines[i := l]) == Sum(lines) - LineTotal(lines[i]) + LineTotal(l)
  {
    if i == 0 {
      assert lines[i := l][1..] == lines[1..];
    } else {
      assert lines[i := l][1..] == lines[1..][i - 1 := l];
      SumUpdate(lines[1..], i - 1, l);
    }
  }

  /** Dropping one line lowers the total by exactly that line's total. */
  lemma {:induction false} SumRemove(lines: seq<Line>, i: nat)
    requires i < |lines|
    ensures Sum(lines[..i] + lines[i + 1..]) == Sum(lines) - LineTotal(lines[i])
  {
    if i == 0 {
      assert lines[..i] + lines[i + 1..] == lines[1..];
    } else {
      assert (lines[..i] + lines[i + 1..])[1..] == lines[1..][..i - 1] + lines[1..][i..];
      SumRemove(lines[1..], i - 1);
    }
  }

  /** With exact prices the total does not depend on the order of the lines: any
      permutation of the lines has the same total. */
  lemma {:induction false} SumPermutation(a: seq<Line>, b: seq<Line>)
    requires multiset(a) == multiset(b)
    ensures Sum(a) == Sum(b)
    decreases |a|
  {
    if a == [] {
      assert |b| == |multiset(b)| == 0;
    } else {
      var x := a[0];
      assert x in multiset(b);
      var j :| 0 <= j < |b| && b[j] == x;
      var rest := b[..j] + b[j + 1..];
      assert b == b[..j] + [x] + b[j + 1..];
      assert a == [x] + a[1..];
      assert multiset(rest) == multiset(b) - multiset{x};
      SumPermutation(a[1..], rest);
      SumRemove(b, j);
    }
  }
}

/** Token trees, the currency of a procedural macro, and quote's repetition with a separator. */
module Tokens {

  datatype Delimiter = Parenthesis | Brace | Bracket

  /** One proc-macro token tree; `Literal` keeps the literal's source text, quotes included. */
  datatype TokenTree =
    | Ident(name: string)
    | Punct(ch: char)
    | Literal(text: string)
    | Group(delimiter: Delimiter, stream: seq<TokenTree>)

  type TokenStream = seq<TokenTree>

  const Comma: TokenTree := Punct(',')

  /** The number of tokens in all the items together. */
  function TotalLength(items: seq<TokenStream>): nat
  {
    if |items| == 0 then 0 else |items[0]| + TotalLength(items[1..])
  }

  /**
   * Where item `k` starts in the joined stream: after the tokens of the `k`
   * items before it and the `k` commas that follow them.
   */
  function ItemStart(items: seq<TokenStream>, k: nat): nat
    requires k <= |items|
  {
    TotalLength(items[..k]) + k
  }

  /** Item `k` of a list starts one item and one comma later than item `k - 1` of the list without its head. */
  lemma ItemStartStep(items: seq<TokenStream>, k: nat)
    requires k <= |items|
    ensures k == 0 ==> ItemStart(items, k) == 0
    ensures 0 < k ==> ItemStart(items, k) == |items[0]| + 1 + ItemStart(items[1..], k - 1)
  {
    if k == 0 {
      assert items[..0] == [];
    } else {
      assert items[..k][1..] == items[1..][..k - 1];
    }
  }

  /**
   * What `#(#x),*` expands to: every item in order, one comma token between
   * neighbours and none after the last. `SeparatedLayout` places every item.
   */
  function Separated(items: seq<TokenStream>): (r: TokenStream)
    ensures |r| == TotalLength(items) + (if |items| == 0 then 0 else |items| - 1)
    ensures |items| > 0 ==> |r| >= |items[0]| && r[..|items[0]|] == items[0]
    ensures |items| > 1 ==> r[|items[0]|] == Comma
  {
    if |items| == 0 then []
    else if |items| == 1 then items[0]
    else items[0] + [Comma] + Separated(items[1..])
  }

  /** Every item `k` sits in `r` at `off + ItemStart(items, k)`. */
  predicate ItemsPlaced(r: TokenStream, items: seq<TokenStream>, off: nat)
  {
    forall k :: 0 <= k < |items| ==>
      off + ItemStart(items, k) + |items[k]| <= |r|
      && r[off + ItemStart(items, k)..off + ItemStart(items, k) + |items[k]|] == items[k]
  }

  /** Every item `k > 0` has a comma just before it in `r`, at `off + ItemStart(items, k) - 1`. */
  predicate CommasPlaced(r: TokenStream, items: seq<TokenStream>, off: nat)
  {
    forall k :: 0 < k < |items| ==>
      off + ItemStart(items, k) <= |r| && r[off + ItemStart(items, k) - 1] == Comma
  }

  /** Items and commas placed in `r` keep their places, `|head|` further on, in `head + r`. */
  lemma ShiftPlaced(head: TokenStream, r: TokenStream, items: seq<TokenStream>, off: nat)
    requires ItemsPlaced(r, items, off) && CommasPlaced(r, items, off)
    ensures ItemsPlaced(head + r, items, |head| + off) && CommasPlaced(head + r, items, |head| + off)
  {
    forall k | 0 <= k < |items|
      ensures |head| + off + ItemStart(items, k) + |items[k]| <= |head + r|
      ensures (head + r)[|head| + off + ItemStart(items, k)..|head| + off + ItemStart(items, k) + |items[k]|] == items[k]
    {
      var start := off + ItemStart(items, k);
      assert (head + r)[|head| + start..|head| + start + |items[k]|] == r[start..start + |items[k]|];
    }
    forall k | 0 < k < |items|
      ensures |head| + off + ItemStart(items, k) <= |head + r|
      ensures (head + r)[|head| + off + ItemStart(items, k) - 1] == Comma
    {
      assert (head + r)[|head| + off + ItemStart(items, k) - 1] == r[off + ItemStart(items, k) - 1];
    }
  }

  /**
   * Item `k` of a join sits at `ItemStart(items, k)` with a comma just
   * before it when `k > 0`. Together with the length of `Separated`, this
   * fixes every token of the join.
   */
  lemma {:induction false} SeparatedLayout(items: seq<TokenStream>)
    ensures ItemsPlaced(Separated(items), items, 0)
    ensures CommasPlaced(Separated(items), items, 0)
    decreases |items|
  {
    if |items| == 1 {
      ItemStartStep(items, 0);
    } else if |items| > 1 {
      var tail := items[1..];
      var rest := Separated(tail);
      var r := Separated(items);
      var head := items[0] + [Comma];
      SeparatedLayout(tail);
      ShiftPlaced(head, rest, tail, 0);
      assert r == head + rest;
      LayoutFromTail(items, r);
    }
  }

  /** The first item at the front, a comma after it and the tail placed after that: every item and comma is placed. */
  lemma LayoutFromTail(items: seq<TokenStream>, r: TokenStream)
    requires |items| > 1 && |r| > |items[0]| && r[..|items[0]|] == items[0] && r[|items[0]|] == Comma
    requires ItemsPlaced(r, items[1..], |items[0]| + 1) && CommasPlaced(r, items[1..], |items[0]| + 1)
    ensures ItemsPlaced(r, items, 0) && CommasPlaced(r, items, 0)
  {
    forall k | 0 <= k < |items|
      ensures ItemStart(items, k) + |items[k]| <= |r| && r[ItemStart(items, k)..ItemStart(items, k) + |items[k]|] == items[k]
    {
      if k == 0 {
        ItemStartStep(items, 0);
      } else {
        PlacedInTail(items, r, k);
      }
    }
    forall k | 0 < k < |items|
      ensures ItemStart(items, k) <= |r| && r[ItemStart(items, k) - 1] == Comma
    {
      CommaInTail(items, r, k);
    }
  }

  /** Joined items after a head of any length: item `k` at `|head| + ItemStart(items, k)`, a comma just before it when `k > 0`. */
  lemma SeparatedAfter(head: TokenStream, items: seq<TokenStream>)
    ensures ItemsPlaced(head + Separated(items), items, |head|)
    ensures CommasPlaced(head + Separated(items), items, |head|)
  {
    SeparatedLayout(items);
    ShiftPlaced(head, Separated(items), items, 0);
  }

  /** Item `k > 0` placed as item `k - 1` of the tail, one item and one comma in, is placed as item `k`. */
  lemma PlacedInTail(items: seq<TokenStream>, r: TokenStream, k: nat)
    requires 0 < k < |items| && ItemsPlaced(r, items[1..], |items[0]| + 1)
    ensures ItemStart(items, k) + |items[k]| <= |r| && r[ItemStart(items, k)..ItemStart(items, k) + |items[k]|] == items[k]
  {
    ItemStartStep(items, k);
    assert items[k] == items[1..][k - 1];
  }

  /** The comma before item `k > 0`: right after the head for `k == 1`, else the tail's comma before item `k - 1`. */
  lemma CommaInTail(items: seq<TokenStream>, r: TokenStream, k: nat)
    requires 0 < k < |items| && CommasPlaced(r, items[1..], |items[0]| + 1)
    requires |r| > |items[0]| && r[|items[0]|] == Comma
    ensures ItemStart(items, k) <= |r| && r[ItemStart(items, k) - 1] == Comma
  {
    ItemStartStep(items, k);
    if k == 1 {
      ItemStartStep(items[1..], 0);
    }
  }

  /** Joining two non-empty lists one after the other is joining each and putting one comma between them. */
  lemma {:induction false} SeparatedAppend(a: seq<TokenStream>, b: seq<TokenStream>)
    requires |a| > 0 && |b| > 0
    ensures Separated(a + b) == Separated(a) + [Comma] + Separated(b)
    decreases |a|
  {
    assert (a + b)[0] == a[0];
    if |a| == 1 {
      assert (a + b)[1..] == b;
    } else {
      assert (a + b)[1..] == a[1..] + b;
      SeparatedAppend(a[1..], b);
    }
  }

  /** A token stream viewed as the sequence of its token trees, each on its own, as iterating a `Vec<TokenTree>` yields them. */
  function Singletons(ts: TokenStream): seq<TokenStream>
  {
    seq(|ts|, k requires 0 <= k < |ts| => [ts[k]])
  }

  /**
   * From offset `from` on, `r` is the trees of `ts` with a comma between
   * neighbours: tree `k` at `from + 2k`, a comma at every odd distance, and
   * nothing after the last tree.
   */
  predicate AlternatesWithCommas(r: TokenStream, from: nat, ts: TokenStream)
  {
    && |r| == from + (if |ts| == 0 then 0 else 2 * |ts| - 1)
    && forall j :: from <= j < |r| ==>
         (j - from) / 2 < |ts| && r[j] == if (j - from) % 2 == 0 then ts[(j - from) / 2] else Comma
  }

  /** Separating single token trees puts every tree at an even position and a comma at every odd position. */
  lemma {:induction false} SeparatedSingletons(ts: TokenStream)
    ensures AlternatesWithCommas(Separated(Singletons(ts)), 0, ts)
  {
    if |ts| == 1 {
      assert Separated(Singletons(ts)) == [ts[0]];
    } else if |ts| > 1 {
      var rest := ts[1..];
      assert Singletons(ts)[1..] == Singletons(rest);
      SeparatedSingletons(rest);
      var r := Separated(Singletons(ts));
      assert r == [ts[0]] + [Comma] + Separated(Singletons(rest));
      forall j | 0 <= j < |r|
        ensures j / 2 < |ts| && r[j] == if j % 2 == 0 then ts[j / 2] else Comma
      {
        if j >= 2 {
          assert r[j] == Separated(Singletons(rest))[j - 2];
          assert (j - 2) / 2 == j / 2 - 1;
        }
      }
    }
  }
}

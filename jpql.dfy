/**
 * JPQL queries as the services build them in a `StringBuilder`, as a sequence of pieces: literal text, numbered
 * positional placeholders `?n`, the constant queries of beans that are not part of this
 * model, and the `in (...)` clauses of `JPQLUtils.addInClause`, whose text is not modelled.
 */
module Jpql {
  datatype Piece =
    | Text(s: string)
    | Param(n: int)                 // "?" followed by the decimal n
    | Named(constant: string)       // a query constant whose text is not modelled
    | InClause(alias: string, field: string, first: int, count: int)

  type Query = seq<Piece>

  /** The numbers of the positional placeholders written out by the builder, in order. */
  function Params(q: Query): seq<int> {
    if q == [] then []
    else (if q[0].Param? then [q[0].n] else []) + Params(q[1..])
  }

  /** Appending to the builder appends placeholders. */
  lemma {:induction false} ParamsAppend(a: Query, b: Query)
    ensures Params(a + b) == Params(a) + Params(b)
  {
    if a == [] {
      assert a + b == b;
    } else {
      var head := if a[0].Param? then [a[0].n] else [];
      calc {
        Params(a + b);
      == { assert (a + b)[0] == a[0]; assert (a + b)[1..] == a[1..] + b; }
        head + Params(a[1..] + b);
      == { ParamsAppend(a[1..], b); }
        head + (Params(a[1..]) + Params(b));
      ==
        (head + Params(a[1..])) + Params(b);
      }
    }
  }

  /** The placeholders `?1 .. ?k`. */
  function Range1(k: nat): (r: seq<int>)
    ensures |r| == k && forall i :: 0 <= i < k ==> r[i] == i + 1
  {
    if k == 0 then [] else Range1(k - 1) + [k]
  }

  /** The placeholder runs of the short queries. */
  lemma Range1Small()
    ensures Range1(1) == [1] && Range1(2) == [1, 2] && Range1(3) == [1, 2, 3]
  {
    assert Range1(1) == Range1(0) + [1];
    assert Range1(2) == Range1(1) + [2];
    assert Range1(3) == Range1(2) + [3];
  }

  /** The placeholders of the short clauses the builders append. */
  lemma ParamsOfClauses(s: string, t: string, n: int)
    ensures Params([Text(s), Param(n)]) == [n]
    ensures Params([Text(s), Text(t), Param(n)]) == [n]
    ensures Params([Text(s), Text(t)]) == []
  {
    assert [Text(s), Param(n)][1..] == [Param(n)];
    assert [Param(n)][1..] == [];
    assert Params([Param(n)]) == [n] + Params([]);
    assert [Text(s), Text(t), Param(n)][1..] == [Text(t), Param(n)];
    assert [Text(t), Param(n)][1..] == [Param(n)];
    assert [Text(s), Text(t)][1..] == [Text(t)];
    assert [Text(t)][1..] == [];
  }

  /** Text with no placeholder piece binds nothing. */
  lemma {:induction false} ParamsOfTexts(q: Query)
    requires forall i :: 0 <= i < |q| ==> !q[i].Param?
    ensures Params(q) == []
  {
    if q != [] {
      assert !q[0].Param?;
      ParamsOfTexts(q[1..]);
    }
  }
}

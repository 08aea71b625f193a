/**
 * Embedding vectors and the nearest-neighbour matcher `find_closest`
 * (`note_embeddings.dot(query_embedding).argmax()`), with exact integer
 * arithmetic in place of float64.
 */
module Vectors {
  import opened Wrappers

  type Vector = seq<int>

  /** The dot product of two vectors of one dimension: the sum of their componentwise products. */
  function Dot(a: Vector, b: Vector): (d: int)
    requires |a| == |b|
    ensures a == [] ==> d == 0
    ensures |a| == 1 ==> d == a[0] * b[0]
  {
    if a == [] then 0 else a[0] * b[0] + Dot(a[1..], b[1..])
  }

  /** The sum does not depend on how the components are grouped: splitting both vectors splits it. */
  lemma {:induction false} DotAppend(a1: Vector, a2: Vector, b1: Vector, b2: Vector)
    requires |a1| == |b1| && |a2| == |b2|
    ensures Dot(a1 + a2, b1 + b2) == Dot(a1, b1) + Dot(a2, b2)
  {
    if a1 != [] {
      assert (a1 + a2)[1..] == a1[1..] + a2;
      assert (b1 + b2)[1..] == b1[1..] + b2;
      DotAppend(a1[1..], a2, b1[1..], b2);
    } else {
      assert a1 + a2 == a2 && b1 + b2 == b2;
    }
  }

  /** Every candidate has the query's dimension (otherwise numpy refuses the product). */
  predicate SameDimension(candidates: seq<Vector>, query: Vector) {
    forall i :: 0 <= i < |candidates| ==> |candidates[i]| == |query|
  }

  /** The matrix-vector product `candidates.dot(query)`: one score per candidate. */
  function Scores(candidates: seq<Vector>, query: Vector): (scores: seq<int>)
    requires SameDimension(candidates, query)
    ensures |scores| == |candidates|
    ensures forall i :: 0 <= i < |candidates| ==> scores[i] == Dot(candidates[i], query)
  {
    seq(|candidates|, i requires 0 <= i < |candidates| => Dot(candidates[i], query))
  }

  /** `i` holds a maximal score and no earlier position does (numpy's first occurrence). */
  predicate IsFirstMax(s: seq<int>, i: nat) {
    i < |s|
    && (forall j :: 0 <= j < |s| ==> s[j] <= s[i])
    && (forall j :: 0 <= j < i ==> s[j] < s[i])
  }

  /** numpy `argmax` of a non-empty sequence. */
  function ArgMax(s: seq<int>): (i: nat)
    requires |s| > 0
    ensures IsFirstMax(s, i)
  {
    if |s| == 1 then 0
    else
      var k := ArgMax(s[..|s| - 1]);
      if s[|s| - 1] > s[k] then |s| - 1 else k
  }

  /** There is only one first maximum, so the matcher's answer is determined by the scores. */
  lemma FirstMaxUnique(s: seq<int>, i: nat, k: nat)
    requires IsFirstMax(s, i) && IsFirstMax(s, k)
    ensures i == k
  {
    assert s[i] == s[k];
  }

  datatype MatchError =
    | EmptyIndex         // the empty cache: `dot` of a shape-(0,) array with the query fails
    | DimensionMismatch  // a cached vector whose length is not the query's

  /**
   * `find_closest`: the first candidate whose dot product with the query is
   * largest; an error for an empty candidate list or mismatched dimensions.
   */
  function FindClosest(query: Vector, candidates: seq<Vector>): (r: Result<nat, MatchError>)
    ensures candidates == [] ==> r == Err(EmptyIndex)
    ensures candidates != [] && !SameDimension(candidates, query) ==> r == Err(DimensionMismatch)
    ensures r.Ok? <==> candidates != [] && SameDimension(candidates, query)
    ensures r.Ok? ==>
              r.value < |candidates|
              && (forall j :: 0 <= j < |candidates| ==>
                    Dot(candidates[j], query) <= Dot(candidates[r.value], query))
              && (forall j :: 0 <= j < r.value ==>
                    Dot(candidates[j], query) < Dot(candidates[r.value], query))
  {
    if candidates == [] then Err(EmptyIndex)
    else if !SameDimension(candidates, query) then Err(DimensionMismatch)
    else
      var i := ArgMax(Scores(candidates, query));
      assert forall j :: 0 <= j < |candidates| ==> Scores(candidates, query)[j] == Dot(candidates[j], query);
      Ok(i)
  }
}

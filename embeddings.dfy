/**
 * `NoteFinder.get_embeddings`: blank texts are filtered out before the
 * embedding provider is called, and an all-blank input never reaches it.
 * The provider is a parameter `embed` giving one vector per text, in order.
 */
module Embeddings {
  import opened Wrappers
  import opened Text
  import opened Vectors

  /**
   * `[text for text in texts if text.strip()]`.  The test is written as
   * "not blank": `text.strip()` is empty exactly when the text is blank
   * (`Text.StripEmptyIffBlank`).
   */
  function NonBlank(texts: seq<string>): (kept: seq<string>)
    ensures |kept| <= |texts|
    ensures forall i :: 0 <= i < |kept| ==> !IsBlank(kept[i])
  {
    if texts == [] then []
    else
      var rest := NonBlank(texts[1..]);
      if !IsBlank(texts[0]) then [texts[0]] + rest else rest
  }

  /** A single text is kept exactly when it is not blank. */
  lemma NonBlankOne(text: string)
    ensures NonBlank([text]) == if IsBlank(text) then [] else [text]
  {
    assert [text][1..] == [];
  }

  /** Filtering keeps the order of the texts: it distributes over concatenation. */
  lemma {:induction false} NonBlankAppend(a: seq<string>, b: seq<string>)
    ensures NonBlank(a + b) == NonBlank(a) + NonBlank(b)
  {
    if a == [] {
      assert a + b == b;
    } else {
      assert (a + b)[0] == a[0];
      assert (a + b)[1..] == a[1..] + b;
      NonBlankAppend(a[1..], b);
    }
  }

  /** Nothing is kept exactly when every text is blank. */
  lemma {:induction false} NonBlankEmptyIffAllBlank(texts: seq<string>)
    ensures NonBlank(texts) == [] <==> forall i :: 0 <= i < |texts| ==> IsBlank(texts[i])
  {
    if texts != [] {
      var rest := texts[1..];
      assert texts == [texts[0]] + rest;
      NonBlankAppend([texts[0]], rest);
      NonBlankOne(texts[0]);
      NonBlankEmptyIffAllBlank(rest);
      assert forall i :: 1 <= i < |texts| ==> texts[i] == rest[i - 1];
    }
  }

  /** A list with no blank text is passed on whole. */
  lemma {:induction false} NonBlankKeepsAll(texts: seq<string>)
    requires forall i :: 0 <= i < |texts| ==> !IsBlank(texts[i])
    ensures NonBlank(texts) == texts
  {
    if texts != [] {
      NonBlankKeepsAll(texts[1..]);
    }
  }

  /** The texts sent to the provider, or None when the provider is not called at all. */
  function ProviderRequest(texts: seq<string>): (req: Option<seq<string>>)
    ensures req.None? <==> forall i :: 0 <= i < |texts| ==> IsBlank(texts[i])
    ensures req.Some? ==>
              req.value != [] && forall i :: 0 <= i < |req.value| ==> !IsBlank(req.value[i])
  {
    var kept := NonBlank(texts);
    NonBlankEmptyIffAllBlank(texts);
    if kept == [] then None else Some(kept)
  }

  /** `get_embeddings(texts)`: one vector per non-blank text, in the texts' order; empty when all are blank. */
  function GetEmbeddings(texts: seq<string>, embed: string -> Vector): (vs: seq<Vector>)
    ensures vs == [] <==> forall i :: 0 <= i < |texts| ==> IsBlank(texts[i])
    ensures |vs| == |NonBlank(texts)|
    ensures forall i :: 0 <= i < |vs| ==> vs[i] == embed(NonBlank(texts)[i])
  {
    match ProviderRequest(texts)
    case None => []
    case Some(req) => seq(|req|, i requires 0 <= i < |req| => embed(req[i]))
  }

  /** The one-text calls `get_embeddings([text])[0]` of the ingest and answer paths. */
  lemma EmbedOne(text: string, embed: string -> Vector)
    ensures IsBlank(text) ==> GetEmbeddings([text], embed) == []
    ensures !IsBlank(text) ==> GetEmbeddings([text], embed) == [embed(text)]
  {
    NonBlankOne(text);
  }
}

/** One HotpotQA sample: its context entries become documents, its supporting facts become
    the sentences they point at, and its knowledge string concatenates the documents. */
module HotpotQAItem {
  import opened Wrappers
  import opened PyText

  /** A titled list of sentences. */
  datatype Document = Document(title: string, context: seq<string>)

  /** The fields of one sample record. A context entry is a title and its sentences; a
      supporting fact is a title and the index of a sentence under it. */
  datatype Sample = Sample(
    id: string,
    kind: string,
    level: string,
    question: string,
    answer: string,
    context: seq<(string, seq<string>)>,
    supportingFacts: seq<(string, int)>)

  /** `titles.index(t)`: the first position holding `t`, or None where Python raises ValueError. */
  function FirstIndexOf(titles: seq<string>, t: string): (r: Option<nat>)
    ensures r.Some? ==> r.value < |titles| && titles[r.value] == t && forall j :: 0 <= j < r.value ==> titles[j] != t
    ensures r.None? <==> t !in titles
  {
    if titles == [] then None
    else if titles[0] == t then Some(0)
    else match FirstIndexOf(titles[1..], t)
      case None => None
      case Some(i) => Some(i + 1)
  }

  /** Python's `xs[i]`: negative indices count from the end; outside `[-|xs|, |xs|)` it raises IndexError. */
  function PyIndex(xs: seq<string>, i: int): (r: Result<string>)
    ensures r.Ok? <==> -|xs| <= i < |xs|
    ensures 0 <= i < |xs| ==> r == Ok(xs[i])
    ensures -|xs| <= i < 0 ==> r == Ok(xs[|xs| + i])
    ensures r.Err? ==> r.error == IndexError
  {
    if 0 <= i < |xs| then Ok(xs[i])
    else if -|xs| <= i < 0 then Ok(xs[|xs| + i])
    else Err(IndexError)
  }

  function Titles(documents: seq<Document>): (titles: seq<string>)
    ensures |titles| == |documents| && forall k :: 0 <= k < |documents| ==> titles[k] == documents[k].title
  {
    seq(|documents|, k requires 0 <= k < |documents| => documents[k].title)
  }

  /** The sentence a supporting fact points at: the indexed sentence of the first document with
      the fact's title; ValueError when no document has that title, IndexError when the index is
      out of range. */
  function FactText(documents: seq<Document>, fact: (string, int)): (r: Result<string>)
    ensures fact.0 !in Titles(documents) ==> r == Err(ValueError)
    ensures fact.0 in Titles(documents) ==>
              var i := FirstIndexOf(Titles(documents), fact.0).value;
              r == PyIndex(documents[i].context, fact.1)
  {
    match FirstIndexOf(Titles(documents), fact.0)
    case None => Err(ValueError)
    case Some(i) => PyIndex(documents[i].context, fact.1)
  }

  /** The knowledge text of one document: its title, a newline, and its sentences joined by "\n-". */
  function DocumentKnowledge(d: Document): string
  {
    d.title + "\n" + Join("\n-", d.context)
  }

  /** The knowledge text of all documents, with nothing between consecutive documents. */
  function Knowledge(documents: seq<Document>): string
  {
    if documents == [] then ""
    else Knowledge(documents[..|documents| - 1]) + DocumentKnowledge(documents[|documents| - 1])
  }

  /** The knowledge of two lists of documents is the concatenation of their knowledge. */
  lemma {:induction false} KnowledgeConcat(a: seq<Document>, b: seq<Document>)
    ensures Knowledge(a + b) == Knowledge(a) + Knowledge(b)
    decreases |b|
  {
    if b == [] {
      assert a + b == a;
    } else {
      var init := b[..|b| - 1];
      assert (a + b)[..|a + b| - 1] == a + init;
      KnowledgeConcat(a, init);
    }
  }

  /** Every document's title appears in the knowledge text at the place where its part starts. */
  lemma {:induction false} KnowledgeHasTitles(documents: seq<Document>, k: nat)
    requires k < |documents|
    ensures var offset := |Knowledge(documents[..k])|;
            OccursAt(documents[k].title, Knowledge(documents), offset)
  {
    var d := documents[k];
    var pre, post := documents[..k], documents[k + 1..];
    assert documents == pre + [d] + post;
    KnowledgeConcat(pre + [d], post);
    KnowledgeConcat(pre, [d]);
    assert Knowledge([d]) == DocumentKnowledge(d) by {
      assert [d][..0] == [];
    }
    var dk := DocumentKnowledge(d);
    assert Knowledge(documents) == Knowledge(pre) + dk + Knowledge(post);
    assert dk[..|d.title|] == d.title;
  }

  class HotpotQA {
    const data: Sample
    const id: string
    const kind: string
    const level: string
    const question: string
    const answer: string
    const context: seq<(string, seq<string>)>
    var documents: seq<Document>
    const supportingFacts: seq<(string, int)>

    /** Copies the sample's fields and turns its context into documents. */
    constructor (data: Sample)
      ensures this.data == data && id == data.id && kind == data.kind && level == data.level
      ensures question == data.question && answer == data.answer
      ensures context == data.context && supportingFacts == data.supportingFacts
      ensures |documents| == |data.context|
      ensures forall k :: 0 <= k < |documents| ==> documents[k] == Document(data.context[k].0, data.context[k].1)
    {
      this.data := data;
      id := data.id;
      kind := data.kind;
      level := data.level;
      question := data.question;
      answer := data.answer;
      context := data.context;
      supportingFacts := data.supportingFacts;
      new;
      documents := DealContext();
    }

    /** One document per context entry, in order: the entry's title and its sentences. */
    method DealContext() returns (docs: seq<Document>)
      ensures |docs| == |context|
      ensures forall k :: 0 <= k < |docs| ==> docs[k] == Document(context[k].0, context[k].1)
    {
      docs := [];
      for k := 0 to |context|
        invariant |docs| == k
        invariant forall j :: 0 <= j < k ==> docs[j] == Document(context[j].0, context[j].1)
      {
        var paper := context[k];
        var doc := Document(paper.0, paper.1);
        docs := docs + [doc];
      }
    }

    /** The `[title, sentence]` pair of every supporting fact, in order; the first fact whose
        title or index is bad decides the exception. */
    method DealFacts() returns (r: Result<seq<(string, string)>>)
      ensures r.Ok? <==> forall k :: 0 <= k < |supportingFacts| ==> FactText(documents, supportingFacts[k]).Ok?
      ensures r.Ok? ==>
                |r.value| == |supportingFacts| &&
                forall k :: 0 <= k < |supportingFacts| ==>
                  r.value[k] == (supportingFacts[k].0, FactText(documents, supportingFacts[k]).value)
      ensures r.Err? ==>
                exists k :: 0 <= k < |supportingFacts| && FactText(documents, supportingFacts[k]) == Err(r.error) &&
                  forall j :: 0 <= j < k ==> FactText(documents, supportingFacts[j]).Ok?
    {
      var titles := Titles(documents);
      var facts: seq<(string, string)> := [];
      for k := 0 to |supportingFacts|
        invariant |facts| == k
        invariant forall j :: 0 <= j < k ==>
                    FactText(documents, supportingFacts[j]).Ok? &&
                    facts[j] == (supportingFacts[j].0, FactText(documents, supportingFacts[j]).value)
      {
        var fact := supportingFacts[k];
        var factTitle := fact.0;
        var factIndex := fact.1;
        var titleIndex := FirstIndexOf(titles, factTitle);
        if titleIndex.None? {
          return Err(ValueError);
        }
        var factContext := PyIndex(documents[titleIndex.value].context, factIndex);
        if factContext.Err? {
          return Err(factContext.error);
        }
        facts := facts + [(factTitle, factContext.value)];
      }
      r := Ok(facts);
    }

    /** The knowledge text, built one document at a time. */
    method ToString() returns (knowledges: string)
      ensures knowledges == Knowledge(documents)
    {
      knowledges := "";
      var docs := documents;
      for k := 0 to |docs|
        invariant knowledges == Knowledge(docs[..k])
      {
        var doc := docs[k];
        var knowledge := doc.title + "\n" + Join("\n-", doc.context);
        assert docs[..k + 1][..k] == docs[..k];
        knowledges := knowledges + knowledge;
      }
      assert docs[..|docs|] == docs;
    }

    /** The knowledge text, whether or not retrieval is requested. */
    method GetKnowledge(retrieval: bool) returns (knowledge: string)
      ensures knowledge == Knowledge(documents)
    {
      if !retrieval {
        knowledge := ToString();
      } else {
        knowledge := ToString();
      }
    }
  }
}

/** The pure part of the `/chat` handler: turning the passages found by the
    vector search into a grounding prompt, picking the answer out of the
    language model's reply, and listing the sources. */
module Prompt {
  import opened JsValues

  /** The payload stored with an indexed passage; every field may be missing. */
  datatype Payload = Payload(title: Option<string>, link: Option<string>, text: Option<string>, content: Option<string>)

  /** One search result; the payload itself may be missing. */
  datatype Hit = Hit(payload: Option<Payload>, score: real)

  /** The language model's reply as far as the handler looks at it: the two
      fields it probes, and the reply's JSON serialization, used as a last resort. */
  datatype GenResponse = GenResponse(text: Option<string>, output: Option<string>, serialized: string)

  const Preamble: string := "You are a helpful assistant answering user questions based on news passages. Use the following passages strictly to answer, cite link(s) if relevant, and be concise."

  /** Everything the prompt holds before the passages. */
  const ContextHeader: string := Preamble + "\n\nCONTEXT:\n"

  /** What stands between two passage blocks. */
  const Separator: string := "\n\n---\n\n"

  /** `r.payload || {}`: a missing payload reads as an object with no fields. */
  function PayloadOf(h: Hit): Payload
  {
    if h.payload.Some? then h.payload.value else Payload(None, None, None, None)
  }

  /** `payload.text || payload.content || ''`. */
  function PassageText(p: Payload): (r: string)
    ensures Truthy(p.text) ==> Some(r) == p.text
    ensures !Truthy(p.text) && Truthy(p.content) ==> Some(r) == p.content
    ensures r == "" <==> !Truthy(p.text) && !Truthy(p.content)
  {
    OrElse(p.text, OrElse(p.content, ""))
  }

  /** The block one search result contributes to the context. Title and link are
      rendered as they are, so a missing one reads `undefined`; only the passage
      text falls back to the empty string. */
  function Block(h: Hit): string
  {
    var p := PayloadOf(h);
    "Title: " + Render(p.title) + "\nLink: " + Render(p.link) + "\nPassage: " + PassageText(p)
  }

  /** A result without a payload still contributes a block, with the fixed labels. */
  lemma BlockWithoutPayload(h: Hit)
    requires h.payload.None?
    ensures Block(h) == "Title: undefined\nLink: undefined\nPassage: "
  {
  }

  /** `results.map(...)`: one block per result, in result order. */
  function Blocks(hits: seq<Hit>): (r: seq<string>)
    ensures |r| == |hits|
    ensures forall i :: 0 <= i < |hits| ==> r[i] == Block(hits[i])
  {
    seq(|hits|, i requires 0 <= i < |hits| => Block(hits[i]))
  }

  /** `Array.prototype.join`: the parts with `sep` between consecutive ones. */
  function Join(parts: seq<string>, sep: string): string
    decreases |parts|
  {
    if |parts| == 0 then ""
    else if |parts| == 1 then parts[0]
    else parts[0] + sep + Join(parts[1..], sep)
  }

  /** Where part `i` starts inside `Join(parts, sep)`. */
  function Offset(parts: seq<string>, sep: string, i: nat): nat
    requires i <= |parts|
    decreases i
  {
    if i == 0 then 0 else |parts[0]| + |sep| + Offset(parts[1..], sep, i - 1)
  }

  /** Joining grows from the left: one more part adds the separator and the part at the end. */
  lemma {:induction false} JoinSnoc(parts: seq<string>, sep: string, p: string)
    requires parts != []
    ensures Join(parts + [p], sep) == Join(parts, sep) + sep + p
    decreases |parts|
  {
    if |parts| == 1 {
      assert (parts + [p])[1..] == [p];
    } else {
      JoinSnoc(parts[1..], sep, p);
      assert (parts + [p])[1..] == parts[1..] + [p];
    }
  }

  /** Every part appears, unchanged, at its offset in the joined text. */
  lemma {:induction false} JoinPieceAt(parts: seq<string>, sep: string, i: nat)
    requires i < |parts|
    ensures Offset(parts, sep, i) + |parts[i]| <= |Join(parts, sep)|
    ensures Join(parts, sep)[Offset(parts, sep, i) .. Offset(parts, sep, i) + |parts[i]|] == parts[i]
    decreases i
  {
    var j := Join(parts, sep);
    if i == 0 {
      if |parts| > 1 {
        assert j == parts[0] + (sep + Join(parts[1..], sep));
      }
      assert j[..|parts[0]|] == parts[0];
    } else {
      var rest := Join(parts[1..], sep);
      JoinPieceAt(parts[1..], sep, i - 1);
      var shift := |parts[0]| + |sep|;
      var o := Offset(parts[1..], sep, i - 1);
      assert j == (parts[0] + sep) + rest;
      SliceOfSecond(parts[0] + sep, rest, o, o + |parts[i]|);
    }
  }

  /** A slice of the second part of a concatenation, taken from the whole. */
  lemma SliceOfSecond(a: string, b: string, lo: nat, hi: nat)
    requires lo <= hi <= |b|
    ensures (a + b)[|a| + lo .. |a| + hi] == b[lo .. hi]
  {
    var l, r := (a + b)[|a| + lo .. |a| + hi], b[lo .. hi];
    assert |l| == |r|;
    forall k | 0 <= k < |l| ensures l[k] == r[k] {
      assert l[k] == (a + b)[|a| + lo + k];
    }
  }

  /** Consecutive parts follow each other, separated by exactly one separator. */
  lemma {:induction false} OffsetStep(parts: seq<string>, sep: string, i: nat)
    requires i < |parts|
    ensures Offset(parts, sep, i + 1) == Offset(parts, sep, i) + |parts[i]| + |sep|
    decreases i
  {
    if i > 0 {
      OffsetStep(parts[1..], sep, i - 1);
    }
  }

  /** The CONTEXT section: the result blocks joined by the separator. */
  function Context(hits: seq<Hit>): (r: string)
    ensures r == "" <==> hits == []
  {
    var bs := Blocks(hits);
    if hits == [] then Join(bs, Separator)
    else
      JoinPieceAt(bs, Separator, 0);
      assert Block(hits[0])[..7] == "Title: ";
      Join(bs, Separator)
  }

  /** A further result adds the separator and its block at the end: the context
      keeps the search order and never reorders or drops a result. */
  lemma ContextSnoc(hits: seq<Hit>, h: Hit)
    requires hits != []
    ensures Context(hits + [h]) == Context(hits) + Separator + Block(h)
  {
    assert Blocks(hits + [h]) == Blocks(hits) + [Block(h)];
    JoinSnoc(Blocks(hits), Separator, Block(h));
  }

  /** The closing part of the prompt: the question, verbatim, and the answer cue. */
  function QuestionTail(message: Option<string>): string
  {
    "\n\nUSER QUESTION: " + Render(message) + "\n\nAnswer:"
  }

  /** The grounding prompt sent to the language model. */
  function BuildPrompt(message: Option<string>, hits: seq<Hit>): string
  {
    ContextHeader + Context(hits) + QuestionTail(message)
  }

  /** Where the block of result `i` starts inside the context. */
  function BlockStart(hits: seq<Hit>, i: nat): nat
    requires i < |hits|
  {
    Offset(Blocks(hits), Separator, i)
  }

  /** The context carries every result's block, unchanged, at its own place. */
  lemma ContextBlockAt(hits: seq<Hit>, i: nat)
    requires i < |hits|
    ensures BlockStart(hits, i) + |Block(hits[i])| <= |Context(hits)|
    ensures Context(hits)[BlockStart(hits, i) .. BlockStart(hits, i) + |Block(hits[i])|] == Block(hits[i])
  {
    JoinPieceAt(Blocks(hits), Separator, i);
  }

  /** The places of the blocks follow the search order: the block of result
      `i + 1` starts right after the block of result `i` and one separator. */
  lemma BlockStartStep(hits: seq<Hit>, i: nat)
    requires i + 1 < |hits|
    ensures BlockStart(hits, i + 1) == BlockStart(hits, i) + |Block(hits[i])| + |Separator|
  {
    OffsetStep(Blocks(hits), Separator, i);
  }

  /** The prompt holds the context, unchanged, right after the fixed header. */
  lemma PromptContextAt(message: Option<string>, hits: seq<Hit>)
    ensures |ContextHeader| + |Context(hits)| <= |BuildPrompt(message, hits)|
    ensures BuildPrompt(message, hits)[|ContextHeader| .. |ContextHeader| + |Context(hits)|] == Context(hits)
  {
    SliceOfMiddle(ContextHeader, Context(hits), QuestionTail(message), 0, |Context(hits)|);
  }

  /** A slice of the middle part of a concatenation, taken from the whole. */
  lemma SliceOfMiddle(a: string, b: string, c: string, lo: nat, hi: nat)
    requires lo <= hi <= |b|
    ensures |a| + hi <= |a + b + c|
    ensures (a + b + c)[|a| + lo .. |a| + hi] == b[lo .. hi]
  {
    assert a + b + c == a + (b + c);
  }

  /** With no search results the context is empty and the prompt is the preamble
      followed directly by the question. */
  lemma PromptWithoutResults(message: Option<string>)
    ensures BuildPrompt(message, []) == Preamble + "\n\nCONTEXT:\n" + "\n\nUSER QUESTION: " + Render(message) + "\n\nAnswer:"
  {
    var h, q, t := ContextHeader, "\n\nUSER QUESTION: ", "\n\nAnswer:";
    assert Context([]) == "";
    assert h + "" == h;
    Regroup(h, q, Render(message), t);
  }

  /** The prompt determines its question: the question is the text between the
      fixed `USER QUESTION: ` label and the closing cue. */
  lemma PromptDeterminesQuestion(m1: Option<string>, m2: Option<string>, hits: seq<Hit>)
    requires BuildPrompt(m1, hits) == BuildPrompt(m2, hits)
    ensures Render(m1) == Render(m2)
  {
    var h, q, t := ContextHeader + Context(hits), "\n\nUSER QUESTION: ", "\n\nAnswer:";
    Regroup(h, q, Render(m1), t);
    Regroup(h, q, Render(m2), t);
    CancelSides(h + q, Render(m1), Render(m2), t);
  }

  /** Concatenation regrouped so that the middle part stands alone; stated
      apart so that the long literals around it are not unfolded. */
  lemma Regroup(h: string, q: string, r: string, t: string)
    ensures h + (q + r + t) == (h + q) + r + t
  {
  }

  /** Equal concatenations with the same outer parts have the same middle part. */
  lemma CancelSides(a: string, x: string, y: string, c: string)
    requires a + x + c == a + y + c
    ensures x == y
  {
    var w := a + x + c;
    assert x == w[|a| .. |w| - |c|];
    assert y == (a + y + c)[|a| .. |w| - |c|];
  }

  /** `gemResp?.text || gemResp?.output || JSON.stringify(gemResp)`. */
  function Answer(g: GenResponse): (r: string)
    ensures Truthy(g.text) ==> Some(r) == g.text
    ensures !Truthy(g.text) && Truthy(g.output) ==> Some(r) == g.output
    ensures !Truthy(g.text) && !Truthy(g.output) ==> r == g.serialized
    ensures r == "" ==> !Truthy(g.text) && !Truthy(g.output)
  {
    OrElse(g.text, OrElse(g.output, g.serialized))
  }

  /** `r.payload?.link`: missing when the payload or its link is. */
  function LinkOf(h: Hit): Option<string>
  {
    if h.payload.Some? then h.payload.value.link else None
  }

  /** `results.map(r => r.payload?.link)`. */
  function Sources(hits: seq<Hit>): (r: seq<Option<string>>)
    ensures |r| == |hits|
    ensures forall i :: 0 <= i < |hits| ==> r[i] == LinkOf(hits[i])
    decreases |hits|
  {
    if hits == [] then [] else Sources(hits[..|hits| - 1]) + [LinkOf(hits[|hits| - 1])]
  }

  /** Sources of two runs of results are the two lists of sources, one after the
      other: nothing is deduplicated or reordered. */
  lemma SourcesConcat(a: seq<Hit>, b: seq<Hit>)
    ensures Sources(a + b) == Sources(a) + Sources(b)
  {
    var l, r := Sources(a + b), Sources(a) + Sources(b);
    assert |l| == |r|;
    forall i | 0 <= i < |l| ensures l[i] == r[i] {
      if i < |a| { assert (a + b)[i] == a[i]; } else { assert (a + b)[i] == b[i - |a|]; }
    }
  }
}

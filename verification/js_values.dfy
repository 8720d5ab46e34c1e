/** Values as the JavaScript backend sees them: a field of a request or of a
    service reply may be absent (`undefined`), and the handlers test values by
    truthiness and render them with template literals. */
module JsValues {

  /** A field that may be absent: `None` stands for `undefined`. */
  datatype Option<+T> = None | Some(value: T)

  /** JavaScript truthiness of an optional string: `undefined` and `''` are falsy. */
  predicate Truthy(o: Option<string>)
  {
    o.Some? && o.value != ""
  }

  /** What `${v}` produces inside a template literal: an absent value is
      rendered as the word `undefined`, a string as itself. */
  function Render(o: Option<string>): (r: string)
    ensures o.Some? ==> r == o.value
    ensures o.None? ==> r == "undefined"
  {
    match o
    case None => "undefined"
    case Some(s) => s
  }

  /** The `a || b` idiom on strings: `a` when truthy, else `b`. */
  function OrElse(a: Option<string>, b: string): (r: string)
    ensures Truthy(a) ==> Some(r) == a
    ensures !Truthy(a) ==> r == b
  {
    if Truthy(a) then a.value else b
  }
}

/** The outcome of a call into a service the model does not see (the embedder,
    the vector index, the language model), and the embeddings the embedder returns. */
module Outcomes {

  datatype Outcome<+T> = Ok(value: T) | Fail(detail: string)

  /** An embedding, as the embedding service returns it for one text. */
  type Vector = seq<real>
}

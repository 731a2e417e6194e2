/*
 * What the services and views exchange with the HTTP layer: the outcome of an
 * awaited API call, the request a service issues, and the browser's FormData
 * buffer that multipart bodies are built in.
 */
module Http {
  import opened Js

  /** The settled promise of an API call: the `res.data` body it resolved
      with, or the error it was rejected with. */
  datatype Outcome = Resolved(body: Value) | Threw(error: Value)

  /** The call failed as far as the handler is concerned: it was rejected, or
      it resolved to null/undefined so that reading `response.success`
      throws into the handler's catch block. */
  predicate Fails(o: Outcome) {
    o.Threw? || Nullish(o.body)
  }

  /** `response.success` is truthy. */
  predicate Succeeded(o: Outcome) {
    o.Resolved? && Truthy(Field(o.body, "success"))
  }

  /** `response.data` */
  function Data(o: Outcome): Value {
    if o.Resolved? then Field(o.body, "data") else Undefined
  }

  /** One part of a multipart body. */
  datatype Part = Text(text: string) | File(blob: Value)

  datatype Entry = Entry(name: string, part: Part)

  /** `FormData.append` stores a Blob as a file part and converts any other
      value with `String(v)`. */
  function PartOf(v: Value): Part {
    if v.Binary? then File(v) else Text(ToJsString(v))
  }

  /** The browser's FormData: an ordered list of named parts. */
  class FormData {
    var entries: seq<Entry>

    constructor ()
      ensures entries == []
    {
      entries := [];
    }

    method Append(name: string, v: Value)
      modifies this
      ensures entries == old(entries) + [Entry(name, PartOf(v))]
    {
      entries := entries + [Entry(name, PartOf(v))];
    }
  }

  datatype Body = NoBody | Multipart(entries: seq<Entry>)

  /** A request a service hands to the API client: verb, path relative to the
      base URL, body, and whether it opts in to the global success toast. */
  datatype Request = Request(verb: string, path: string, body: Body, showSuccess: bool)
}

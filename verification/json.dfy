/** JSON as an abstract codec. The model never looks inside a JSON text:
    it only relies on the round-trip law of `Lawful`. */
module Json {
  import opened Wrappers
  import opened Portfolio

  /** The result of `JSON.parse`: either an array of project records or
      some other well-formed JSON value (`null`, a number, an object, an
      array of something else, ...), which the source never rejects. */
  datatype JsonValue = ProjectArray(projects: seq<Project>) | OtherJson(text: string)

  /** `JSON.stringify(v)`, `JSON.stringify(v, null, 2)` and `JSON.parse(s)`;
      `decode` yields `None` where `JSON.parse` throws. */
  datatype Codec = Codec(
    encode: JsonValue -> string,
    encodePretty: JsonValue -> string,
    decode: string -> Option<JsonValue>)

  /** Both encodings are non-empty and parse back to the encoded value. */
  ghost predicate Lawful(c: Codec)
  {
    forall v: JsonValue ::
      && |c.encode(v)| > 0
      && c.decode(c.encode(v)) == Some(v)
      && c.decode(c.encodePretty(v)) == Some(v)
  }
}

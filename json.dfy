/**
 * The value a JSON decoder yields for a lyrics-service reply, and the one
 * lookup the plugin performs on it: `data['result']['track']['text']`.
 */
module Json {
  import opened Wrappers

  /** A decoded JSON document. Numbers keep their literal text: the plugin never reads them. */
  datatype Json =
    | Null
    | Bool(b: bool)
    | Number(literal: string)
    | String(s: string)
    | Array(items: seq<Json>)
    | Object(fields: map<string, Json>)

  /**
   * Python's `v[key]` on a decoded value: only a dict that holds `key` yields a
   * value; a missing key (KeyError) and any non-dict (TypeError) raise, which is
   * `None` here.
   */
  function Member(v: Json, key: string): (r: Option<Json>)
    ensures r.Some? <==> v.Object? && key in v.fields
    ensures r.Some? ==> r.value == v.fields[key]
  {
    match v
    case Object(fields) => if key in fields then Some(fields[key]) else None
    case _ => None
  }

  /**
   * `data['result']['track']['text']`: the lyric text, or `None` when any step
   * raises or when the text is not a JSON string.
   */
  function LyricsText(data: Json): (r: Option<string>)
    ensures r.Some? ==> data.Object? && "result" in data.fields
    ensures r.Some? ==> data.fields["result"].Object? && "track" in data.fields["result"].fields
  {
    match Member(data, "result")
    case None => None
    case Some(result) =>
      match Member(result, "track")
      case None => None
      case Some(track) =>
        match Member(track, "text")
        case Some(String(text)) => Some(text)
        case _ => None
  }

  /** The reply `{"result": {"track": {"text": L}}}`, the least document that carries lyrics `L`. */
  function LyricsDocument(text: string): (d: Json)
    ensures d.Object? && d.fields.Keys == {"result"}
  {
    Object(map["result" := Object(map["track" := Object(map["text" := String(text)])])])
  }

  /**
   * `text` stands at `result.track.text`, each level a JSON object that may hold
   * further members: the lookup of `LyricsText` spelled out field by field.
   */
  ghost predicate Carries(data: Json, text: string)
  {
    && data.Object? && "result" in data.fields
    && data.fields["result"].Object? && "track" in data.fields["result"].fields
    && data.fields["result"].fields["track"].Object?
    && "text" in data.fields["result"].fields["track"].fields
    && data.fields["result"].fields["track"].fields["text"] == String(text)
  }

  /** Decoding the reply the service sends for a found track gives back exactly its text. */
  lemma LyricsRoundTrip(text: string)
    ensures Carries(LyricsDocument(text), text)
    ensures LyricsText(LyricsDocument(text)) == Some(text)
  {
  }

  /** The lookup succeeds with `text` exactly on the documents that carry `text` at `result.track.text`. */
  lemma LyricsTextExact(data: Json, text: string)
    ensures LyricsText(data) == Some(text) <==> Carries(data, text)
  {
  }

  /** The empty object `{}` (and any document without `result`) yields no lyrics. */
  lemma NoResultNoLyrics(data: Json)
    requires !data.Object? || "result" !in data.fields
    ensures LyricsText(data) == None
  {
  }
}

/**
 * `parse_llm_response`: cut the JSON object out of a language-model reply
 * (which may wrap it in markdown or prose), decode it, and accept it only if
 * it carries a `"command"`. The JSON decoder is a parameter; every failure
 * becomes `None`.
 */
module LlmParser {
  import opened Num
  import opened Wrappers

  /** A decoded JSON value as `json.loads` returns it. */
  datatype Json =
    | JNull
    | JBool(b: bool)
    | JNumber(n: real)
    | JString(s: string)
    | JArray(items: seq<Json>)
    | JObject(fields: map<string, Json>)

  /** `s.find(c)`: the first position of `c`, or -1. */
  function Find(s: string, c: char): (r: int)
    ensures -1 <= r < |s|
    ensures r == -1 <==> c !in s
    ensures r >= 0 ==> s[r] == c && c !in s[..r]
    decreases |s|
  {
    if s == [] then -1
    else if s[0] == c then 0
    else
      var k := Find(s[1..], c);
      if k == -1 then -1
      else
        assert s[..k + 1] == [s[0]] + s[1..][..k];
        k + 1
  }

  /** `s.rfind(c)`: the last position of `c`, or -1. */
  function RFind(s: string, c: char): (r: int)
    ensures -1 <= r < |s|
    ensures r == -1 <==> c !in s
    ensures r >= 0 ==> s[r] == c && c !in s[r + 1..]
    decreases |s|
  {
    if s == [] then -1
    else
      var n := |s| - 1;
      if s[n] == c then n
      else
        var k := RFind(s[..n], c);
        if k == -1 then
          assert s == s[..n] + [s[n]];
          -1
        else
          assert s[k + 1..] == s[..n][k + 1..] + [s[n]];
          k
  }

  /**
   * The slice bounds: the first `{` and the last `}`, or `None` when either
   * is missing or the last `}` comes before the first `{`.
   */
  function Span(text: string): (r: Option<(nat, nat)>)
    ensures r.None? <==> '{' !in text || '}' !in text || RFind(text, '}') < Find(text, '{')
    ensures r.Some? ==>
      && r.value.0 <= r.value.1 < |text|
      && text[r.value.0] == '{' && '{' !in text[..r.value.0]
      && text[r.value.1] == '}' && '}' !in text[r.value.1 + 1..]
  {
    var start := Find(text, '{');
    var end := RFind(text, '}');
    if start == -1 || end == -1 || end < start then None else Some((start, end))
  }

  /** `response_text[start_index : end_index + 1]` */
  function CleanText(text: string): (r: Option<string>)
    ensures r.Some? ==> |r.value| >= 1 && r.value[0] == '{' && r.value[|r.value| - 1] == '}'
    ensures r.Some? ==> exists i :: 0 <= i <= |text| - |r.value| && OccursAt(text, r.value, i)
    ensures r.None? <==> Span(text).None?
  {
    match Span(text)
    case None => None
    case Some((i, j)) =>
      assert OccursAt(text, text[i..j + 1], i);
      Some(text[i..j + 1])
  }

  /** Python's `"command" in data`; a number, boolean or `None` raises `TypeError`. */
  function HasCommand(data: Json): (r: Call<bool>)
    ensures data.JObject? ==> r == Returned("command" in data.fields)
    ensures data.JNull? || data.JBool? || data.JNumber? ==> r.Raised?
  {
    match data
    case JObject(fields) => Returned("command" in fields)
    case JArray(items) => Returned(JString("command") in items)
    case JString(s) => Returned(Contains(s, "command"))
    case _ => Raised("TypeError")
  }

  /**
   * `parse_llm_response(response_text)` with `json.loads` as `decode`
   * (`None` for `JSONDecodeError`). Nothing escapes: every failure is `None`.
   */
  function ParseLlmResponse(text: string, decode: string -> Option<Json>): (r: Option<Json>)
    ensures r.Some? ==> CleanText(text).Some? && decode(CleanText(text).value) == r
    ensures r.Some? ==> HasCommand(r.value) == Returned(true)
    ensures Span(text).None? ==> r.None?
  {
    match CleanText(text)
    case None => None
    case Some(clean) =>
      match decode(clean)
      case None => None
      case Some(data) =>
        match HasCommand(data)
        case Returned(true) => Some(data)
        case _ => None
  }

  /** A reply with a well-formed object is accepted exactly when the object has a `"command"` key. */
  lemma ObjectAcceptedIffCommand(text: string, decode: string -> Option<Json>, fields: map<string, Json>)
    requires CleanText(text).Some? && decode(CleanText(text).value) == Some(JObject(fields))
    ensures ParseLlmResponse(text, decode).Some? <==> "command" in fields
    ensures ParseLlmResponse(text, decode).Some? ==> ParseLlmResponse(text, decode) == Some(JObject(fields))
  {
  }

  /** Text before the first `{` and after the last `}` (a markdown fence, say) does not reach the decoder. */
  lemma SurroundingTextIgnored(prefix: string, body: string, suffix: string)
    requires '{' !in prefix && '}' !in suffix
    requires |body| >= 2 && body[0] == '{' && body[|body| - 1] == '}'
    ensures CleanText(prefix + body + suffix) == Some(body)
  {
    var text := prefix + body + suffix;
    var i := Find(text, '{');
    var j := RFind(text, '}');
    assert text[|prefix|] == '{';
    assert text[|prefix| + |body| - 1] == '}';
    assert text[..|prefix|] == prefix;
    assert text[|prefix| + |body|..] == suffix;
    assert text[i..j + 1] == body;
  }

  /** A reply with no brace pair is rejected before the decoder is consulted. */
  lemma NoBracesNoDecode(text: string, decode: string -> Option<Json>)
    requires '{' !in text || '}' !in text
    ensures ParseLlmResponse(text, decode) == None
  {
  }
}

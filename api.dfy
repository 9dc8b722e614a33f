/** The backend client's list endpoints. The HTTP exchange is abstracted to
    the response status and the body after JSON decoding: `Some(list)` when
    the body decodes to the expected shape, `None` when it does not. */
module Api {
  import opened Wrappers
  import opened Http

  datatype Fic = Fic(id: int, title: string, url: string)

  datatype Tag = Tag(id: int, name: string)

  const MalformedBody := "called `Result::unwrap()` on an `Err` value: malformed JSON body"

  /** One story per listed URL, in order; its title is the URL itself and its
      identifier is not known yet (0). */
  function FicsOf(urls: seq<string>): (fics: seq<Fic>)
    ensures |fics| == |urls|
    ensures forall i :: 0 <= i < |urls| ==> fics[i] == Fic(0, urls[i], urls[i])
  {
    if urls == [] then [] else [Fic(0, urls[0], urls[0])] + FicsOf(urls[1..])
  }

  /** One tag per listed name, in order, with identifier 0. */
  function TagsOf(names: seq<string>): (tags: seq<Tag>)
    ensures |tags| == |names|
    ensures forall i :: 0 <= i < |names| ==> tags[i] == Tag(0, names[i])
  {
    if names == [] then [] else [Tag(0, names[0])] + TagsOf(names[1..])
  }

  /** `get_fics` once the response is in: 200 lists the decoded URLs (a body
      that does not decode panics), 403 and every other status give no stories. */
  function GetFics(status: StatusCode, body: Option<seq<string>>): (r: Result<seq<Fic>>)
    ensures r.Failure? <==> status == StatusOk && body.None?
    ensures status != StatusOk ==> r == Ok([])
    ensures status == StatusOk && body.Some? ==>
      r.Ok? && |r.value| == |body.value| &&
      forall i :: 0 <= i < |body.value| ==> r.value[i] == Fic(0, body.value[i], body.value[i])
  {
    if status == StatusOk then
      match body
      case Some(urls) => Ok(FicsOf(urls))
      case None => Failure(MalformedBody)
    else if status == StatusForbidden then Ok([])
    else Ok([])
  }

  /** `get_tags` once the response is in, with the same status handling. */
  function GetTags(status: StatusCode, body: Option<seq<string>>): (r: Result<seq<Tag>>)
    ensures r.Failure? <==> status == StatusOk && body.None?
    ensures status != StatusOk ==> r == Ok([])
    ensures status == StatusOk && body.Some? ==>
      r.Ok? && |r.value| == |body.value| &&
      forall i :: 0 <= i < |body.value| ==> r.value[i] == Tag(0, body.value[i])
  {
    if status == StatusOk then
      match body
      case Some(names) => Ok(TagsOf(names))
      case None => Failure(MalformedBody)
    else if status == StatusForbidden then Ok([])
    else Ok([])
  }

  function UrlsOf(fics: seq<Fic>): seq<string>
  {
    if fics == [] then [] else [fics[0].url] + UrlsOf(fics[1..])
  }

  function TitlesOf(fics: seq<Fic>): seq<string>
  {
    if fics == [] then [] else [fics[0].title] + TitlesOf(fics[1..])
  }

  function NamesOf(tags: seq<Tag>): seq<string>
  {
    if tags == [] then [] else [tags[0].name] + NamesOf(tags[1..])
  }

  /** The stories listed are exactly the decoded URLs, in order, both as
      links and as titles. */
  lemma {:induction false} FicsRoundTrip(urls: seq<string>)
    ensures UrlsOf(FicsOf(urls)) == urls
    ensures TitlesOf(FicsOf(urls)) == urls
  {
    if urls != [] {
      FicsRoundTrip(urls[1..]);
      assert FicsOf(urls)[1..] == FicsOf(urls[1..]);
    }
  }

  /** The tags listed are exactly the decoded names, in order. */
  lemma {:induction false} TagsRoundTrip(names: seq<string>)
    ensures NamesOf(TagsOf(names)) == names
  {
    if names != [] {
      TagsRoundTrip(names[1..]);
      assert TagsOf(names)[1..] == TagsOf(names[1..]);
    }
  }
}

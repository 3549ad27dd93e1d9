/** The metadata lookups `_get_recording_title`, `_get_recording_image` and `_get_channel_title`. */
module Lookups {
  import opened Common

  /** The `program` object of a listing: its title and the urls of `images`. */
  datatype Program = Program(title: string, imageUrls: seq<string>)

  /** A response to `GET {base}/listings/{id}`: the status code and the parsed body's `program`. */
  datatype Response = Response(statusCode: int, program: Option<Program>)

  /** The metadata service. Recordings and listings share the url `{base}/listings/{id}`, so one
      function from the id to the response stands for both url formats. */
  type Fetch = string -> Response

  /** `_get_recording_title`: the title on status 200, None on any other status; it does not
      check for `program`, so a 200 response without one raises KeyError. */
  function RecordingTitle(fetch: Fetch, id: string): (r: Result<Option<string>, Failure>)
    ensures fetch(id).statusCode != 200 ==> r == Success(None)
    ensures fetch(id).statusCode == 200 && fetch(id).program.None? ==> r == Failure(KeyError("program"))
    ensures fetch(id).statusCode == 200 && fetch(id).program.Some? ==> r == Success(Some(fetch(id).program.value.title))
    ensures r.Success? && r.value.Some? ==>
      fetch(id).statusCode == 200 && fetch(id).program.Some? && r.value.value == fetch(id).program.value.title
  {
    var response := fetch(id);
    if response.statusCode == 200 then
      match response.program
      case None => Failure(KeyError("program"))
      case Some(program) => Success(Some(program.title))
    else
      Success(None)
  }

  /** `_get_recording_image`: the url of the first image on status 200, None otherwise. */
  function RecordingImage(fetch: Fetch, id: string): (r: Result<Option<string>, Failure>)
    ensures fetch(id).statusCode != 200 ==> r == Success(None)
    ensures r.Failure? <==>
      fetch(id).statusCode == 200 && (fetch(id).program.None? || fetch(id).program.value.imageUrls == [])
    ensures fetch(id).statusCode == 200 && fetch(id).program.None? ==> r == Failure(KeyError("program"))
    ensures fetch(id).statusCode == 200 && fetch(id).program.Some? && fetch(id).program.value.imageUrls == [] ==>
      r == Failure(IndexError)
    ensures fetch(id).statusCode == 200 && fetch(id).program.Some? && fetch(id).program.value.imageUrls != [] ==>
      r == Success(Some(fetch(id).program.value.imageUrls[0]))
    ensures r.Success? && r.value.Some? ==>
      fetch(id).statusCode == 200 && fetch(id).program.Some? && r.value.value == fetch(id).program.value.imageUrls[0]
  {
    var response := fetch(id);
    if response.statusCode == 200 then
      match response.program
      case None => Failure(KeyError("program"))
      case Some(program) =>
        if program.imageUrls == [] then Failure(IndexError) else Success(Some(program.imageUrls[0]))
    else
      Success(None)
  }

  /** `_get_channel_title`: the listing title, or None when the status is not 200 or the body has
      no `program`. The channel id is accepted and not used, as in the source. */
  function ChannelTitle(fetch: Fetch, channelId: string, id: string): (r: Option<string>)
    ensures r.Some? <==> fetch(id).statusCode == 200 && fetch(id).program.Some?
    ensures r.Some? ==> r.value == fetch(id).program.value.title
  {
    var response := fetch(id);
    if response.statusCode == 200 && response.program.Some? then Some(response.program.value.title) else None
  }
}

/**
 * The HTTP side of the core: the three-way image error, its mapping to a
 * response, and the handler's classification of pipeline outcomes.
 */
module Responses {

  import opened Wrappers
  import opened Media

  newtype byte = x: int | 0 <= x < 256

  const StatusOk: nat := 200
  const StatusInternalServerError: nat := 500

  /** The bounding box passed to the thumbnail step, in pixels. */
  const ThumbnailSize: nat := 720

  /** A failure of serving one image; each carries the library's
      description of its cause. */
  datatype ImageError = IO(cause: string) | Load(cause: string) | Encode(cause: string)

  datatype ErrorKind = IOKind | LoadKind | EncodeKind

  datatype Body = Text(text: string) | Bytes(bytes: seq<byte>)

  /** A response; `contentType` is `None` when the framework chooses it. */
  datatype Response = Response(status: nat, contentType: Option<string>, body: Body)

  function KindOf(e: ImageError): ErrorKind
  {
    match e
    case IO(_) => IOKind
    case Load(_) => LoadKind
    case Encode(_) => EncodeKind
  }

  function MessagePrefix(kind: ErrorKind): string
  {
    match kind
    case IOKind => "Failed during IO image: "
    case LoadKind => "Failed to load image: "
    case EncodeKind => "Failed to encode Image: "
  }

  /** Every image error becomes an internal server error whose text starts
      with a prefix naming its kind, followed by the cause. */
  function IntoResponse(e: ImageError): (r: Response)
    ensures r.status == StatusInternalServerError
    ensures r.contentType == None && r.body.Text?
    ensures MessagePrefix(KindOf(e)) <= r.body.text
    ensures r.body.text[|MessagePrefix(KindOf(e))|..] == e.cause
  {
    Response(StatusInternalServerError, None, Text(MessagePrefix(KindOf(e)) + e.cause))
  }

  /** Reads the kind of failure back from an error message. */
  function KindOfMessage(message: string): Option<ErrorKind>
  {
    if MessagePrefix(IOKind) <= message then Some(IOKind)
    else if MessagePrefix(LoadKind) <= message then Some(LoadKind)
    else if MessagePrefix(EncodeKind) <= message then Some(EncodeKind)
    else None
  }

  /** The three messages are told apart by their prefixes whatever the
      cause: the kind can always be read back from the response. */
  lemma IntoResponseIdentifiesKind(e: ImageError)
    ensures KindOfMessage(IntoResponse(e).body.text) == Some(KindOf(e))
  {
    var m := IntoResponse(e).body.text;
    var io, load := MessagePrefix(IOKind), MessagePrefix(LoadKind);
    if !e.IO? {
      assert m[7] == 't' != io[7];
    }
    if e.Encode? {
      assert m[10] == 'e' != load[10];
    }
  }

  /**
   * What the image library does with the chosen file: opening it or
   * guessing its format fails, decoding fails, encoding the thumbnail
   * fails, or JPEG bytes come out.
   */
  datatype PipelineOutcome =
    | OpenFailed(cause: string)
    | FormatGuessFailed(cause: string)
    | DecodeFailed(cause: string)
    | EncodeFailed(cause: string)
    | Encoded(jpeg: seq<byte>)

  /** The error each failing stage is reported as. */
  function StageError(o: PipelineOutcome): (r: Result<seq<byte>, ImageError>)
    ensures o.Encoded? <==> r.Ok?
    ensures r.Ok? ==> r.value == o.jpeg
    ensures (o.OpenFailed? || o.FormatGuessFailed?) <==> r.Err? && r.error.IO?
    ensures o.DecodeFailed? <==> r.Err? && r.error.Load?
    ensures o.EncodeFailed? <==> r.Err? && r.error.Encode?
    ensures r.Err? ==> r.error.cause == o.cause
  {
    match o
    case OpenFailed(c) => Err(IO(c))
    case FormatGuessFailed(c) => Err(IO(c))
    case DecodeFailed(c) => Err(Load(c))
    case EncodeFailed(c) => Err(Encode(c))
    case Encoded(bytes) => Ok(bytes)
  }

  /**
   * One request: take the path at the drawn index, run the pipeline on it
   * once with a 720 by 720 bound, and answer 200 with the JPEG bytes or
   * 500 with the message of the failing stage.  No other path is tried.
   */
  function GetRandomArtHandler(state: MediaState, index: nat,
                               pipeline: (string, nat, nat) -> PipelineOutcome): (r: Response)
    requires index < state.ImageCount()
    ensures var o := pipeline(state.paths[index], ThumbnailSize, ThumbnailSize);
      && (r.status == StatusOk <==> o.Encoded?)
      && (o.Encoded? ==> r == Response(StatusOk, Some("image/jpeg"), Bytes(o.jpeg)))
      && (!o.Encoded? ==> r.status == StatusInternalServerError && r.body.Text?)
      && ((o.OpenFailed? || o.FormatGuessFailed?) ==> KindOfMessage(r.body.text) == Some(IOKind))
      && (o.DecodeFailed? ==> KindOfMessage(r.body.text) == Some(LoadKind))
      && (o.EncodeFailed? ==> KindOfMessage(r.body.text) == Some(EncodeKind))
  {
    var path := state.GetRandomImage(index);
    match StageError(pipeline(path, ThumbnailSize, ThumbnailSize))
    case Ok(bytes) => Response(StatusOk, Some("image/jpeg"), Bytes(bytes))
    case Err(e) => IntoResponseIdentifiesKind(e); IntoResponse(e)
  }
}

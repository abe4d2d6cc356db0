/**
 * The crop endpoint: a POST to `/crop` whose body is a JSON document with
 * the four keys `left`, `top`, `right`, `bottom` replaces the crop file with
 * that document; anything else is answered 404 or 400 and leaves the file
 * alone.
 */
module CropServer {
  import opened Wrappers
  import opened JsonValues

  newtype byte = x: int | 0 <= x < 256
  type Bytes = seq<byte>

  /** The file the handler rewrites (relative to the working directory). */
  const CropFile: string := "crop.json"
  const CropPath: string := "/crop"
  /** The keys whose presence the handler checks, in the order it checks them. */
  const CropKeys: seq<string> := ["left", "top", "right", "bottom"]
  const MissingKeysMessage: string := "Missing crop keys"

  /** A POST request: its path, its Content-Length header (as an int, when
      present) and the bytes the client sends before closing. */
  datatype Request = Request(path: string, contentLength: Option<int>, stream: Bytes)

  /** Status code and body of a response. */
  datatype Response = Response(status: int, body: string)

  const NotFound: Response := Response(404, "Not found")
  const CropWritten: Response := Response(200, "Crop written to crop.json\n")

  function BadRequest(e: PyError): (r: Response)
    ensures r.status == 400
    ensures |r.body| >= 17 && r.body[..17] == "Invalid request: "
  {
    Response(400, "Invalid request: " + Message(e))
  }

  /** The observable effects of a request, in the order they happen. */
  datatype Event =
    | BodyRead(data: Bytes)
    | FileWritten(path: string, contents: string)
    | Replied(response: Response)

  /**
   * `rfile.read(int(headers.get('Content-Length', 0)))` on the buffered
   * request stream: no header reads nothing, -1 reads to the end of the
   * stream, a length below -1 makes the read raise (None: the exception
   * escapes the handler, which never gets to reply), otherwise at most that
   * many bytes are read.
   */
  function RequestBody(req: Request): (body: Option<Bytes>)
    ensures body.None? <==> req.contentLength.Some? && req.contentLength.value < -1
    ensures body.Some? ==> body.value <= req.stream
    ensures req.contentLength.None? ==> body == Some([])
    ensures req.contentLength == Some(-1) ==> body == Some(req.stream)
    ensures req.contentLength.Some? && 0 <= req.contentLength.value ==>
      body.Some? &&
      |body.value| == if req.contentLength.value <= |req.stream| then req.contentLength.value else |req.stream|
  {
    var n := req.contentLength.GetOr(0);
    if n < -1 then None
    else if n == -1 || |req.stream| <= n then Some(req.stream)
    else Some(req.stream[..n])
  }

  /** The read at the start of the handler raises before the `try`. */
  predicate Aborts(req: Request) {
    req.path == CropPath && RequestBody(req).None?
  }

  /**
   * The `try` block up to the file write: decode the body, then check that
   * every crop key is `in` the decoded value.  Success carries the value to
   * persist; Failure the exception that the `except` clause turns into 400.
   */
  function CheckCrop(decoded: Result<JsonValue, string>): (r: Result<JsonValue, PyError>)
    ensures decoded.Failure? ==> r == Failure(DecodeError(decoded.error))
    ensures decoded.Success? ==>
      (r.Success? <==> IsContainer(decoded.value) && forall k :: k in CropKeys ==> Contains(decoded.value, k))
    ensures r.Success? ==> decoded.Success? && r.value == decoded.value
    ensures decoded.Success? && !IsContainer(decoded.value) ==>
      r == Failure(TypeError(NotIterable(decoded.value)))
    ensures decoded.Success? && IsContainer(decoded.value) && r.Failure? ==>
      r == Failure(ValueError(MissingKeysMessage))
  {
    match decoded
    case Failure(msg) => Failure(DecodeError(msg))
    case Success(v) =>
      match AllIn(CropKeys, v)
      case Failure(e) => Failure(e)
      case Success(false) => Failure(ValueError(MissingKeysMessage))
      case Success(true) => Success(v)
  }

  /**
   * The HTTP server's view of the world as the handler changes it: the files
   * of the working directory and the log of what each request did.  JSON
   * decoding (`json.loads`) and encoding (`json.dump`) are given as functions.
   */
  class CropEndpoint {
    const decode: Bytes -> Result<JsonValue, string>
    const dump: JsonValue -> string
    var files: map<string, string>
    var log: seq<Event>

    constructor (decode: Bytes -> Result<JsonValue, string>, dump: JsonValue -> string, files: map<string, string>)
      ensures this.decode == decode && this.dump == dump
      ensures this.files == files && log == []
    {
      this.decode := decode;
      this.dump := dump;
      this.files := files;
      log := [];
    }

    /** `CropRequestHandler.do_POST`. */
    method DoPost(req: Request)
      modifies this
      // the path is checked before anything is read
      ensures req.path != CropPath ==>
        files == old(files) && log == old(log) + [Replied(NotFound)]
      // a read that raises ends the request with no reply and no effect
      ensures Aborts(req) ==> files == old(files) && log == old(log)
      ensures req.path == CropPath && !Aborts(req) ==>
        var body := RequestBody(req).value;
        match CheckCrop(decode(body))
        case Success(v) =>
          && files == old(files)[CropFile := dump(v) + "\n"]
          && log == old(log) + [BodyRead(body), FileWritten(CropFile, dump(v) + "\n"), Replied(CropWritten)]
        case Failure(e) =>
          && files == old(files)
          && log == old(log) + [BodyRead(body), Replied(BadRequest(e))]
      // every request that is not aborted ends with exactly one reply, and
      // only a 200 touches a file
      ensures log[..|old(log)|] == old(log)
      ensures !Aborts(req) ==> |old(log)| < |log| && log[|log| - 1].Replied?
      ensures !Aborts(req) && log[|log| - 1].response.status != 200 ==> files == old(files)
      ensures forall p :: p != CropFile && p in old(files) ==> p in files && files[p] == old(files)[p]
    {
      if req.path != CropPath {
        log := log + [Replied(NotFound)];
        return;
      }
      var read := RequestBody(req);
      if read.None? {
        return;
      }
      var body := read.value;
      log := log + [BodyRead(body)];
      var checked := CheckCrop(decode(body));
      match checked {
        case Success(v) =>
          var contents := dump(v) + "\n";
          files := files[CropFile := contents];
          log := log + [FileWritten(CropFile, contents), Replied(CropWritten)];
        case Failure(e) =>
          log := log + [Replied(BadRequest(e))];
      }
    }
  }

  /** Python's `in` decides acceptance: any list holding the four names as
      strings is a crop document as far as the handler is concerned, and is
      kept as is. */
  lemma ListOfKeyNamesAccepted(items: seq<JsonValue>)
    requires forall k :: k in CropKeys ==> Str(k) in items
    ensures CheckCrop(Success(Arr(items))) == Success(Arr(items))
  {
  }

  /** So is any string in which the four names occur as substrings. */
  lemma SubstringDocumentAccepted(s: string)
    requires forall k :: k in CropKeys ==> exists i :: OccursAt(k, s, i)
    ensures CheckCrop(Success(Str(s))) == Success(Str(s))
  {
    forall k | k in CropKeys
      ensures IsSubstring(k, s)
    {
      SubstringIffOccurs(k, s);
    }
  }

  /** Only presence is checked: an object that has the four keys, with any
      values, of any type or sign, and any further members in any order, is
      accepted and persisted unchanged. */
  lemma PresenceOnly(members: seq<Member>)
    requires forall k :: k in CropKeys ==> exists m :: m in members && m.key == k
    ensures CheckCrop(Success(Obj(members))) == Success(Obj(members))
  {
  }

  /** An object lacking one of the four keys is rejected with "Missing crop
      keys", whatever else it holds. */
  lemma MissingKeyRejected(members: seq<Member>, key: string)
    requires key in CropKeys
    requires forall m :: m in members ==> m.key != key
    ensures CheckCrop(Success(Obj(members))) == Failure(ValueError(MissingKeysMessage))
  {
  }
}

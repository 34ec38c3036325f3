/** Values shared by every part of the model: optional values and results,
    bytes and Java's fixed-width integers, the exceptions the jobs see, job
    parameters, and the library codecs the core calls but does not define. */
module Common {

  /** A Java `byte[]` element, taken unsigned. */
  newtype byte = x: int | 0 <= x < 256

  type Bytes = seq<byte>

  /** Java `int` and `long`. */
  type Int32 = x: int | -0x8000_0000 <= x < 0x8000_0000
  type Int64 = x: int | -0x8000_0000_0000_0000 <= x < 0x8000_0000_0000_0000

  /** Guava's `Optional`, and a Java reference that may be null. */
  datatype Option<+T> = None | Some(value: T) {
    function GetOr(default: T): T {
      if Some? then value else default
    }
  }

  /** A value or the exception that prevented it; usable with `:-`. */
  datatype Result<+T, +E> = Ok(value: T) | Err(error: E) {
    predicate IsFailure() {
      Err?
    }

    function PropagateFailure<U>(): Result<U, E>
      requires Err?
    {
      Err(error)
    }

    function Extract(): T
      requires Ok?
    {
      value
    }
  }

  /** The subclasses of `java.io.IOException` the jobs can meet. */
  datatype IOKind = PlainIO | PushNetwork | NonSuccessfulResponseCode | InvalidProtocolBuffer

  /** The exceptions that reach a job's `onRun` or its retry predicate. */
  datatype Exception =
    | IOException(kind: IOKind)
    | InvalidMessageException
    | UntrustedIdentityException
    | IllegalStateException
    | NullPointerException

  /** A constraint the job manager checks before it dispatches a job. */
  datatype Constraint = Network

  /** `Job.Parameters`: the constraints and the attempt bound a job is built
      with; `None` stands for the builder's default, which the job manager
      owns and which is not part of this model. */
  datatype JobParameters = JobParameters(constraints: set<Constraint>, maxAttempts: Option<nat>)

  /** `SyncMessage.Request.Type`: what a sync request asks the other devices
      to send again. */
  datatype RequestType = Contacts | Groups | Blocked | Configuration

  /** A `SignalServiceSyncMessage` built by `forRequest`. */
  datatype SyncMessage = RequestSync(requestType: RequestType)

  /** A colour from `MaterialColor`, named by its serialized form. */
  datatype MaterialColor = MaterialColor(serialized: string)

  /** Library codecs the core calls without defining them: Base64 (with and
      without padding), `URLEncoder.encode` / its decoder, and
      `MaterialColor.fromSerialized`. A decoder that throws on bad input
      answers `None`. */
  datatype Codecs = Codecs(
    encodeBytes: Bytes -> string,
    encodeBytesWithoutPadding: Bytes -> string,
    decode: string -> Option<Bytes>,
    urlEncode: string -> string,
    urlDecode: string -> Option<string>,
    colorFromSerialized: string -> Option<MaterialColor>)

  /** The law assumed of `URLEncoder` and its decoder: decoding undoes
      encoding, and an encoded string never holds a raw `&` (it is escaped
      as `%26`). */
  ghost predicate UrlCodecLaws(c: Codecs) {
    forall s: string :: c.urlDecode(c.urlEncode(s)) == Some(s) && '&' !in c.urlEncode(s)
  }

  /** The one law assumed of Base64: decoding undoes encoding. */
  ghost predicate Base64Inverse(c: Codecs) {
    forall b: Bytes :: c.decode(c.encodeBytes(b)) == Some(b)
  }
}

/** The values the processors exchange with the WebDAV client and with the
    host session: a listed resource, a FlowFile, and the exceptions that
    end an invocation. */
module WebDAVTypes {
  import opened Wrappers
  import opened Longs

  type byte = bv8

  /** One entry of a WebDAV listing as the client library returns it.
      Dates are milliseconds since the epoch; `None` is a null `Date`. */
  datatype Resource = Resource(
    name: string,
    path: string,
    etag: Option<string>,
    contentType: Option<string>,
    isDirectory: bool,
    creation: Option<Long>,
    modified: Option<Long>,
    customProps: map<string, string>)

  /** FlowFile attributes; a key mapped to `None` is a key `put` with a null value. */
  type Attributes = map<string, Option<string>>

  /** A unit of data flowing through the host: attributes, content, and
      whether the session has penalized it. */
  datatype FlowFile = FlowFile(attributes: Attributes, content: seq<byte>, penalized: bool)

  /** The Java exceptions that end a modelled call. */
  datatype Fault =
    | IOError           // IOException from the WebDAV client or the state manager
    | NullPointer       // NullPointerException
    | IndexOutOfBounds  // StringIndexOutOfBoundsException / IndexOutOfBoundsException
    | NumberFormat      // NumberFormatException from Long.parseLong
    | UnknownHost       // UnknownHostException from the local host name lookup
    | IllegalArgument   // IllegalArgumentException from the HTTP host constructor or from a
                        // credential constructor given a null user name

  /** How an invocation ended: normally, or by an exception. */
  datatype Outcome = Completed | Aborted(fault: Fault)

  /** `session.putAllAttributes`: the new entries win over the old ones. */
  function PutAllAttributes(f: FlowFile, extra: map<string, string>): (g: FlowFile)
    ensures g.content == f.content && g.penalized == f.penalized
    ensures g.attributes.Keys == f.attributes.Keys + extra.Keys
    ensures forall k :: k in extra ==> g.attributes[k] == Some(extra[k])
    ensures forall k :: k in f.attributes && k !in extra ==> g.attributes[k] == f.attributes[k]
  {
    var lifted := map k | k in extra :: Some(extra[k]);
    f.(attributes := f.attributes + lifted)
  }
}

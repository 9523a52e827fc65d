/** The registry resolver: asks a local process, over a unix socket, which
    registry domain should serve an image, and falls back to Docker Hub. */
module RegistryResolver {

  /** The domain used whenever the resolver cannot be asked or says no. */
  const DefaultRegistryUrl := "docker.io"
  /** Size of the buffer the reply body is read into. */
  const BufferSize := 32
  /** The virtual host the GET is addressed to; the socket is fixed. */
  const ResolverHost := "http://dockerd"

  /** What the GET over the socket produced: the dial or request failed, or
      a response came back. `delivered` is how many bytes the body's single
      `Read` hands over (a reader may return fewer than it holds). */
  datatype Reply =
    | RequestFailure
    | Response(status: int, body: string, delivered: nat)

  /** The URL asked for an image name with its tag. */
  function ResolverUrl(imageIdWithTags: string): (url: string)
    ensures ResolverHost + "/" <= url && url[|ResolverHost| + 1..] == imageIdWithTags
  {
    ResolverHost + "/" + imageIdWithTags
  }

  /** How many bytes one `Read` of the body into the buffer returns. */
  function ReadCount(body: string, delivered: nat): nat {
    var available := if delivered < |body| then delivered else |body|;
    if available < BufferSize then available else BufferSize
  }

  /** The domain a reply resolves to: on status 200 the bytes the first read
      delivered, at most a buffer's worth; on anything else the default.
      The read stops at the first of the buffer's end, the bytes delivered
      and the body's end, so the length is the least of those three. */
  function ResolvedDomain(reply: Reply): (domain: string)
    ensures !(reply.Response? && reply.status == 200) ==> domain == DefaultRegistryUrl
    ensures reply.Response? && reply.status == 200 ==>
      domain <= reply.body && |domain| <= BufferSize && |domain| <= reply.delivered
    ensures reply.Response? && reply.status == 200 && reply.delivered >= |reply.body| && |reply.body| <= BufferSize ==>
      domain == reply.body
    ensures reply.Response? && reply.status == 200 && reply.delivered >= BufferSize && |reply.body| >= BufferSize ==>
      |domain| == BufferSize
    ensures reply.Response? && reply.status == 200 ==>
      |domain| == BufferSize || |domain| == reply.delivered || domain == reply.body
  {
    match reply
    case Response(200, body, delivered) => body[..ReadCount(body, delivered)]
    case _ => DefaultRegistryUrl
  }

  /** getRegistryUrl, after the exchange over the socket: a failed exchange
      or a status other than 200 falls back to the default domain; a 200
      fills a 32-byte buffer with one read of the body and returns what was
      read. */
  method GetRegistryUrl(reply: Reply) returns (domain: string)
    ensures domain == ResolvedDomain(reply)
  {
    if reply.RequestFailure? {
      return DefaultRegistryUrl;
    }
    if reply.status != 200 {
      return DefaultRegistryUrl;
    }
    var buf := new char[BufferSize];
    // The body's Read copies what it delivers into the front of buf.
    var n := ReadCount(reply.body, reply.delivered);
    var i := 0;
    while i < n
      invariant 0 <= i <= n
      invariant buf[..i] == reply.body[..i]
    {
      buf[i] := reply.body[i];
      i := i + 1;
    }
    domain := buf[..n];
  }
}

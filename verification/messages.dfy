/** The control-channel vocabulary: the orders this tool sends to the proxy,
    the envelope that carries one of them, and the answers the proxy sends back.
    Only the order variants the tool actually builds are modelled. */
module Messages {

  type byte = x: int | 0 <= x < 256

  /** A TCP port number (a `u16`). */
  type Port = x: int | 0 <= x < 0x1_0000

  /** The responder's bound address, already split into the two pieces the
      orders need: the textual IP address and the port. */
  datatype SocketAddr = SocketAddr(ip: string, port: Port)

  /** A routing rule: requests for `hostname` whose path starts with
      `pathBegin` go to application `appId`. */
  datatype HttpFront = HttpFront(appId: string, hostname: string, pathBegin: string)

  /** A TLS routing rule bound to the certificate with the given fingerprint. */
  datatype HttpsFront = HttpsFront(appId: string, hostname: string, pathBegin: string, fingerprint: seq<byte>)

  /** A backend server of an application (load-balancing parameters and
      sticky id are always absent in this tool and are not modelled). */
  datatype Backend = Backend(appId: string, backendId: string, ipAddress: string, port: Port)

  /** The removal request for a backend. */
  datatype RemoveBackend = RemoveBackend(appId: string, backendId: string, ipAddress: string, port: Port)

  datatype CertificateAndKey = CertificateAndKey(certificate: string, certificateChain: seq<string>, key: string)

  datatype AddCertificate = AddCertificate(certificate: CertificateAndKey, names: seq<string>)

  /** The proxy configuration orders this tool issues. */
  datatype Order =
    | AddHttpFront(front: HttpFront)
    | RemoveHttpFront(front: HttpFront)
    | AddBackend(backend: Backend)
    | RemoveBackendOrder(removal: RemoveBackend)
    | AddCertificateOrder(addition: AddCertificate)
    | AddHttpsFront(httpsFront: HttpsFront)

  /** One outbound request: a proxy-configuration command tagged with a
      request id (the proxy id is always absent and is not modelled). */
  datatype Envelope = Envelope(id: string, order: Order)

  datatype Status = Processing | Ok | Error

  /** One answer read from the channel; it must echo the id of the request
      in flight. */
  datatype Answer = Answer(id: string, status: Status, message: string)

  /** What one read of the channel yields: an answer, or nothing when the
      channel is closed or the read failed. */
  type Read = Option<Answer>

  datatype Option<+T> = None | Some(value: T)

  /** The backend id derived from an application id: the application id
      followed by "-0". */
  function BackendId(appId: string): string
  {
    appId + "-0"
  }

  /** Distinct applications never share a derived backend id. */
  lemma BackendIdInjective(a: string, b: string)
    requires BackendId(a) == BackendId(b)
    ensures a == b
  {
    assert a == BackendId(a)[..|a|];
    assert b == BackendId(b)[..|b|];
  }

  /** True when `removal` withdraws exactly the backend `backend` declares. */
  predicate Withdraws(removal: RemoveBackend, backend: Backend)
  {
    && removal.appId == backend.appId
    && removal.backendId == backend.backendId
    && removal.ipAddress == backend.ipAddress
    && removal.port == backend.port
  }
}

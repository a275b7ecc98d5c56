/** Endpoint URLs, kept as the fields they are printed from. */
module Urls {

  /** `Unsupported` stands for every protocol string outside the four known ones. */
  datatype Protocol = HTTP | HTTPS | TCP | TLS | Unsupported

  datatype ObjectRef = ObjectRef(name: string, namespace: string)

  /** A public URL names a listener; an internal URL names one service port, and ends in ".internal". */
  datatype Url =
    | Public(protocol: Protocol, hostname: string, port: int)
    | Internal(protocol: Protocol, uid: string, service: string, namespace: string, port: int, certs: seq<ObjectRef>)

  predicate IsHttp(p: Protocol) {
    p == HTTP || p == HTTPS
  }
}

/**
 * Server addressing and the connection's stream halves (src/connection.rs).
 * The TCP connect, the TLS handshake and the trust-store construction are not
 * part of this model: `Attach` receives the established stream.
 */
module Connection {
  import opened Uuids
  import opened Wrappers

  datatype WappstoServers = DEV | QA | STAGING | PROD

  /** `WappstoServers::default()`. */
  function DefaultServer(): (s: WappstoServers)
    ensures s == PROD
  {
    PROD
  }

  const BASE_URL: string := "wappsto.com"

  /** The host prefix and port suffix of a server (the DEV/QA/STAGING/PROD tables). */
  datatype UrlParts = UrlParts(prefix: string, port: string)

  function ServerUrl(server: WappstoServers): (u: UrlParts)
    ensures server == DEV ==> u == UrlParts("dev.", ":52005")
    ensures server == QA ==> u == UrlParts("qa.", ":53005")
    ensures server == STAGING ==> u == UrlParts("staging.", ":54005")
    ensures server == PROD ==> u == UrlParts("", ":443")
  {
    match server
    case DEV => UrlParts("dev.", ":52005")
    case QA => UrlParts("qa.", ":53005")
    case STAGING => UrlParts("staging.", ":54005")
    case PROD => UrlParts("", ":443")
  }

  /** The TCP address: prefix, base host, port. */
  function Address(url: UrlParts): string
  {
    url.prefix + BASE_URL + url.port
  }

  /** The TLS server name: prefix and base host, no port. */
  function ServerName(url: UrlParts): string
  {
    url.prefix + BASE_URL
  }

  /** The address is the server name followed by the port, and always names wappsto.com. */
  lemma AddressExtendsServerName(server: WappstoServers)
    ensures Address(ServerUrl(server)) == ServerName(ServerUrl(server)) + ServerUrl(server).port
    ensures ServerName(ServerUrl(server))[|ServerUrl(server).prefix|..] == "wappsto.com"
  {
  }

  /** The concrete address and server name of a server; PROD gives "wappsto.com:443". */
  function AddressOf(server: WappstoServers): (a: string)
    ensures a == Address(ServerUrl(server))
    ensures server == PROD ==> a == "wappsto.com:443"
    ensures server == QA ==> a == "qa.wappsto.com:53005"
    ensures server == DEV ==> a == "dev.wappsto.com:52005"
    ensures server == STAGING ==> a == "staging.wappsto.com:54005"
  {
    match server
    case PROD => assert "" + BASE_URL + ":443" == "wappsto.com:443"; Address(ServerUrl(server))
    case QA => assert "qa." + BASE_URL + ":53005" == "qa.wappsto.com:53005"; Address(ServerUrl(server))
    case DEV => assert "dev." + BASE_URL + ":52005" == "dev.wappsto.com:52005"; Address(ServerUrl(server))
    case STAGING =>
      assert "staging." + BASE_URL + ":54005" == "staging.wappsto.com:54005"; Address(ServerUrl(server))
  }

  /** Different servers are reached at different addresses. */
  lemma AddressesDistinct(a: WappstoServers, b: WappstoServers)
    requires a != b
    ensures Address(ServerUrl(a)) != Address(ServerUrl(b))
  {
    assert |AddressOf(a)| != |AddressOf(b)|;
  }

  /** The credential material; only the network id derived from it is modelled. */
  datatype Certs = Certs(id: Uuid)

  /** An established TLS stream, and the two halves `split` makes of it. */
  datatype TlsStream = TlsStream(handle: nat)
  datatype ReadHalf = ReadHalf(stream: TlsStream)
  datatype WriteHalf = WriteHalf(stream: TlsStream)

  class Connection {
    const certs: Certs
    var read: Option<ReadHalf>
    var write: Option<WriteHalf>
    const url: UrlParts

    /** `Connection::new`: keeps the certs, picks the server's url, no stream yet. */
    constructor (certs: Certs, server: WappstoServers)
      ensures this.certs == certs && url == ServerUrl(server)
      ensures read == None && write == None
    {
      this.certs := certs;
      url := ServerUrl(server);
      read := None;
      write := None;
    }

    /** The tail of `start`: the established stream is split into the two halves. */
    method Attach(stream: TlsStream)
      modifies this
      ensures read == Some(ReadHalf(stream)) && write == Some(WriteHalf(stream))
    {
      read := Some(ReadHalf(stream));
      write := Some(WriteHalf(stream));
    }

    /** `stop`: drops both halves. */
    method Stop()
      modifies this
      ensures read == None && write == None
    {
      write := None;
      read := None;
    }
  }
}

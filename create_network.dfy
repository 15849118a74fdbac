/**
 * The request builder for creating a network over the REST API
 * (src/create_network.rs). The credential typestate is a tag in the record;
 * `send` is only offered once credentials are set. The HTTP requests and the
 * decoding of their responses are not part of this model; the urls they go to are.
 */
module CreateNetwork {

  /** The servers this builder can address (its own two-server enum). */
  datatype WappstoServers = PROD | QA

  /** The phantom typestate: have credentials been supplied yet? */
  datatype CredentialsState = NoCredentials | WithCredentials

  datatype RequestBuilder = RequestBuilder(username: string, password: string,
                                           server: WappstoServers, state: CredentialsState)
  {
    /** `with_credentials`: sets both credentials, keeps the server, moves to WithCredentials. */
    function WithCredentials(user: string, pass: string): (b: RequestBuilder)
      ensures b.username == user && b.password == pass
      ensures b.server == server && b.state == CredentialsState.WithCredentials
    {
      RequestBuilder(user, pass, server, CredentialsState.WithCredentials)
    }

    /** `to_server`: replaces only the server, in either typestate. */
    function ToServer(s: WappstoServers): (b: RequestBuilder)
      ensures b.server == s && b.username == username && b.password == password && b.state == state
    {
      this.(server := s)
    }
  }

  /** `RequestBuilder::new()` and `default()`: no credentials, PROD. */
  function NewRequestBuilder(): (b: RequestBuilder)
    ensures b.username == "" && b.password == "" && b.server == PROD && b.state == NoCredentials
  {
    RequestBuilder("", "", PROD, NoCredentials)
  }

  /** The services root of a server, as `send` selects it. */
  function BaseUrl(b: RequestBuilder): (url: string)
    requires b.state == CredentialsState.WithCredentials
    ensures b.server == PROD ==> url == "https://wappsto.com/services/"
    ensures b.server == QA ==> url == "https://qa.wappsto.com/services/"
  {
    match b.server
    case PROD => "https://wappsto.com/services/"
    case QA => "https://qa.wappsto.com/services/"
  }

  /** Where `send` posts the credentials to open a session. */
  function SessionEndpoint(b: RequestBuilder): (url: string)
    requires b.state == CredentialsState.WithCredentials
    ensures url == BaseUrl(b) + "2.0/session"
  {
    BaseUrl(b) + "2.0/session"
  }

  /** Where `send` posts to create the network. */
  function CreatorEndpoint(b: RequestBuilder): (url: string)
    requires b.state == CredentialsState.WithCredentials
    ensures url == BaseUrl(b) + "2.1/creator"
  {
    BaseUrl(b) + "2.1/creator"
  }

  /** Choosing the server before or after the credentials makes no difference. */
  lemma ServerAndCredentialsCommute(b: RequestBuilder, s: WappstoServers, user: string, pass: string)
    ensures b.ToServer(s).WithCredentials(user, pass) == b.WithCredentials(user, pass).ToServer(s)
  {
  }

  /** The documented chain new → with_credentials → to_server reaches the chosen server. */
  lemma DocumentedChain(user: string, pass: string, s: WappstoServers)
    ensures var b := NewRequestBuilder().WithCredentials(user, pass).ToServer(s);
      b.state == CredentialsState.WithCredentials && b.server == s
      && b.username == user && b.password == pass
  {
  }

  /** The two endpoints of one server differ, and the same endpoint differs between servers. */
  lemma EndpointsDistinct(b: RequestBuilder, c: RequestBuilder)
    requires b.state == CredentialsState.WithCredentials && c.state == CredentialsState.WithCredentials
    ensures SessionEndpoint(b) != CreatorEndpoint(b)
    ensures b.server != c.server ==> SessionEndpoint(b) != SessionEndpoint(c)
    ensures b.server != c.server ==> CreatorEndpoint(b) != CreatorEndpoint(c)
  {
    var n := |BaseUrl(b)|;
    assert SessionEndpoint(b)[n + 2] != CreatorEndpoint(b)[n + 2];
    if b.server != c.server {
      assert |SessionEndpoint(b)| != |SessionEndpoint(c)|;
      assert |CreatorEndpoint(b)| != |CreatorEndpoint(c)|;
    }
  }
}

/**
  The base URL of a running WireMock container, built from the host the
  container runtime reports and the host port mapped to container port 8080.
 */
module Uri {
  import opened Wrappers

  const Scheme: string := "http://"

  /**
    A started container, seen through the two lookups this library makes:
    the outcome of asking for its host, and the outcome of asking for the
    host port mapped to container port 8080 (as a bare port number).
   */
  datatype Container = Container(host: Result<string>, mappedPort: Result<string>)

  /** A WireMock admin client, known by the base URL it talks to. */
  datatype Client = Client(baseUrl: string)

  /** The running container, its image version (never set) and its admin client. */
  datatype WireMockContainer = WireMockContainer(container: Container, version: string, client: Client)

  /** The base URL of the container; the host lookup is made first, and its error wins. */
  function GetURI(c: Container): (r: Result<string>)
    ensures r.Success? <==> c.host.Success? && c.mappedPort.Success?
    ensures c.host.Failure? ==> r == Failure(c.host.error)
    ensures c.host.Success? && c.mappedPort.Failure? ==> r == Failure(c.mappedPort.error)
    ensures r.Success? ==> r.value == "http://" + c.host.value + ":" + c.mappedPort.value
  {
    match c.host
    case Failure(e) => Failure(e)
    case Success(hostIP) =>
      match c.mappedPort
      case Failure(e) => Failure(e)
      case Success(port) => Success(Scheme + hostIP + ":" + port)
  }

  /** The index of the last `ch` in `s`, or -1 when there is none. */
  function LastIndexOf(s: string, ch: char): (k: int)
    ensures -1 <= k < |s|
    ensures k >= 0 ==> s[k] == ch
    ensures forall j :: k < j < |s| ==> s[j] != ch
  {
    if |s| == 0 then -1
    else if s[|s| - 1] == ch then |s| - 1
    else LastIndexOf(s[..|s| - 1], ch)
  }

  /**
    Reads a host and a port back from an `http://host:port` URL, splitting at
    the last colon so that a host that itself holds colons is kept whole.
   */
  function ParseBaseURI(u: string): Option<(string, string)>
  {
    if |u| < |Scheme| || u[..|Scheme|] != Scheme then None
    else
      var rest := u[|Scheme|..];
      var k := LastIndexOf(rest, ':');
      if k < 0 then None else Some((rest[..k], rest[k + 1..]))
  }

  /** A port number has no colon, so the host and port can be read back from the base URL. */
  lemma GetURIRoundTrip(c: Container)
    requires c.host.Success? && c.mappedPort.Success?
    requires forall j :: 0 <= j < |c.mappedPort.value| ==> c.mappedPort.value[j] != ':'
    ensures GetURI(c).Success?
    ensures ParseBaseURI(GetURI(c).value) == Some((c.host.value, c.mappedPort.value))
  {
    var h, p := c.host.value, c.mappedPort.value;
    var u := GetURI(c).value;
    assert u == Scheme + (h + ":" + p);
    assert u[..|Scheme|] == Scheme;
    var rest := u[|Scheme|..];
    assert rest == h + ":" + p;
    assert rest[|h|] == ':';
    var k := LastIndexOf(rest, ':');
    assert forall j :: |h| < j < |rest| ==> rest[j] == p[j - |h| - 1];
    assert k == |h|;
    assert rest[..k] == h;
    assert rest[k + 1..] == p;
  }
}

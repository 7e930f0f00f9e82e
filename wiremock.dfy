/**
  Starting a WireMock container: the default request, the customizers run
  over it in order, the hand-over to the container runtime and the client
  built from the container's base URL.
 */
module WireMock {
  import opened Wrappers
  import opened Request
  import opened Uri

  /**
    Builds the request, runs every customizer on it in argument order
    (ignoring the error each may report), hands the request to the runtime,
    whose outcome is `launch`, and connects a client to the result.

    `handed` is the request given to the runtime. The default request is
    copied into the request object before the customizers run, so the later
    append of "--disable-banner" changes only the local copy `local`.
   */
  method RunContainer(opts: seq<Customizer>, launch: GenericRequest -> Result<Container>)
    returns (handed: GenericRequest, ghost local: ContainerRequest, result: Result<WireMockContainer>)
    ensures handed.containerRequest == ApplyAll(opts, DefaultRequest())
    ensures handed.started
    ensures handed.containerRequest.files == FileEntries(opts)
    ensures handed.containerRequest.exposedPorts == ["8080/tcp"]
    ensures handed.containerRequest.cmd == [""]
    ensures local.cmd == ["", "--disable-banner"]
    ensures launch(handed).Failure? ==> result == Failure(launch(handed).error)
    ensures launch(handed).Success? ==>
      var container := launch(handed).value;
      result == match GetURI(container)
                case Failure(e) => Failure(e)
                case Success(uri) => Success(WireMockContainer(container, "", Client(uri)))
  {
    var req := DefaultRequest();
    var genericContainerReq := new GenericContainerRequest(req, true);

    for i := 0 to |opts|
      invariant genericContainerReq.containerRequest == ApplyAll(opts[..i], req)
      invariant genericContainerReq.started
    {
      ApplyAllAppend(opts[..i], [opts[i]], req);
      assert opts[..i + 1] == opts[..i] + [opts[i]];
      var ignoredErr := genericContainerReq.Customize(opts[i]);
    }
    assert opts[..|opts|] == opts;

    req := req.(cmd := req.cmd + [DisableBannerFlag]);
    local := req;

    handed := GenericRequest(genericContainerReq.containerRequest, genericContainerReq.started);
    ApplyAllFiles(opts, DefaultRequest());
    ApplyAllKeepsPortsCmdWait(opts, DefaultRequest());

    var launched := launch(handed);
    match launched {
      case Failure(e) =>
        result := Failure(e);
      case Success(container) =>
        var uri := GetURI(container);
        match uri {
          case Failure(e) =>
            result := Failure(e);
          case Success(u) =>
            result := Success(WireMockContainer(container, "", Client(u)));
        }
    }
  }
}

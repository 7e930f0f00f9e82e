/**
  The container request that WireMock is started from, and the three
  customizers that edit it before start-up.

  A Go customizer is a closure over a pointer to the request. Here each
  closure is a value of `Customizer` (its captured arguments), `Applied`
  says what running it does to the request, and
  `GenericContainerRequest.Customize` runs it on the request object in place.
 */
module Request {
  import opened Wrappers

  const DefaultWireMockImage: string := "docker.io/wiremock/wiremock"
  const DefaultWireMockVersion: string := "2.35.0-1"
  const DefaultPort: string := "8080"

  /** Where WireMock reads stub mappings and static response bodies. */
  const MappingsDir: string := "/home/wiremock/mappings/"
  const StaticFilesDir: string := "/home/wiremock/__files/"

  /** The permission bits 0755, written in octal in the source. */
  const CustomFileMode: int := 493

  const DisableBannerFlag: string := "--disable-banner"

  /** A host file copied into the container before it starts. */
  datatype ContainerFile = ContainerFile(hostFilePath: string, containerFilePath: string, fileMode: int)

  /** The readiness check: an HTTP GET of `path` on container port `port`. */
  datatype WaitStrategy = ForHttp(path: string, port: string)

  /** The fields of the container request that this library sets or edits. */
  datatype ContainerRequest = ContainerRequest(
    image: string,
    exposedPorts: seq<string>,
    cmd: seq<string>,
    waitingFor: WaitStrategy,
    files: seq<ContainerFile>)

  /** The request as a value: what is handed to the container runtime. */
  datatype GenericRequest = GenericRequest(containerRequest: ContainerRequest, started: bool)

  /** The customizer closures, by the constructor that builds each and the arguments it captures. */
  datatype Customizer =
    | WithMappingFile(id: string, filePath: string)
    | WithFile(name: string, filePath: string)
    | WithImage(image: string)

  /** The request RunContainer starts from, before any customizer runs. */
  function DefaultRequest(): (r: ContainerRequest)
    ensures r.image == "docker.io/wiremock/wiremock:2.35.0-1"
    ensures r.exposedPorts == ["8080/tcp"]
    ensures r.cmd == [""]
    ensures r.waitingFor == ForHttp("/__admin", "8080")
    ensures r.files == []
  {
    assert DefaultPort + "/tcp" == "8080/tcp";
    ContainerRequest(
      DefaultWireMockImage + ":" + DefaultWireMockVersion,
      [DefaultPort + "/tcp"],
      [""],
      ForHttp("/__admin", DefaultPort),
      [])
  }

  function MappingFilePath(id: string): string
  {
    MappingsDir + id + ".json"
  }

  function StaticFilePath(name: string): string
  {
    StaticFilesDir + name
  }

  /** Recovers the mapping id from a container path, if it is a mapping path. */
  function MappingIdOf(path: string): Option<string>
  {
    if |path| >= |MappingsDir| + 5 && path[..|MappingsDir|] == MappingsDir && path[|path| - 5..] == ".json"
    then Some(path[|MappingsDir|..|path| - 5])
    else None
  }

  /** Recovers the file name from a container path, if it is a static-file path. */
  function StaticFileNameOf(path: string): Option<string>
  {
    if |path| >= |StaticFilesDir| && path[..|StaticFilesDir|] == StaticFilesDir
    then Some(path[|StaticFilesDir|..])
    else None
  }

  /** The id of a mapping file can be read back from the container path it is given. */
  lemma MappingPathRoundTrip(id: string)
    ensures MappingIdOf(MappingFilePath(id)) == Some(id)
  {
    var p := MappingFilePath(id);
    assert p[..|MappingsDir|] == MappingsDir;
    assert p[|p| - 5..] == ".json";
    assert p[|MappingsDir|..|p| - 5] == id;
  }

  /** The name of a static file can be read back from the container path it is given. */
  lemma StaticPathRoundTrip(name: string)
    ensures StaticFileNameOf(StaticFilePath(name)) == Some(name)
  {
    var p := StaticFilePath(name);
    assert p[..|StaticFilesDir|] == StaticFilesDir;
    assert p[|StaticFilesDir|..] == name;
  }

  /** Mapping files with different ids never land on the same container path. */
  lemma MappingPathInjective(a: string, b: string)
    requires MappingFilePath(a) == MappingFilePath(b)
    ensures a == b
  {
    MappingPathRoundTrip(a);
    MappingPathRoundTrip(b);
  }

  /** A static file never lands in the mappings directory, whatever the id and name. */
  lemma MappingAndStaticPathsDiffer(id: string, name: string)
    ensures MappingFilePath(id) != StaticFilePath(name)
  {
    assert MappingFilePath(id)[15] == 'm';
    assert StaticFilePath(name)[15] == '_';
  }

  /** The file a file customizer adds; an image customizer adds none. */
  function FileOf(c: Customizer): seq<ContainerFile>
  {
    match c
    case WithMappingFile(id, filePath) => [ContainerFile(filePath, MappingFilePath(id), CustomFileMode)]
    case WithFile(name, filePath) => [ContainerFile(filePath, StaticFilePath(name), CustomFileMode)]
    case WithImage(_) => []
  }

  /** What running customizer `c` on a request does to it. */
  function Applied(c: Customizer, req: ContainerRequest): (r: ContainerRequest)
    ensures r.exposedPorts == req.exposedPorts && r.cmd == req.cmd && r.waitingFor == req.waitingFor
    ensures c.WithImage? ==> r.image == c.image && r.files == req.files
    ensures !c.WithImage? ==>
      && r.image == req.image
      && |r.files| == |req.files| + 1
      && r.files[..|req.files|] == req.files
      && r.files[|req.files|].hostFilePath == c.filePath
      && r.files[|req.files|].fileMode == CustomFileMode
    ensures c.WithMappingFile? ==> r.files[|req.files|].containerFilePath == "/home/wiremock/mappings/" + c.id + ".json"
    ensures c.WithFile? ==> r.files[|req.files|].containerFilePath == "/home/wiremock/__files/" + c.name
  {
    if c.WithImage? then req.(image := c.image) else req.(files := req.files + FileOf(c))
  }

  /** The customizers run one after the other, in argument order. */
  function ApplyAll(cs: seq<Customizer>, req: ContainerRequest): ContainerRequest
  {
    if cs == [] then req else ApplyAll(cs[1..], Applied(cs[0], req))
  }

  /** The files contributed by a list of customizers, in the order given. */
  function FileEntries(cs: seq<Customizer>): (fs: seq<ContainerFile>)
    ensures |fs| <= |cs|
    ensures forall i :: 0 <= i < |fs| ==> fs[i].fileMode == CustomFileMode
  {
    if cs == [] then [] else FileOf(cs[0]) + FileEntries(cs[1..])
  }

  /** Running `a` and then `b` is running their concatenation. */
  lemma {:induction false} ApplyAllAppend(a: seq<Customizer>, b: seq<Customizer>, req: ContainerRequest)
    ensures ApplyAll(a + b, req) == ApplyAll(b, ApplyAll(a, req))
  {
    if a != [] {
      assert (a + b)[1..] == a[1..] + b;
      ApplyAllAppend(a[1..], b, Applied(a[0], req));
    } else {
      assert a + b == b;
    }
  }

  /** The final file list is the original one followed by every customizer's file, in order. */
  lemma {:induction false} ApplyAllFiles(cs: seq<Customizer>, req: ContainerRequest)
    ensures ApplyAll(cs, req).files == req.files + FileEntries(cs)
  {
    if cs != [] {
      ApplyAllFiles(cs[1..], Applied(cs[0], req));
      assert Applied(cs[0], req).files == req.files + FileOf(cs[0]);
    }
  }

  /** No customizer touches the exposed ports, the command or the wait strategy. */
  lemma {:induction false} ApplyAllKeepsPortsCmdWait(cs: seq<Customizer>, req: ContainerRequest)
    ensures ApplyAll(cs, req).exposedPorts == req.exposedPorts
    ensures ApplyAll(cs, req).cmd == req.cmd
    ensures ApplyAll(cs, req).waitingFor == req.waitingFor
  {
    if cs != [] {
      ApplyAllKeepsPortsCmdWait(cs[1..], Applied(cs[0], req));
    }
  }

  /** Without an image customizer the image stays what it was. */
  lemma {:induction false} NoImageCustomizerKeepsImage(cs: seq<Customizer>, req: ContainerRequest)
    requires forall j :: 0 <= j < |cs| ==> !cs[j].WithImage?
    ensures ApplyAll(cs, req).image == req.image
  {
    if cs != [] {
      NoImageCustomizerKeepsImage(cs[1..], Applied(cs[0], req));
    }
  }

  /** Of several image customizers, the last one decides the image. */
  lemma LastImageCustomizerWins(cs: seq<Customizer>, req: ContainerRequest, i: nat)
    requires i < |cs| && cs[i].WithImage?
    requires forall j :: i < j < |cs| ==> !cs[j].WithImage?
    ensures ApplyAll(cs, req).image == cs[i].image
  {
    assert cs == cs[..i] + [cs[i]] + cs[i + 1..];
    ApplyAllAppend(cs[..i] + [cs[i]], cs[i + 1..], req);
    ApplyAllAppend(cs[..i], [cs[i]], req);
    var afterI := ApplyAll(cs[..i] + [cs[i]], req);
    assert afterI.image == cs[i].image;
    NoImageCustomizerKeepsImage(cs[i + 1..], afterI);
  }

  /** The request object that the customizers receive a pointer to. */
  class GenericContainerRequest {
    var containerRequest: ContainerRequest
    var started: bool

    constructor (containerRequest: ContainerRequest, started: bool)
      ensures this.containerRequest == containerRequest && this.started == started
    {
      this.containerRequest := containerRequest;
      this.started := started;
    }

    /** Runs one customizer on this request; every customizer reports no error. */
    method Customize(c: Customizer) returns (err: Option<Error>)
      modifies this
      ensures containerRequest == Applied(c, old(containerRequest))
      ensures started == old(started)
      ensures err == None
    {
      match c {
        case WithMappingFile(id, filePath) =>
          var cfgFile := ContainerFile(filePath, MappingFilePath(id), CustomFileMode);
          containerRequest := containerRequest.(files := containerRequest.files + [cfgFile]);
        case WithFile(name, filePath) =>
          var cfgFile := ContainerFile(filePath, StaticFilePath(name), CustomFileMode);
          containerRequest := containerRequest.(files := containerRequest.files + [cfgFile]);
        case WithImage(image) =>
          containerRequest := containerRequest.(image := image);
      }
      err := None;
    }
  }
}

# WireMock testcontainer: request construction and URL helpers

This project models the core of `wiremock-testcontainers-go`, a Go library that starts a WireMock HTTP mock server in a container for integration tests. The model covers three parts:

- **Starting the container** (`WireMock.RunContainer`). The library builds a default container request: the image `docker.io/wiremock/wiremock:2.35.0-1`, exposed port `8080/tcp`, the command `[""]`, and a readiness check of `GET /__admin` on port 8080. It copies that request into a request object with `Started` set. It runs the caller's customizers (this library's three) on the object in argument order and ignores the error each one returns. Then it hands the object to the container runtime, and finally builds a WireMock client from the container's base URL.
- **The customizers** (`Request`). There are three:
  - `WithMappingFile(id, path)` adds a file at `/home/wiremock/mappings/<id>.json`.
  - `WithFile(name, path)` adds a file at `/home/wiremock/__files/<name>`.
  - `WithImage(image)` replaces the image.

  Each added file gets mode 0755. In Go each customizer is a closure over a pointer to the request. Here the closure is the `Customizer` datatype, which holds its captured arguments. `Applied` says what a customizer does. `GenericContainerRequest.Customize` runs it in place on the request object (a class).
- **URLs** (`Uri`, `Query`). `GetURI` builds `http://<host>:<mapped port>` from the container's two lookups. `AddQueryParamsToURL` parses an endpoint, replaces the values of each supplied query key with that key's one given value (Go's `url.Values.Set`), leaves every other key alone, and prints the URL back out. `SendHttpGet` does this step only when the parameter map is not nil.

The Go request struct `ContainerRequest` is a value, and this matters. `RunContainer` copies it into the request object before the customizers run. So the later `req.Cmd = append(req.Cmd, "--disable-banner")` changes only the local copy: the request that is started has the command `[""]`. The model keeps `ContainerRequest` as a datatype (a value) inside the class. `RunContainer` states both facts: the command handed over is `[""]`, and the local copy's command is `["", "--disable-banner"]`.

Calls into other libraries that the model cannot see become inputs:

- **`url.Parse`, `url.ParseQuery`, `Values.Encode`, `URL.String`.** These are the four functions of a `NetUrl` record. For each argument, a function gives that call's outcome.
- **The HTTP round trip of a GET.** This is a function `send` from the final endpoint to the status, body and error.
- **`GenericContainer`.** Its outcome for the handed request is a function `launch`.
- **The running container.** It is seen through the results of its two lookups, `Host` and `MappedPort` for port 8080 (as a bare port number).

A nil Go map is `None` in the model. An empty map is `Some(map[])`. The two behave differently: an empty map still sends the query through a parse and a re-encode (`Query.NoParamsReencodesQuery`).

Go visits the keys of `queryParams` in an unspecified order. `Query.SetAll` chooses the next key arbitrarily (`:|`). Its contract, and `Query.IterationOrderIrrelevant`, show that every order gives the same query.

## Model

| member | source | states |
|---|---|---|
| Request.DefaultRequest | tc-wiremock.go:36-41 | Before any customizer runs, the request has image `docker.io/wiremock/wiremock:2.35.0-1`, exposed ports exactly `["8080/tcp"]`, command exactly `[""]`, an HTTP readiness check of `/__admin` on port 8080, and no files. |
| Request.MappingFilePath | tc-wiremock.go:97 | A definition with no contract of its own: the container path of a mapping file. Its properties are stated by `Request.MappingPathRoundTrip`, `Request.MappingPathInjective` and `Request.MappingAndStaticPathsDiffer`. |
| Request.StaticFilePath | tc-wiremock.go:112 | A definition with no contract of its own: the container path of a static file. Its properties are stated by `Request.StaticPathRoundTrip` and `Request.MappingAndStaticPathsDiffer`. |
| Request.FileOf | tc-wiremock.go:95-114 | A definition with no contract of its own: the one file a file customizer adds, none for an image customizer. Its content is stated by the contract of `Request.Applied`, which is written in terms of it. |
| Request.ApplyAll | tc-wiremock.go:48-50 | A definition with no contract of its own: the customizers run one after another in argument order. Its properties are stated by `Request.ApplyAllAppend`, `Request.ApplyAllFiles`, `Request.ApplyAllKeepsPortsCmdWait`, `Request.NoImageCustomizerKeepsImage`, `Request.LastImageCustomizerWins` and `WireMock.RunContainer`. |
| Request.Applied | tc-wiremock.go:93-127 | A customizer never changes the ports, the command or the readiness check. An image customizer sets the image and leaves the files as they were. A file customizer keeps the image and every earlier file, and appends exactly one file at the end: host path as given, mode 0755, and container path `/home/wiremock/mappings/<id>.json` for a mapping or `/home/wiremock/__files/<name>` for a static file. |
| Request.GenericContainerRequest.Customize | tc-wiremock.go:93-127 | Running a customizer on the request object changes its request exactly as `Applied` says, leaves `Started` alone, and returns no error (Go's nil). |
| Request.GenericContainerRequest.constructor | tc-wiremock.go:43-46 | The request object holds a copy of the given request and the given `Started` flag. |
| Request.FileEntries | tc-wiremock.go:95-114 | The files contributed by a list of customizers are at most one per customizer, and every one has mode 0755. |
| Request.ApplyAllAppend | tc-wiremock.go:48-50 | Running customizers one after another composes: running `a + b` is running `a` and then `b`. |
| Request.ApplyAllFiles | tc-wiremock.go:101-116 | After all customizers run, the files are the original files followed by each file customizer's file, in argument order. |
| Request.ApplyAllKeepsPortsCmdWait | tc-wiremock.go:48-50 | No sequence of this library's customizers changes the exposed ports, the command or the readiness check. |
| Request.NoImageCustomizerKeepsImage | tc-wiremock.go:124 | If no customizer is `WithImage`, the image stays what it was. |
| Request.LastImageCustomizerWins | tc-wiremock.go:122-127 | If several customizers are `WithImage`, the image is the one from the last of them. |
| Request.MappingPathRoundTrip | tc-wiremock.go:97 | The mapping id can be read back from the container path it produces. |
| Request.StaticPathRoundTrip | tc-wiremock.go:112 | The static file name can be read back from the container path it produces. |
| Request.MappingPathInjective | tc-wiremock.go:97 | Mapping files with different ids never get the same container path. |
| Request.MappingAndStaticPathsDiffer | tc-wiremock.go:97-112 | A static file's container path is never a mapping file's container path. |
| WireMock.RunContainer | tc-wiremock.go:35-68 | The request handed to the runtime is the default request with every customizer applied in order, with `Started` set. Its files are exactly the customizers' files in order, its ports are `["8080/tcp"]`, and its command is `[""]`: it lacks `--disable-banner`, which only the local copy receives. A runtime error is returned as it is. Otherwise a `GetURI` error is returned, and on success the result is the container with a client for its base URL. |
| Uri.GetURI | tc-wiremock.go:130-142 | Succeeds exactly when both lookups succeed, and then gives `http://` + host + `:` + port. A host error is returned first; a port error is returned only when the host lookup succeeded. |
| Uri.GetURIRoundTrip | tc-wiremock.go:141 | When the port has no colon, the host and the port can be read back from the base URL, even when the host itself contains colons. |
| Query.Set | tc-wiremock.go:216 | Setting a key gives it exactly one value, the given one. Every other key keeps its values, and the keys are the old keys plus the key that was set. |
| Query.Merge | tc-wiremock.go:215-217 | A definition with no contract of its own: the query after every supplied key is set. Its properties are stated by `Query.MergeIsTheOnlyMerge`, `Query.IterationOrderIrrelevant` and `Query.SetAll`. |
| Query.SetEach | tc-wiremock.go:215-217 | A definition with no contract of its own: the supplied keys set in one given visiting order. Its properties are stated by `Query.SetEachReplacesKeysSet` and `Query.IterationOrderIrrelevant`. |
| Query.MergeIsTheOnlyMerge | tc-wiremock.go:215-217 | A query has each supplied key mapped to exactly its one supplied value, and every other key keeping its old values, if and only if it equals `Merge`. |
| Query.SetEachReplacesKeysSet | tc-wiremock.go:215-217 | Setting supplied keys one by one, in any given order, replaces exactly the keys that were set. All other keys keep their old values. |
| Query.IterationOrderIrrelevant | tc-wiremock.go:215-217 | Every order of visiting the supplied keys gives the same query, `Merge`. |
| Query.SetAll | tc-wiremock.go:215-217 | The loop that sets each key, in whatever order it visits them, produces a merge: supplied keys replaced by their one value, other keys untouched, and no other keys. |
| Query.AddedQueryParams | tc-wiremock.go:204-222 | A definition with no contract of its own: the outcome of adding parameters to an endpoint. Its properties are stated by `Query.AddedQueryParamsChangesOnlyQuery`, `Query.NoParamsReencodesQuery`, `Query.AddQueryParamsToURL` and `Query.SendHttpGet`. |
| Query.AddedQueryParamsChangesOnlyQuery | tc-wiremock.go:204-222 | When adding parameters succeeds, both parses succeeded. The result is the parsed URL with only its raw query replaced, by the encoding of a merge of the old query with the parameters. |
| Query.NoParamsReencodesQuery | tc-wiremock.go:215-219 | With an empty map of parameters, the endpoint's query is still parsed and re-encoded rather than passed through. |
| Query.AddQueryParamsToURL | tc-wiremock.go:204-222 | A parse error of the endpoint, or of its query, is returned as it is. Otherwise the result is the parsed URL with its raw query set to the encoded merge, printed back out. |
| Query.SendHttpGet | tc-wiremock.go:146-156 | With a nil parameter map, the endpoint is sent unchanged. Otherwise a failure to add the parameters gives status -1, an empty body and that error, and nothing is sent. On success the endpoint with the parameters added is sent. |

## Left out

- The customizers `RunContainer` accepts are limited to the three of this library: `WithMappingFile`, `WithFile` and `WithImage`. The Go signature accepts any container customizer, and customizers built elsewhere can change the command, the ports, the readiness check or `Started`. Those are not modelled, so the facts that the handed command is `[""]`, the ports are `["8080/tcp"]` and `Started` is set hold for this library's customizers only.
- `Failure(e)` stands for Go's pair of a zero value and the error `e`: `""` from `GetURI` and from adding query parameters, `nil` from `RunContainer`. Every caller discards that zero value.
- Container lifecycle: the runtime's `GenericContainer` is an input (`launch`). `Terminate`, test cleanup, `RunContainerAndStopOnCleanup` and `RunDefaultContainerAndStopOnCleanup` are orchestration and test-framework I/O.
- The readiness check is kept as a value (path and port). Waiting on it happens inside the container runtime.
- The other fields of the container request and of the runtime request (environment, entrypoint, provider, logger, reuse) are not modelled. This library never sets or reads them.
- HTTP I/O: `sendHttpRequest`, `SendHttpDelete`, `SendHttpPost`, `SendHttpPatch`, `SendHttpPut`, the HTTP client and reading the body are network calls. The GET round trip is the input `send`.
- `wiremock.NewClient` is modelled only by the base URL it is given (`Uri.Client`).
- URL parsing, query parsing, percent-encoding, key sorting in `Encode`, and printing a URL are inputs (`Query.NetUrl`). The parsed URL has only scheme, user, host, path, raw query and fragment. The URL library's other fields (raw path, forced query, raw fragment and the like) are not modelled. This library never touches them.
- `MappedPort` returns a port with a protocol, and its `Port()` strips the protocol. The model takes the bare port number as the lookup's result.
- `WireMockExtension` is an unused struct.
- Go's aliasing of slice backing arrays is not modelled. The `--disable-banner` append could not affect the handed request in any case: the handed request keeps its own length-1 command slice.
- Uri.GetURIRoundTrip: proved only for ports without a colon, which holds of every numeric port.
- Request.FileEntries: its own contract states only the count bound and the mode. The order and contents of the files are stated by `Request.ApplyAllFiles`.

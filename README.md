# Image distribution in the early Docker engine, modelled in Dafny

This project models the engine's image distribution protocol from
`components/engine/commands.go`. There are two directions.

- **push**: walk an image's history and send one metadata PUT per
  image whose json file is readable. When the registry accepts it, send a layer negotiation PUT. When
  that answers 307 with a location, upload the gzipped layer archive to the
  location.
- **pulli**: fetch the history manifest of a remote image and decode it as a
  stream of JSON records, with every `null` first rewritten to `""`. Then,
  for each ancestor not yet held in the local graph, fetch its metadata and
  layer and register both. Stop at the first error.

It also models two smaller pieces from the same file: the `-p` port-list
flag (`strconv.Atoi` and append) and the defaults `CmdRun` picks for the
image and command line.

The network, the JSON decoder, the file system and the graph's on-disk
write are not modelled as code. They enter the model as parameters:

- what the server answers (`Reply`, `Fetched`);
- what the decoder returns for a text (`unmarshal`, `split`);
- whether the graph's write succeeded (`written`);
- the order Go's map iteration happens to produce (`order`, required to be
  a permutation).

Every proof holds for all values of these parameters.

Modules:

- `Wrappers`: `Option` and `Result`.
- `ImageModel`: images, requests, responses, replies, fetched bodies.
- `Codec`: the `null` rewrite, single-record decoding, the decode-until-EOF
  loop.
- `Push`: one image's push attempt, the walk over the history, request
  counting.
- `ImageGraph`: the local graph as a class with `images` and `layers` maps.
- `Pull`: `getHistory`, `getRemoteImage`, the register-missing loop, and
  `CmdPulli`.
- `Ports`: decimal parsing with Go's `int` range, and the `ports` flag value.
- `RunDefaults`: the default image and command line.

## Model

| member | source | states |
|---|---|---|
| Codec.Normalize | components/engine/commands.go:526 | The replace-all of `null` by `""`, left to right over non-overlapping occurrences. It never lengthens the text, and it is empty exactly on empty text. |
| Codec.NormalizeNullFree | components/engine/commands.go:526 | After the rewrite, no four consecutive characters spell `null`: every occurrence is gone. |
| Codec.NormalizeIdentity | components/engine/commands.go:526 | Text that contains no `null` is left unchanged by the rewrite. |
| Codec.NormalizeSplit | components/engine/commands.go:526 | Each `null` becomes `""` with the text around it rewritten independently: `Normalize(a + "null" + b) == Normalize(a) + "\"\"" + Normalize(b)`. |
| Codec.NormalizeRewritesStringValues | components/engine/commands.go:526 | The rewrite also applies inside string values: `{"comment": "see /dev/null"}` reaches the decoder as `{"comment": "see /dev/"""}`, which is no longer the record that was sent. |
| Codec.NormalizeTwoNulls | components/engine/commands.go:526 | Null-free pieces joined by two `null`s come back joined by two `""`s and otherwise intact. |
| Codec.NormalizeExample | components/engine/commands.go:526 | The record `{"id": null, "parent": "abc", "comment": null}` becomes `{"id": "", "parent": "abc", "comment": ""}`. |
| Codec.NewImgJsonOnlyNullFreeReachesDecoder | components/engine/commands.go:521-531 | Two decoders that agree on null-free text give the same result on any input, so the decoder never sees a `null`. |
| Codec.NewImgJson | components/engine/commands.go:521-531 | The result is the decoder's verdict on the rewritten text, its error passed on unchanged. On null-free input the decoder gets exactly the received text. |
| Codec.FirstStop | components/engine/commands.go:539-545 | Index of the first end-of-stream or error step: every earlier step is a decoded record. |
| Codec.RecordImages | components/engine/commands.go:546 | The images of a run of records, one per record, in stream order. |
| Codec.DecodeAllCharacterised | components/engine/commands.go:539-548 | Decoding succeeds iff the first non-record step is end-of-stream. Success yields exactly the records before it. Failure yields the error of the first failing step, discarding the records seen so far. |
| Codec.DecodeStream | components/engine/commands.go:539-548 | The decode loop returns what the stream specification `DecodeAll` gives for the same steps. |
| Codec.NewMultipleImgJson | components/engine/commands.go:534-549 | The multi-record decoder runs that loop over the decoder steps for the rewritten text. |
| Push.MetadataFailure | components/engine/commands.go:452-471 | A failed metadata PUT is reported by its response. No response object means an internal error, 204 "already on the repository", 400 "invalid json", and any other status is reported with that status. |
| Push.UploadFailure | components/engine/commands.go:504-513 | A failed archive PUT is reported with the response's status when a response object exists, and as an error without status otherwise. |
| Push.PushImage | components/engine/commands.go:441-515 | No readable json means no request. Otherwise the first request is the metadata PUT with the file's bytes and length. A second request is sent iff that PUT answers 200, and it is the layer negotiation PUT. 204 reports "already on the repository" and 400 "invalid json", each after one request. A third request is sent iff negotiation answers 307 with a location and the layer archive exists: the upload to that location, with the archive's length and transfer encoding `none`. The upload counts as complete iff every step succeeded. Otherwise the outcome names the failed phase: the metadata reply's failure report, a failed negotiation, a missing location, an unreadable layer, or the upload reply's failure report. |
| Push.WalkPush | components/engine/commands.go:441-516 | Walking the history reports one outcome per image, each that image's attempt. The requests sent are those attempts' requests in walk order. An image that fails does not stop the walk. |
| Push.CmdPush | components/engine/commands.go:427-519 | The command always returns no error. With no argument, or an image the graph cannot find, it sends nothing. Otherwise it pushes the whole history of the named image. |
| Push.CountsAppend | components/engine/commands.go:441-516 | The metadata, negotiation and upload counts are additive over concatenated request logs. |
| Push.WalkRequestCounts | components/engine/commands.go:441-516 | A push of N images sends one metadata PUT per readable json file (so at most N). It sends one negotiation per accepted metadata PUT. Uploads never outnumber negotiations. |
| Push.AttemptCounts | components/engine/commands.go:450-515 | A single attempt sends at most one request of each kind. It uploads iff it sent three requests. |
| Push.SyncedPushSendsOnlyMetadata | components/engine/commands.go:459-462 | If the registry answers 204 to every metadata PUT, the push sends exactly one metadata PUT per image and nothing else. |
| Push.PushScenario | components/engine/commands.go:441-516 | For a history c, b, a where c and b upload fully and a is already on the registry: two uploads, and a reported as already present. |
| ImageGraph.Graph.Exists | components/engine/commands.go:616 | An id the graph reports as existing has, in a valid graph, both its record, carrying that id, and its layer. |
| ImageGraph.Graph.Register | components/engine/commands.go:622 | Registration succeeds iff the graph's write succeeds. On success the image and its layer are stored under the image's id. On failure the graph is unchanged. |
| Pull.GetRemoteImage | components/engine/commands.go:570-595 | One GET for `<base><id>/json`, and a second for `<base><id>/layer` iff the json was read and decoded. Success iff both arrived. The result is the decoded image with its id overwritten by the requested id, plus the layer body. Transport, read and parse failures give those errors. |
| Pull.GetHistory | components/engine/commands.go:551-568 | The manifest is requested at `<base><id>/history`. Transport and read failures of that GET are reported as such. A fully read manifest yields the multi-record decode of its body, with a decode error reported as a parse error. |
| Pull.PullLoop | components/engine/commands.go:615-627 | The specification of the register-missing loop: held ids are skipped, a missing id is fetched and registered, and the first fetch or storage failure ends the loop. At most one fetch per history entry, and a failing run fetched something. |
| Pull.PullMissing | components/engine/commands.go:615-627 | The loop over the history leaves the graph, the list of fetched ids and the error exactly as the specification `PullLoop` gives them, keeping the graph's key invariant. |
| Pull.PullFetchesOnlyMissing | components/engine/commands.go:615-617 | Only ids absent from the graph at the start are fetched, each at most once, even when the history lists an id twice. |
| Pull.PullKeepsRegistered | components/engine/commands.go:615-627 | A pull never removes or alters an image or layer the graph already held, and the graph stays well keyed. |
| Pull.PullCompletes | components/engine/commands.go:615-627 | A pull that ends without error holds every image of the history. |
| Pull.PullRegistersFetched | components/engine/commands.go:617-624 | Every image new to the graph was fetched. Its stored metadata and layer are exactly what the remote fetch returned for its id. |
| Pull.PullAbortsAtFirstError | components/engine/commands.go:617-624 | On error there is an index k. Entry k was missing from the graph, was the last id fetched, and is still not held. The returned error is that entry's fetch error, or the storage error when its write failed. Nothing after entry k was fetched. Every entry before k is held, since earlier registrations are not rolled back. Beyond its starting contents, the graph gained only entries before k. |
| Pull.PullOfSyncedHistoryIsNoop | components/engine/commands.go:615-616 | When every history image is already held, a pull fetches nothing and changes nothing. |
| Pull.CmdPulli | components/engine/commands.go:597-628 | With no argument: no request, no error, the graph unchanged. Otherwise the manifest is requested at `<endpoint>/images/<name>/history`. A transport, read or decode failure of the manifest returns that error, with nothing fetched and the graph unchanged. Otherwise the register-missing loop runs over the decoded history in map order under `<endpoint>/images/`: the graph, the fetched ids and the error are what that loop gives. A clean return means every image in the manifest is in the graph. |
| Ports.Atoi | components/engine/commands.go:912 | Parsing succeeds iff the text is an optional sign and at least one digit, and the value fits Go's 64-bit `int`. The result has the sign and decimal value of the text. |
| Ports.Decimal | components/engine/commands.go:907-909 | The decimal rendering of a natural number is a nonempty digit string. |
| Ports.DecimalValueOfDecimal | components/engine/commands.go:907-912 | Reading the decimal rendering of a natural number gives that number back. |
| Ports.AtoiFormat | components/engine/commands.go:907-912 | Every in-range integer, written in decimal with a `-` when negative, parses back to itself. |
| Ports.PortList.Set | components/engine/commands.go:911-918 | A parsable value is appended to the port list. Otherwise the result is the error `Invalid port: <value>` and the list is unchanged. |
| RunDefaults.PlanRun | components/engine/commands.go:933-950 | The image is the first argument, or `base` when it is empty, so never empty. With two or more arguments the command line is the rest and the flags are untouched. Otherwise the command is `/bin/bash -i` with stdin, tty and attach switched on. |
| RunDefaults.PlanRunIdempotent | components/engine/commands.go:933-950 | Planning again from an already planned image, command line and flags changes nothing. |

## Left out

- Actual HTTP I/O is not modelled. Each request's outcome is an input, either a `Reply` or a `Fetched` body. The `REGISTRY_ENDPOINT` constant is an `endpoint` parameter.
- The errors `http.NewRequest` returns are ignored by the code. The model builds every request directly.
- `encoding/json` itself is not modelled, because it is library code. `unmarshal` stands for one record decode, and `split` for the step sequence a streaming decoder yields.
- Reading the json file, and `Tar`/`Gzip` of the layer directory, enter as optional inputs: a missing value is a failed read.
- Push computes the layer archive twice. One run provides the body and the other the `Content-Length`. The model treats both runs as the same archive, so it cannot show a body/length mismatch from non-deterministic archiving.
- Push.WalkRequestCounts: a push is expected to send one metadata PUT per ancestor. The code returns before the PUT when the json file cannot be read (`components/engine/commands.go:444-448`). The model follows the code, so the count is "one per readable json file".
- Ports.Atoi: the accepted range assumes Go's `int` is 64 bits wide on amd64, as it is from Go 1.1 on. With an earlier toolchain `int` is 32 bits there, and `strconv.Atoi` rejects values beyond ±2^31 that the model accepts.
- The decoding side (`Normalize`, `NewImgJson`, the manifest) works on Dafny strings, one character per byte of the received body. Byte-level UTF-8 structure is not modelled; nothing on that side depends on a length.
- Pull.GetRemoteImage: the layer body is handed on unread, as in the code. A layer that is only partly delivered shows up in the model only through the graph's write failing (`written`).
- No GET of the pull checks the HTTP status: not the manifest GET of `getHistory`, and neither the json GET nor the layer GET of `getRemoteImage`. Whatever body arrives is decoded or registered, and the model keeps this (no status in `Fetched`).
- The progress and error lines written to stdout are not modelled. Push's outcome report (`PushOutcome`) names the branch each message belongs to instead.
- Flag parsing through `rcli` is not modelled: the `Parse` failure and the usage text. Commands take the positional arguments directly.
- `graph.Get`, `WalkHistory`, `graph.Exists` and `graph.Register` live in the image graph code, which is not part of this model. The graph is a class of two maps, the write's success is an input, and an image's history is the sequence `WalkHistory` would visit.
- Go's map iteration order over the decoded history is unspecified. It is the `order` parameter, constrained only to be a permutation.
- The rest of `commands.go` is outside the modelled core, because it is container management and listing rather than image distribution:
  - `CmdRun`'s container creation, start and attach;
  - the container lifecycle commands;
  - login, listing, help, version, import, rmi and history.

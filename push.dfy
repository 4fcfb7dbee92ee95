/** CmdPush: walk an image's history from the leaf to the root and, for each
    image, run the three-phase upload (metadata PUT, layer negotiation, layer
    transfer). A failure ends only that image's attempt. */
module Push {
  import opened Wrappers
  import opened ImageModel

  /** How one image's attempt ended; one constructor per early return of the
      per-image callback, plus success. */
  datatype PushOutcome =
    | JsonUnreadable            // the image's json file could not be read
    | JsonNoResponse            // metadata PUT: no response object
    | AlreadyOnRegistry         // metadata PUT: 204
    | InvalidJson               // metadata PUT: 400
    | JsonRefused(status: int)  // metadata PUT: any other status, or an error beside a response
    | NegotiationFailed         // layer PUT: an error or a status other than 307
    | NoStorageLocation         // layer PUT: 307 without a usable Location
    | LayerUnreadable           // the layer archive could not be produced
    | UploadNoResponse          // archive PUT: no response object
    | UploadRefused(status: int) // archive PUT: a status other than 200, or an error beside a response
    | Uploaded                  // archive PUT: 200

  /** The registry's replies to the three requests of one image, in order;
      a reply is consumed only when its request is issued. */
  datatype Answers = Answers(json: Reply, negotiate: Reply, upload: Reply)

  /** One entry of the history walk: the image id, the bytes of its json
      file and its layer archive as far as the local graph yields them, and
      the registry's replies. */
  datatype PushInput = PushInput(id: Id, json: Option<seq<byte>>, layer: Option<Layer>, answers: Answers)

  /** What one image's attempt did: how it ended and the requests it issued, in order. */
  datatype Attempt = Attempt(outcome: PushOutcome, sent: seq<Request>)

  function JsonUrl(endpoint: string, id: Id): string { endpoint + "/images/" + id + "/json" }
  function LayerUrl(endpoint: string, id: Id): string { endpoint + "/images/" + id + "/layer" }

  /** The metadata PUT: the json file's bytes as body, their number as Content-Length. */
  function JsonPut(endpoint: string, id: Id, json: seq<byte>): Request
  {
    Request(PUT, JsonUrl(endpoint, id), JsonBody(json), |json|, [])
  }

  /** The negotiation PUT: an empty body. */
  function NegotiationPut(endpoint: string, id: Id): Request
  {
    Request(PUT, LayerUrl(endpoint, id), NoBody, 0, [])
  }

  /** The archive PUT to the negotiated location: the declared length is the
      archive's full length and transfer encoding is `none` (no chunking). */
  function TransferPut(location: string, archive: Layer): Request
  {
    Request(PUT, location, LayerBody(archive), |archive|, ["none"])
  }

  /** The request succeeded (no error) with the given status. */
  predicate AnsweredWith(reply: Reply, status: int)
  {
    reply.Answered? && reply.response.status == status
  }

  /** The negotiation yields a storage location. */
  predicate Negotiated(reply: Reply)
  {
    AnsweredWith(reply, 307) && reply.response.location.Some?
  }

  /** The image's attempt runs all three phases to a 200. */
  predicate FullUpload(p: PushInput)
  {
    && p.json.Some? && AnsweredWith(p.answers.json, 200)
    && Negotiated(p.answers.negotiate)
    && p.layer.Some? && AnsweredWith(p.answers.upload, 200)
  }

  /** How a failed metadata PUT is reported: by the status of the response,
      if there is one. */
  function MetadataFailure(reply: Reply): (o: PushOutcome)
    ensures o.JsonNoResponse? || o.AlreadyOnRegistry? || o.InvalidJson? || o.JsonRefused?
    ensures o.JsonNoResponse? <==> ResponseOf(reply).None?
    ensures o.AlreadyOnRegistry? <==> ResponseOf(reply).Some? && ResponseOf(reply).value.status == 204
    ensures o.InvalidJson? <==> ResponseOf(reply).Some? && ResponseOf(reply).value.status == 400
    ensures o.JsonRefused? ==> ResponseOf(reply).Some? && o.status == ResponseOf(reply).value.status
  {
    match ResponseOf(reply)
    case None => JsonNoResponse
    case Some(res) =>
      if res.status == 204 then AlreadyOnRegistry
      else if res.status == 400 then InvalidJson
      else JsonRefused(res.status)
  }

  /** How a failed archive PUT is reported: with the response's status, if
      there is a response. */
  function UploadFailure(reply: Reply): (o: PushOutcome)
    ensures o.UploadNoResponse? || o.UploadRefused?
    ensures o.UploadRefused? <==> ResponseOf(reply).Some?
    ensures o.UploadRefused? ==> o.status == ResponseOf(reply).value.status
  {
    match ResponseOf(reply)
    case None => UploadNoResponse
    case Some(res) => UploadRefused(res.status)
  }

  /** The per-image callback of CmdPush. */
  function PushImage(endpoint: string, p: PushInput): (a: Attempt)
    // Nothing is sent when the json file cannot be read; otherwise the
    // metadata PUT is the first request.
    ensures p.json.None? <==> a.sent == []
    ensures p.json.None? ==> a.outcome == JsonUnreadable
    ensures p.json.Some? ==> a.sent[0] == JsonPut(endpoint, p.id, p.json.value)
    ensures |a.sent| <= 3
    // Only status 200 on the metadata PUT leads to a layer request.
    ensures |a.sent| > 1 <==> p.json.Some? && AnsweredWith(p.answers.json, 200)
    ensures |a.sent| > 1 ==> a.sent[1] == NegotiationPut(endpoint, p.id)
    ensures p.json.Some? && ResponseOf(p.answers.json).Some? && ResponseOf(p.answers.json).value.status == 204
            ==> a.outcome == AlreadyOnRegistry && |a.sent| == 1
    ensures p.json.Some? && ResponseOf(p.answers.json).Some? && ResponseOf(p.answers.json).value.status == 400
            ==> a.outcome == InvalidJson && |a.sent| == 1
    // The transfer is issued only after a 307 with a Location, goes to that
    // Location, and declares the archive's exact length without chunking.
    ensures |a.sent| == 3 <==> p.json.Some? && AnsweredWith(p.answers.json, 200)
                               && Negotiated(p.answers.negotiate) && p.layer.Some?
    ensures |a.sent| == 3 ==> a.sent[2] == TransferPut(p.answers.negotiate.response.location.value, p.layer.value)
    // The image counts as uploaded exactly when every phase succeeded.
    ensures a.outcome == Uploaded <==> FullUpload(p)
    // Otherwise the outcome names the phase that failed and how.
    ensures p.json.Some? && !AnsweredWith(p.answers.json, 200) ==> a.outcome == MetadataFailure(p.answers.json)
    ensures |a.sent| >= 2 && !AnsweredWith(p.answers.negotiate, 307) ==> a.outcome == NegotiationFailed
    ensures |a.sent| >= 2 && AnsweredWith(p.answers.negotiate, 307) && p.answers.negotiate.response.location.None?
            ==> a.outcome == NoStorageLocation
    ensures |a.sent| >= 2 && Negotiated(p.answers.negotiate) && p.layer.None? ==> a.outcome == LayerUnreadable
    ensures |a.sent| == 3 && !AnsweredWith(p.answers.upload, 200) ==> a.outcome == UploadFailure(p.answers.upload)
  {
    match p.json
    case None => Attempt(JsonUnreadable, [])
    case Some(json) =>
      var put := JsonPut(endpoint, p.id, json);
      if !AnsweredWith(p.answers.json, 200) then
        Attempt(MetadataFailure(p.answers.json), [put])
      else
        var negotiate := NegotiationPut(endpoint, p.id);
        var reply := p.answers.negotiate;
        if !AnsweredWith(reply, 307) then
          Attempt(NegotiationFailed, [put, negotiate])
        else if reply.response.location.None? then
          Attempt(NoStorageLocation, [put, negotiate])
        else
          match p.layer
          case None => Attempt(LayerUnreadable, [put, negotiate])
          case Some(archive) =>
            var transfer := TransferPut(reply.response.location.value, archive);
            if AnsweredWith(p.answers.upload, 200) then
              Attempt(Uploaded, [put, negotiate, transfer])
            else
              Attempt(UploadFailure(p.answers.upload), [put, negotiate, transfer])
  }

  /** All requests the walk issues: each image's requests, in walk order. */
  function SentDuring(endpoint: string, history: seq<PushInput>): seq<Request>
  {
    if history == [] then []
    else PushImage(endpoint, history[0]).sent + SentDuring(endpoint, history[1..])
  }

  /** The walk of CmdPush: every image of the history is attempted, whatever
      happened to the images before it. */
  method WalkPush(endpoint: string, history: seq<PushInput>) returns (report: seq<PushOutcome>, sent: seq<Request>)
    ensures |report| == |history|
    ensures forall i :: 0 <= i < |history| ==> report[i] == PushImage(endpoint, history[i]).outcome
    ensures sent == SentDuring(endpoint, history)
  {
    report, sent := [], [];
    var i := 0;
    while i < |history|
      invariant 0 <= i <= |history|
      invariant |report| == i
      invariant forall k :: 0 <= k < i ==> report[k] == PushImage(endpoint, history[k]).outcome
      invariant sent + SentDuring(endpoint, history[i..]) == SentDuring(endpoint, history)
    {
      var attempt := PushImage(endpoint, history[i]);
      assert history[i..][1..] == history[i + 1..];
      report := report + [attempt.outcome];
      sent := sent + attempt.sent;
      i := i + 1;
    }
    assert history[i..] == [];
  }

  /** CmdPush. `lookup` is the graph's lookup of the leaf followed by the
      history walk; a missing argument or a failed lookup sends nothing.
      The returned error is always nil. */
  method CmdPush(endpoint: string, args: seq<string>, lookup: string -> Option<seq<PushInput>>)
    returns (err: Option<string>, report: seq<PushOutcome>, sent: seq<Request>)
    ensures err == None
    ensures args == [] ==> report == [] && sent == []
    ensures args != [] && lookup(args[0]).None? ==> report == [] && sent == []
    ensures args != [] && lookup(args[0]).Some? ==>
      var history := lookup(args[0]).value;
      && |report| == |history|
      && (forall i :: 0 <= i < |history| ==> report[i] == PushImage(endpoint, history[i]).outcome)
      && sent == SentDuring(endpoint, history)
  {
    err, report, sent := None, [], [];
    if args == [] {
      return;
    }
    match lookup(args[0])
    case None =>
      return;
    case Some(history) =>
      report, sent := WalkPush(endpoint, history);
  }

  /** Number of requests of each kind, told apart by what they carry. */
  function CountMetadata(sent: seq<Request>): nat
  {
    if sent == [] then 0 else (if sent[0].payload.JsonBody? then 1 else 0) + CountMetadata(sent[1..])
  }

  function CountTransfers(sent: seq<Request>): nat
  {
    if sent == [] then 0 else (if sent[0].payload.LayerBody? then 1 else 0) + CountTransfers(sent[1..])
  }

  function CountNegotiations(sent: seq<Request>): nat
  {
    if sent == [] then 0 else (if sent[0].payload.NoBody? then 1 else 0) + CountNegotiations(sent[1..])
  }

  lemma {:induction false} CountsAppend(a: seq<Request>, b: seq<Request>)
    ensures CountMetadata(a + b) == CountMetadata(a) + CountMetadata(b)
    ensures CountNegotiations(a + b) == CountNegotiations(a) + CountNegotiations(b)
    ensures CountTransfers(a + b) == CountTransfers(a) + CountTransfers(b)
  {
    if a == [] {
      assert a + b == b;
    } else {
      assert (a + b)[1..] == a[1..] + b;
      CountsAppend(a[1..], b);
    }
  }

  /** Images whose json file is readable. */
  function Readable(history: seq<PushInput>): nat
  {
    if history == [] then 0 else (if history[0].json.Some? then 1 else 0) + Readable(history[1..])
  }

  /** Images that answer the metadata PUT with 200. */
  function Accepted(history: seq<PushInput>): nat
  {
    if history == [] then 0
    else (if history[0].json.Some? && AnsweredWith(history[0].answers.json, 200) then 1 else 0) + Accepted(history[1..])
  }

  /** A walk over N images issues one metadata PUT per image whose json is
      readable (so N when all are), one negotiation per image the registry
      accepted with 200, and at most that many transfers. */
  lemma {:induction false} WalkRequestCounts(endpoint: string, history: seq<PushInput>)
    ensures CountMetadata(SentDuring(endpoint, history)) == Readable(history) <= |history|
    ensures CountNegotiations(SentDuring(endpoint, history)) == Accepted(history)
    ensures CountTransfers(SentDuring(endpoint, history)) <= Accepted(history) <= Readable(history)
  {
    if history != [] {
      var a := PushImage(endpoint, history[0]);
      WalkRequestCounts(endpoint, history[1..]);
      CountsAppend(a.sent, SentDuring(endpoint, history[1..]));
      AttemptCounts(endpoint, history[0]);
    }
  }

  /** The request counts of one image's attempt. */
  lemma AttemptCounts(endpoint: string, p: PushInput)
    ensures var a := PushImage(endpoint, p);
      && CountMetadata(a.sent) == (if p.json.Some? then 1 else 0)
      && CountNegotiations(a.sent) == (if p.json.Some? && AnsweredWith(p.answers.json, 200) then 1 else 0)
      && CountTransfers(a.sent) == (if |a.sent| == 3 then 1 else 0) <= CountNegotiations(a.sent)
  {
    var a := PushImage(endpoint, p);
    if |a.sent| >= 1 {
      CountsCons(a.sent);
      if |a.sent| >= 2 {
        CountsCons(a.sent[1..]);
        if |a.sent| == 3 {
          CountsCons(a.sent[1..][1..]);
          assert a.sent[1..][1..][1..] == [];
        } else {
          assert a.sent[1..][1..] == [];
        }
      } else {
        assert a.sent[1..] == [];
      }
    }
  }

  /** The counts of a non-empty list: its first request, then the rest. */
  lemma CountsCons(sent: seq<Request>)
    requires sent != []
    ensures CountMetadata(sent) == (if sent[0].payload.JsonBody? then 1 else 0) + CountMetadata(sent[1..])
    ensures CountNegotiations(sent) == (if sent[0].payload.NoBody? then 1 else 0) + CountNegotiations(sent[1..])
    ensures CountTransfers(sent) == (if sent[0].payload.LayerBody? then 1 else 0) + CountTransfers(sent[1..])
  {
  }

  /** The registry holds the image already: it answers the metadata PUT with 204. */
  predicate Synced(p: PushInput)
  {
    p.json.Some? && ResponseOf(p.answers.json).Some? && ResponseOf(p.answers.json).value.status == 204
  }

  /** Pushing a chain the registry already holds in full issues exactly one
      metadata PUT per image and no layer request at all. */
  lemma {:induction false} SyncedPushSendsOnlyMetadata(endpoint: string, history: seq<PushInput>)
    requires forall i :: 0 <= i < |history| ==> Synced(history[i])
    ensures |SentDuring(endpoint, history)| == |history|
    ensures forall i :: 0 <= i < |history| ==>
      history[i].json.Some? && SentDuring(endpoint, history)[i] == JsonPut(endpoint, history[i].id, history[i].json.value)
  {
    if history != [] {
      var p := history[0];
      assert Synced(p);
      var res := ResponseOf(p.answers.json).value;
      assert ResponseOf(p.answers.json) == Some(Response(204, res.location));
      SyncedPushSendsOnlyMetadata(endpoint, history[1..]);
      assert SentDuring(endpoint, history) == [JsonPut(endpoint, p.id, p.json.value)] + SentDuring(endpoint, history[1..]);
    }
  }

  /** The three-image scenario: the registry has the root already and takes
      the two others in full; the walk goes leaf to root. Both B and C are
      uploaded and A is reported as already there. */
  lemma PushScenario(endpoint: string, c: PushInput, b: PushInput, a: PushInput)
    requires FullUpload(c) && FullUpload(b)
    requires a.json.Some? && a.answers.json == Answered(Response(204, None))
    ensures PushImage(endpoint, c).outcome == Uploaded
    ensures PushImage(endpoint, b).outcome == Uploaded
    ensures PushImage(endpoint, a).outcome == AlreadyOnRegistry
    ensures CountTransfers(SentDuring(endpoint, [c, b, a])) == 2
  {
    assert [c, b, a][1..] == [b, a];
    assert [b, a][1..] == [a];
    assert [a][1..] == [];
    var sc, sb, sa := PushImage(endpoint, c).sent, PushImage(endpoint, b).sent, PushImage(endpoint, a).sent;
    assert SentDuring(endpoint, [a]) == sa + SentDuring(endpoint, []);
    assert SentDuring(endpoint, [b, a]) == sb + SentDuring(endpoint, [a]);
    assert SentDuring(endpoint, [c, b, a]) == sc + SentDuring(endpoint, [b, a]);
    CountsAppend(sc, SentDuring(endpoint, [b, a]));
    CountsAppend(sb, SentDuring(endpoint, [a]));
    CountsAppend(sa, []);
    AttemptCounts(endpoint, c);
    AttemptCounts(endpoint, b);
    AttemptCounts(endpoint, a);
  }
}

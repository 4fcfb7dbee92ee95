/** CmdPulli: fetch the remote history of an image, then fetch and register
    every image of it that the local graph does not hold, stopping at the
    first error. */
module Pull {
  import opened Wrappers
  import opened ImageModel
  import opened Codec
  import opened ImageGraph

  /** The errors of the pull, one per failing step. */
  datatype PullError =
    | TransportError(reason: string)   // "Error while getting from the server"
    | ReadError                        // "Error while reading the http response"
    | ParseError(detail: string)       // "Error while parsing the json"
    | StorageError                     // Register failed

  /** The registry's replies for one id: its json GET and its layer GET. */
  datatype RemoteImage = RemoteImage(json: Fetched<string>, layer: Fetched<Layer>)

  /** What getRemoteImage did: its result and the URLs it requested, in order. */
  datatype Fetch = Fetch(result: Result<(Image, Layer), PullError>, gets: seq<string>)

  /** The metadata GET was answered, read completely and decoded. */
  predicate JsonDecodes(remote: RemoteImage, unmarshal: string -> Result<Image, string>)
  {
    remote.json.Delivered? && remote.json.readComplete && NewImgJson(remote.json.body, unmarshal).Success?
  }

  /** getRemoteImage: GET the json, read it, decode it, force its id, then
      GET the layer, whose body is handed on unread. */
  function GetRemoteImage(baseUri: string, id: Id, remote: RemoteImage, unmarshal: string -> Result<Image, string>): (f: Fetch)
    ensures 1 <= |f.gets| <= 2 && f.gets[0] == baseUri + id + "/json"
    // The layer is requested only once the metadata GET, read and decode succeeded.
    ensures |f.gets| == 2 <==> JsonDecodes(remote, unmarshal)
    ensures |f.gets| == 2 ==> f.gets[1] == baseUri + id + "/layer"
    ensures f.result.Success? <==> JsonDecodes(remote, unmarshal) && remote.layer.Delivered?
    // The returned image is the decoded one with its id forced to `id`.
    ensures f.result.Success? ==>
      && f.result.value.0.id == id
      && f.result.value.0 == NewImgJson(remote.json.body, unmarshal).value.(id := id)
      && f.result.value.1 == remote.layer.body
    ensures remote.json.Unreachable? ==> f.result == Failure(TransportError(remote.json.reason))
    ensures remote.json.Delivered? && !remote.json.readComplete ==> f.result == Failure(ReadError)
    ensures remote.json.Delivered? && remote.json.readComplete && NewImgJson(remote.json.body, unmarshal).Failure? ==>
      f.result == Failure(ParseError(NewImgJson(remote.json.body, unmarshal).error))
    ensures JsonDecodes(remote, unmarshal) && remote.layer.Unreachable? ==>
      f.result == Failure(TransportError(remote.layer.reason))
  {
    var jsonUrl := baseUri + id + "/json";
    match remote.json
    case Unreachable(reason) => Fetch(Failure(TransportError(reason)), [jsonUrl])
    case Delivered(body, readComplete) =>
      if !readComplete then Fetch(Failure(ReadError), [jsonUrl])
      else match NewImgJson(body, unmarshal)
        case Failure(e) => Fetch(Failure(ParseError(e)), [jsonUrl])
        case Success(decoded) =>
          var img := decoded.(id := id);
          var gets := [jsonUrl, baseUri + id + "/layer"];
          match remote.layer
          case Unreachable(reason) => Fetch(Failure(TransportError(reason)), gets)
          case Delivered(layer, _) => Fetch(Success((img, layer)), gets)
  }

  /** getHistory: GET `<base><id>/history`, read the manifest, decode it as a
      stream. `manifest` is the registry's reply to that GET. */
  method GetHistory(baseUri: string, id: Id, manifest: Fetched<string>, split: string -> seq<DecodeStep>)
    returns (url: string, r: Result<seq<Image>, PullError>)
    ensures url == baseUri + id + "/history"
    ensures manifest.Unreachable? ==> r == Failure(TransportError(manifest.reason))
    ensures manifest.Delivered? && !manifest.readComplete ==> r == Failure(ReadError)
    ensures manifest.Delivered? && manifest.readComplete ==>
      match DecodeAll(split(Normalize(manifest.body)))
      case Success(history) => r == Success(history)
      case Failure(e) => r == Failure(ParseError(e))
  {
    url := baseUri + id + "/history";
    match manifest
    case Unreachable(reason) =>
      r := Failure(TransportError(reason));
    case Delivered(body, readComplete) =>
      if !readComplete {
        r := Failure(ReadError);
      } else {
        var decoded := NewMultipleImgJson(body, split);
        match decoded
        case Success(history) =>
          r := Success(history);
        case Failure(e) =>
          r := Failure(ParseError(e));
      }
  }

  /** The graph's contents as a value. */
  datatype Store = Store(images: map<Id, Image>, layers: map<Id, Layer>)

  /** The outcome of the pull loop: the final store, the ids it fetched in
      order, and the error it stopped at, if any. */
  datatype PullRun = PullRun(store: Store, fetched: seq<Id>, err: Option<PullError>)

  /** Every stored record sits under its own id and has a layer. */
  predicate WellKeyed(st: Store)
  {
    && st.images.Keys == st.layers.Keys
    && forall id :: id in st.images ==> st.images[id].id == id
  }

  /** The loop of CmdPulli over the history entries, in the order given. */
  function PullLoop(baseUri: string, st: Store, history: seq<Image>, remote: Id -> RemoteImage,
                    unmarshal: string -> Result<Image, string>, written: Id -> bool): (r: PullRun)
    // At most one fetch per entry, and the entry that fails is fetched.
    ensures |r.fetched| <= |history|
    ensures r.err.Some? ==> r.fetched != []
    decreases |history|
  {
    if history == [] then PullRun(st, [], None)
    else
      var id := history[0].id;
      if id in st.images then PullLoop(baseUri, st, history[1..], remote, unmarshal, written)
      else
        match GetRemoteImage(baseUri, id, remote(id), unmarshal).result
        case Failure(e) => PullRun(st, [id], Some(e))
        case Success((img, layer)) =>
          if !written(img.id) then PullRun(st, [id], Some(StorageError))
          else
            var next := Store(st.images[img.id := img], st.layers[img.id := layer]);
            var r := PullLoop(baseUri, next, history[1..], remote, unmarshal, written);
            PullRun(r.store, [id] + r.fetched, r.err)
  }

  /** `run` with `prefix` fetched before it. */
  function AfterFetching(prefix: seq<Id>, run: PullRun): PullRun
  {
    PullRun(run.store, prefix + run.fetched, run.err)
  }

  /** The loop of CmdPulli on the graph itself. */
  method PullMissing(g: Graph, baseUri: string, history: seq<Image>, remote: Id -> RemoteImage,
                     unmarshal: string -> Result<Image, string>, written: Id -> bool)
    returns (err: Option<PullError>, fetched: seq<Id>)
    requires g.Valid()
    modifies g
    ensures g.Valid()
    ensures PullRun(Store(g.images, g.layers), fetched, err)
         == PullLoop(baseUri, Store(old(g.images), old(g.layers)), history, remote, unmarshal, written)
  {
    ghost var start := Store(g.images, g.layers);
    err, fetched := None, [];
    var i := 0;
    assert history[i..] == history;
    while i < |history|
      invariant 0 <= i <= |history|
      invariant g.Valid()
      invariant PullLoop(baseUri, start, history, remote, unmarshal, written)
             == AfterFetching(fetched, PullLoop(baseUri, Store(g.images, g.layers), history[i..], remote, unmarshal, written))
    {
      var id := history[i].id;
      assert history[i..][0] == history[i];
      assert history[i..][1..] == history[i + 1..];
      if !g.Exists(id) {
        var f := GetRemoteImage(baseUri, id, remote(id), unmarshal);
        fetched := fetched + [id];
        match f.result
        case Failure(e) =>
          return Some(e), fetched;
        case Success((img, layer)) =>
          var ok := g.Register(layer, img, written(img.id));
          if !ok {
            return Some(StorageError), fetched;
          }
      }
      i := i + 1;
    }
  }

  /** The ids of the first `k` history entries. */
  function IdsBefore(history: seq<Image>, k: nat): set<Id>
    requires k <= |history|
  {
    set j | 0 <= j < k :: history[j].id
  }

  /** No id of `r.fetched` was held in `st`, and none is fetched twice. */
  predicate FetchedOnlyMissing(st: Store, r: PullRun)
  {
    && (forall k :: 0 <= k < |r.fetched| ==> r.fetched[k] !in st.images)
    && (forall k, l :: 0 <= k < l < |r.fetched| ==> r.fetched[k] != r.fetched[l])
  }

  /** Pull only fetches ids the graph does not hold at that moment: never
      one it held at the start, and never the same id twice. */
  lemma {:induction false} PullFetchesOnlyMissing(baseUri: string, st: Store, history: seq<Image>, remote: Id -> RemoteImage,
                                                  unmarshal: string -> Result<Image, string>, written: Id -> bool)
    ensures FetchedOnlyMissing(st, PullLoop(baseUri, st, history, remote, unmarshal, written))
    decreases |history|
  {
    if history != [] {
      var id := history[0].id;
      var r := PullLoop(baseUri, st, history, remote, unmarshal, written);
      if id in st.images {
        PullFetchesOnlyMissing(baseUri, st, history[1..], remote, unmarshal, written);
        assert r == PullLoop(baseUri, st, history[1..], remote, unmarshal, written);
      } else {
        match GetRemoteImage(baseUri, id, remote(id), unmarshal).result
        case Failure(e) =>
        case Success((img, layer)) =>
          if written(img.id) {
            assert img.id == id;
            var next := Store(st.images[img.id := img], st.layers[img.id := layer]);
            var r' := PullLoop(baseUri, next, history[1..], remote, unmarshal, written);
            PullFetchesOnlyMissing(baseUri, next, history[1..], remote, unmarshal, written);
            assert FetchedOnlyMissing(next, r');
            assert r.fetched == [id] + r'.fetched;
            forall k, l | 0 <= k < l < |r.fetched| ensures r.fetched[k] != r.fetched[l] {
              assert r.fetched[l] == r'.fetched[l - 1];
              if k > 0 {
                assert r.fetched[k] == r'.fetched[k - 1];
              }
            }
          }
      }
    }
  }

  /** Registration only adds: everything the graph held before the pull is
      still there unchanged, and the graph stays well keyed. */
  lemma {:induction false} PullKeepsRegistered(baseUri: string, st: Store, history: seq<Image>, remote: Id -> RemoteImage,
                                              unmarshal: string -> Result<Image, string>, written: Id -> bool)
    requires WellKeyed(st)
    ensures var r := PullLoop(baseUri, st, history, remote, unmarshal, written);
      && WellKeyed(r.store)
      && (forall id :: id in st.images ==> id in r.store.images && r.store.images[id] == st.images[id])
      && (forall id :: id in st.layers ==> id in r.store.layers && r.store.layers[id] == st.layers[id])
    decreases |history|
  {
    if history != [] {
      var id := history[0].id;
      if id in st.images {
        PullKeepsRegistered(baseUri, st, history[1..], remote, unmarshal, written);
      } else {
        match GetRemoteImage(baseUri, id, remote(id), unmarshal).result
        case Failure(e) =>
        case Success((img, layer)) =>
          if written(img.id) {
            var next := Store(st.images[img.id := img], st.layers[img.id := layer]);
            PullKeepsRegistered(baseUri, next, history[1..], remote, unmarshal, written);
          }
      }
    }
  }

  /** A clean return means every id of the history is now held locally. */
  lemma {:induction false} PullCompletes(baseUri: string, st: Store, history: seq<Image>, remote: Id -> RemoteImage,
                                        unmarshal: string -> Result<Image, string>, written: Id -> bool)
    requires WellKeyed(st)
    ensures var r := PullLoop(baseUri, st, history, remote, unmarshal, written);
      r.err == None ==> forall i :: 0 <= i < |history| ==> history[i].id in r.store.images
    decreases |history|
  {
    if history != [] {
      var id := history[0].id;
      var r := PullLoop(baseUri, st, history, remote, unmarshal, written);
      if id in st.images {
        PullCompletes(baseUri, st, history[1..], remote, unmarshal, written);
        PullKeepsRegistered(baseUri, st, history[1..], remote, unmarshal, written);
      } else {
        match GetRemoteImage(baseUri, id, remote(id), unmarshal).result
        case Failure(e) =>
        case Success((img, layer)) =>
          if written(img.id) {
            var next := Store(st.images[img.id := img], st.layers[img.id := layer]);
            PullCompletes(baseUri, next, history[1..], remote, unmarshal, written);
            PullKeepsRegistered(baseUri, next, history[1..], remote, unmarshal, written);
          }
      }
      if r.err == None {
        forall i | 0 <= i < |history| ensures history[i].id in r.store.images {
          if i > 0 {
            assert history[i] == history[1..][i - 1];
          }
        }
      }
    }
  }

  /** What the pull registers is what the registry sent for that id: the
      decoded record with its id forced, and the layer body. Every id it
      adds was fetched. */
  lemma {:induction false} PullRegistersFetched(baseUri: string, st: Store, history: seq<Image>, remote: Id -> RemoteImage,
                                               unmarshal: string -> Result<Image, string>, written: Id -> bool)
    requires WellKeyed(st)
    ensures var r := PullLoop(baseUri, st, history, remote, unmarshal, written);
      forall id :: id in r.store.images && id !in st.images ==>
        && id in r.fetched
        && id in r.store.layers
        && GetRemoteImage(baseUri, id, remote(id), unmarshal).result == Success((r.store.images[id], r.store.layers[id]))
    decreases |history|
  {
    if history != [] {
      var id := history[0].id;
      if id in st.images {
        PullRegistersFetched(baseUri, st, history[1..], remote, unmarshal, written);
      } else {
        match GetRemoteImage(baseUri, id, remote(id), unmarshal).result
        case Failure(e) =>
        case Success((img, layer)) =>
          if written(img.id) {
            var next := Store(st.images[img.id := img], st.layers[img.id := layer]);
            PullRegistersFetched(baseUri, next, history[1..], remote, unmarshal, written);
            PullKeepsRegistered(baseUri, next, history[1..], remote, unmarshal, written);
          }
      }
    }
  }

  /** Fetching or registering `id` fails with `e`: the fetch's own error, or
      a storage error when the graph's write fails. */
  predicate FailedWith(baseUri: string, id: Id, remote: Id -> RemoteImage,
                       unmarshal: string -> Result<Image, string>, written: Id -> bool, e: PullError)
  {
    var f := GetRemoteImage(baseUri, id, remote(id), unmarshal).result;
    if f.Failure? then e == f.error else !written(id) && e == StorageError
  }

  /** `r` stopped with an error at history entry `k`: that entry's id was the
      last one fetched, is not held, and its fetch or registration failed
      with the returned error; nothing past entry `k` was fetched; every
      entry before `k` is held, and only those entries were registered. */
  predicate AbortedAt(baseUri: string, st: Store, history: seq<Image>, remote: Id -> RemoteImage,
                      unmarshal: string -> Result<Image, string>, written: Id -> bool, r: PullRun, k: nat)
  {
    && k < |history|
    && r.err.Some? && FailedWith(baseUri, history[k].id, remote, unmarshal, written, r.err.value)
    && (forall i :: 0 <= i < k ==> history[i].id in r.store.images)
    && r.fetched != [] && r.fetched[|r.fetched| - 1] == history[k].id
    && history[k].id !in r.store.images
    && (forall i :: 0 <= i < |r.fetched| ==> r.fetched[i] in IdsBefore(history, k + 1))
    && (forall id :: id in r.store.images ==> id in st.images || id in IdsBefore(history, k))
  }

  /** The first error aborts the pull: see AbortedAt. */
  lemma {:induction false} PullAbortsAtFirstError(baseUri: string, st: Store, history: seq<Image>, remote: Id -> RemoteImage,
                                                 unmarshal: string -> Result<Image, string>, written: Id -> bool)
    returns (k: nat)
    requires WellKeyed(st)
    requires PullLoop(baseUri, st, history, remote, unmarshal, written).err.Some?
    ensures AbortedAt(baseUri, st, history, remote, unmarshal, written, PullLoop(baseUri, st, history, remote, unmarshal, written), k)
    decreases |history|
  {
    var id := history[0].id;
    var r := PullLoop(baseUri, st, history, remote, unmarshal, written);
    if id in st.images {
      var r' := PullLoop(baseUri, st, history[1..], remote, unmarshal, written);
      assert r == r';
      var k' := PullAbortsAtFirstError(baseUri, st, history[1..], remote, unmarshal, written);
      PullKeepsRegistered(baseUri, st, history[1..], remote, unmarshal, written);
      AbortedAtShift(baseUri, st, st, history, remote, unmarshal, written, r, r', [], k');
      k := k' + 1;
    } else {
      match GetRemoteImage(baseUri, id, remote(id), unmarshal).result
      case Failure(e) =>
        k := 0;
        assert history[0].id in IdsBefore(history, 1);
      case Success((img, layer)) =>
        if !written(img.id) {
          k := 0;
          assert history[0].id in IdsBefore(history, 1);
        } else {
          assert img.id == id;
          var next := Store(st.images[img.id := img], st.layers[img.id := layer]);
          var r' := PullLoop(baseUri, next, history[1..], remote, unmarshal, written);
          assert r.fetched == [id] + r'.fetched && r.store == r'.store;
          var k' := PullAbortsAtFirstError(baseUri, next, history[1..], remote, unmarshal, written);
          PullKeepsRegistered(baseUri, next, history[1..], remote, unmarshal, written);
          AbortedAtShift(baseUri, st, next, history, remote, unmarshal, written, r, r', [id], k');
          k := k' + 1;
        }
    }
  }

  /** An abort in the tail of the history is an abort one entry later in the
      whole history, whether the first entry was skipped or registered. */
  lemma AbortedAtShift(baseUri: string, st: Store, next: Store, history: seq<Image>, remote: Id -> RemoteImage,
                       unmarshal: string -> Result<Image, string>, written: Id -> bool,
                       r: PullRun, r': PullRun, first: seq<Id>, k': nat)
    requires |history| > 0
    requires history[0].id in r.store.images
    requires first == [] || first == [history[0].id]
    requires r.store == r'.store && r.fetched == first + r'.fetched && r.err == r'.err
    requires forall id :: id in next.images ==> id in st.images || id == history[0].id
    requires AbortedAt(baseUri, next, history[1..], remote, unmarshal, written, r', k')
    ensures AbortedAt(baseUri, st, history, remote, unmarshal, written, r, k' + 1)
  {
    forall i | 0 < i < k' + 1 ensures history[i].id in r.store.images {
      assert history[i] == history[1..][i - 1];
    }
    IdsBeforeShift(history, k');
    IdsBeforeShift(history, k' + 1);
    assert history[k' + 1] == history[1..][k'];
    assert r.fetched[|r.fetched| - 1] == r'.fetched[|r'.fetched| - 1];
    forall i | 0 <= i < |r.fetched| ensures r.fetched[i] in IdsBefore(history, k' + 2) {
      if i >= |first| {
        assert r.fetched[i] == r'.fetched[i - |first|];
      }
    }
  }

  /** The ids before entry `k + 1` are the first id and those before entry `k` of the tail. */
  lemma IdsBeforeShift(history: seq<Image>, k: nat)
    requires 0 < |history| && k < |history|
    ensures IdsBefore(history, k + 1) == {history[0].id} + IdsBefore(history[1..], k)
  {
    forall id | id in IdsBefore(history, k + 1) ensures id in {history[0].id} + IdsBefore(history[1..], k) {
      var j :| 0 <= j < k + 1 && history[j].id == id;
      if j > 0 {
        assert history[1..][j - 1].id == id;
      }
    }
    forall id | id in IdsBefore(history[1..], k) ensures id in IdsBefore(history, k + 1) {
      var j :| 0 <= j < k && history[1..][j].id == id;
      assert history[j + 1].id == id;
    }
  }

  /** Pulling a history the graph already holds fetches nothing and changes nothing. */
  lemma {:induction false} PullOfSyncedHistoryIsNoop(baseUri: string, st: Store, history: seq<Image>, remote: Id -> RemoteImage,
                                                    unmarshal: string -> Result<Image, string>, written: Id -> bool)
    requires forall i :: 0 <= i < |history| ==> history[i].id in st.images
    ensures PullLoop(baseUri, st, history, remote, unmarshal, written) == PullRun(st, [], None)
    decreases |history|
  {
    if history != [] {
      assert forall i :: 0 <= i < |history[1..]| ==> history[1..][i] == history[i + 1];
      PullOfSyncedHistoryIsNoop(baseUri, st, history[1..], remote, unmarshal, written);
    }
  }

  /** CmdPulli. `manifest` is the reply to the history GET for the first
      argument, `order` is the iteration order of the Go map the manifest is
      decoded into (some permutation), `remote` the replies for each id and
      `written` whether the graph's storage write of an id succeeds. Besides
      the error, the model returns the manifest URLs requested, the history
      in the order it was walked and the ids fetched. */
  method CmdPulli(g: Graph, endpoint: string, args: seq<string>, manifest: Fetched<string>,
                  split: string -> seq<DecodeStep>, order: seq<Image> -> seq<Image>,
                  remote: Id -> RemoteImage, unmarshal: string -> Result<Image, string>, written: Id -> bool)
    returns (err: Option<PullError>, manifestGets: seq<string>, history: seq<Image>, fetched: seq<Id>)
    requires g.Valid()
    requires forall s :: multiset(order(s)) == multiset(s)
    modifies g
    ensures g.Valid()
    ensures args == [] ==> err == None && manifestGets == [] && fetched == [] && g.images == old(g.images) && g.layers == old(g.layers)
    ensures args != [] ==> manifestGets == [endpoint + "/images/" + args[0] + "/history"]
    ensures args != [] && manifest.Unreachable? ==>
      err == Some(TransportError(manifest.reason)) && fetched == [] && g.images == old(g.images) && g.layers == old(g.layers)
    ensures args != [] && manifest.Delivered? && !manifest.readComplete ==>
      err == Some(ReadError) && fetched == [] && g.images == old(g.images) && g.layers == old(g.layers)
    ensures args != [] && manifest.Delivered? && manifest.readComplete && DecodeAll(split(Normalize(manifest.body))).Failure? ==>
      && err == Some(ParseError(DecodeAll(split(Normalize(manifest.body))).error))
      && fetched == [] && g.images == old(g.images) && g.layers == old(g.layers)
    ensures args != [] && manifest.Delivered? && manifest.readComplete && DecodeAll(split(Normalize(manifest.body))).Success? ==>
      && history == order(DecodeAll(split(Normalize(manifest.body))).value)
      && PullLoop(endpoint + "/images/", Store(old(g.images), old(g.layers)), history, remote, unmarshal, written)
         == PullRun(Store(g.images, g.layers), fetched, err)
    // A clean return: every image of the remote history is held locally.
    ensures args != [] && err == None ==>
      manifest.Delivered? && manifest.readComplete && DecodeAll(split(Normalize(manifest.body))).Success? &&
      forall img :: img in DecodeAll(split(Normalize(manifest.body))).value ==> img.id in g.images
  {
    history, manifestGets, fetched := [], [], [];
    if args == [] {
      return None, manifestGets, history, fetched;
    }
    var baseUri := endpoint + "/images/";
    var url, h := GetHistory(baseUri, args[0], manifest, split);
    manifestGets := [url];
    match h
    case Failure(e) =>
      err := Some(e);
    case Success(decoded) =>
      history := order(decoded);
      ghost var start := Store(g.images, g.layers);
      err, fetched := PullMissing(g, baseUri, history, remote, unmarshal, written);
      if err == None {
        PullCompletes(baseUri, start, history, remote, unmarshal, written);
        forall img | img in decoded ensures img.id in g.images {
          assert img in multiset(order(decoded));
          var i :| 0 <= i < |history| && history[i] == img;
        }
      }
  }
}

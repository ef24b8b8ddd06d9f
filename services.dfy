/**
 * The four services of the client. Each holds a mutable service URI that
 * its calls overwrite, a client it sends through, PHP's JSON codec and the
 * JMS serializer. The shared behaviour of the abstract PHP base class lives
 * in `BaseService`; each concrete service holds one (`base`) and changes only
 * its `serviceUri`.
 */
module Services {
  import opened Wrappers
  import opened Php
  import opened SpeechToText
  import opened Entity

  /**
   * `json_decode($s, true)` and `json_encode($v)`. Decoding invalid JSON
   * yields `Null`; encoding yields None where PHP returns false.
   */
  datatype Codec = Codec(decode: string -> Value, encode: Value -> Option<string>)

  /** The JMS serializer: deserialization from JSON text, which may throw. */
  datatype Serializer = Serializer(
    recognitionJob: string -> Result<RecognitionJob>,
    model: string -> Result<Model>)

  const JOB_URI: string := "v1/recognitions"
  const REGISTER_URI: string := "v1/register_callback"
  const UNREGISTER_URI: string := "v1/unregister_callback"
  const MODELS_URI: string := "v1/models"

  /** The statuses that count as a successful registration. */
  const STATUS: seq<string> := ["created", "already created"]

  /** `if ($json)` after `json_encode`: the encoding succeeded and is a truthy string. */
  predicate Encodes(codec: Codec, v: Value)
  {
    codec.encode(v).Some? && IsTruthy(codec.encode(v).value)
  }

  class BaseService {
    var serviceUri: string
    var client: Client
    const codec: Codec
    const serializer: Serializer

    /** A service starts at the URI its class declares. */
    constructor (client: Client, serviceUri: string, codec: Codec, serializer: Serializer)
      ensures this.client == client && this.serviceUri == serviceUri
      ensures this.codec == codec && this.serializer == serializer
    {
      this.client := client;
      this.serviceUri := serviceUri;
      this.codec := codec;
      this.serializer := serializer;
    }

    method SetClient(client: Client) returns (self: BaseService)
      modifies this`client
      ensures this.client == client && self == this
    {
      this.client := client;
      self := this;
    }

    /**
     * `handleResponse`: the decoded body when it is a non-empty array, and
     * the empty array for anything else (a falsy body, invalid JSON, a
     * scalar, null). It never fails.
     */
    function HandleResponse(body: string): (res: PhpArray)
      ensures res != [] <==> IsTruthy(body) && codec.decode(body).Array? && codec.decode(body).entries != []
      ensures res != [] ==> codec.decode(body) == Array(res)
    {
      if IsTruthy(body) && codec.decode(body).Array? then codec.decode(body).entries else []
    }

    /** The string the client returns for a plain request to `uri`. */
    function Body(verb: string, uri: string, params: PhpArray): string
      reads this
    {
      client.Exchange(client.PlainRequest(verb, uri, params))
    }

    /** The array a plain request to `uri` yields once its body is handled. */
    function Answer(verb: string, uri: string, params: PhpArray): PhpArray
      reads this
    {
      HandleResponse(Body(verb, uri, params))
    }

    /** The array a file upload to `uri` yields once its body is handled. */
    function StreamAnswer(uri: string, fileName: string, params: PhpArray): PhpArray
      reads this
    {
      HandleResponse(client.Exchange(client.StreamRequest(uri, fileName, params)))
    }

    /** `get`: a GET of the current service URI with the params unchanged. */
    method Get(params: PhpArray) returns (res: PhpArray)
      ensures res == Answer("GET", serviceUri, params)
    {
      var body := client.Get(serviceUri, params);
      res := HandleResponse(body);
    }

    /** `getString`: the body of a GET of the current service URI, not decoded. */
    method GetString(params: PhpArray) returns (body: string)
      ensures body == Body("GET", serviceUri, params)
    {
      body := client.Get(serviceUri, params);
    }

    /** `post`: a POST to the current service URI with the params unchanged. */
    method Post(params: PhpArray) returns (res: PhpArray)
      ensures res == Answer("POST", serviceUri, params)
    {
      var body := client.Post(serviceUri, params);
      res := HandleResponse(body);
    }

    /** `postWithStream`: an upload of the file to the current service URI. */
    method PostWithStream(fileName: string, params: PhpArray) returns (res: PhpArray)
      ensures res == StreamAnswer(serviceUri, fileName, params)
    {
      var body := client.PostWithStream(serviceUri, fileName, params);
      res := HandleResponse(body);
    }
  }

  /**
   * A request the server answers with a status other than 200, 201 or 202
   * reaches the services as the empty array, whatever its body.
   */
  lemma FailedRequestIsEmptyAnswer(service: BaseService, response: Response)
    requires response.statusCode !in SUCCESS_CODE
    ensures service.HandleResponse(SpeechToText.HandleResponse(response)) == []
  {
  }

  /* ---------------------------------------------------------------- */
  /* Recognition jobs                                                  */
  /* ---------------------------------------------------------------- */

  /**
   * The parameters `createJob` sends: the four job options always, and the
   * callback URL and the comma-joined events only when a callback object
   * is set. Both keys are new when they are assigned, so they are appended.
   */
  function CreateJobParams(model: string, inactivityTimeout: int, timestamps: bool, smartFormatting: bool,
                           callbackUrl: Option<string>, events: seq<string>): (params: PhpArray)
    ensures Lookup(params, StrKey("model")) == Some(Str(model))
    ensures Lookup(params, StrKey("inactivity_timeout")) == Some(Int(inactivityTimeout))
    ensures Lookup(params, StrKey("timestamps")) == Some(Str(VarExport(timestamps)))
    ensures Lookup(params, StrKey("smart_formatting")) == Some(Str(VarExport(smartFormatting)))
    ensures callbackUrl.Some? ==> Lookup(params, StrKey("callback_url")) == Some(Str(callbackUrl.value))
    ensures callbackUrl.Some? ==> Lookup(params, StrKey("events")) == Some(Str(Implode(",", events)))
  {
    var extra := if callbackUrl.Some? then CallbackParams(callbackUrl.value, Implode(",", events)) else [];
    var e3 := [(StrKey("smart_formatting"), Str(VarExport(smartFormatting)))] + extra;
    var e2 := [(StrKey("timestamps"), Str(VarExport(timestamps)))] + e3;
    var e1 := [(StrKey("inactivity_timeout"), Int(inactivityTimeout))] + e2;
    var e0 := [(StrKey("model"), Str(model))] + e1;
    assert e0[1..] == e1 && e1[1..] == e2 && e2[1..] == e3 && e3[1..] == extra;
    assert Lookup(e0, StrKey("timestamps")) == Lookup(e1, StrKey("timestamps")) == Lookup(e2, StrKey("timestamps"));
    assert Lookup(e0, StrKey("smart_formatting")) == Lookup(e1, StrKey("smart_formatting"))
        == Lookup(e2, StrKey("smart_formatting")) == Lookup(e3, StrKey("smart_formatting"));
    assert Lookup(e0, StrKey("callback_url")) == Lookup(e1, StrKey("callback_url"))
        == Lookup(e2, StrKey("callback_url")) == Lookup(e3, StrKey("callback_url")) == Lookup(extra, StrKey("callback_url"));
    assert Lookup(e0, StrKey("events")) == Lookup(e1, StrKey("events"))
        == Lookup(e2, StrKey("events")) == Lookup(e3, StrKey("events")) == Lookup(extra, StrKey("events"));
    e0
  }

  /**
   * Without a callback object the parameters have exactly the four job
   * options as keys; with one, exactly `callback_url` and `events` are
   * added. No key occurs twice, and no other option of the job is sent.
   */
  lemma CreateJobParamsKeys(model: string, inactivityTimeout: int, timestamps: bool, smartFormatting: bool,
                            callbackUrl: Option<string>, events: seq<string>)
    ensures var params := CreateJobParams(model, inactivityTimeout, timestamps, smartFormatting, callbackUrl, events);
      DistinctKeys(params) &&
      Keys(params) == {StrKey("model"), StrKey("inactivity_timeout"), StrKey("timestamps"), StrKey("smart_formatting")}
                      + (if callbackUrl.Some? then {StrKey("callback_url"), StrKey("events")} else {})
  {
    var e0 := CreateJobParams(model, inactivityTimeout, timestamps, smartFormatting, callbackUrl, events);
    var extra := if callbackUrl.Some? then CallbackParams(callbackUrl.value, Implode(",", events)) else [];
    var e1, e2, e3 := e0[1..], e0[2..], e0[3..];
    assert e1[1..] == e2 && e2[1..] == e3 && e3[1..] == extra;
    assert Keys(extra) == if callbackUrl.Some? then {StrKey("callback_url"), StrKey("events")} else {};
    assert Keys(e3) == {StrKey("smart_formatting")} + Keys(extra);
    assert Keys(e2) == {StrKey("timestamps"), StrKey("smart_formatting")} + Keys(extra);
    assert Keys(e1) == {StrKey("inactivity_timeout"), StrKey("timestamps"), StrKey("smart_formatting")} + Keys(extra);
    assert DistinctKeys(extra) && DistinctKeys(e3) && DistinctKeys(e2) && DistinctKeys(e1);
  }

  /** The two callback entries `createJob` adds, in this order. */
  function CallbackParams(callbackUrl: string, events: string): (params: PhpArray)
    ensures DistinctKeys(params)
    ensures Keys(params) == {StrKey("callback_url"), StrKey("events")}
    ensures Lookup(params, StrKey("callback_url")) == Some(Str(callbackUrl))
    ensures Lookup(params, StrKey("events")) == Some(Str(events))
  {
    var tail := [(StrKey("events"), Str(events))];
    var params := [(StrKey("callback_url"), Str(callbackUrl))] + tail;
    assert params[1..] == tail && tail[1..] == [];
    assert Keys(tail) == {StrKey("events")} && DistinctKeys(tail);
    params
  }

  /**
   * The `events` parameter is "" for no events, and otherwise splits back
   * at the commas into the job's events, in order, provided no event
   * contains a comma.
   */
  lemma EventsParamRecoversEvents(model: string, inactivityTimeout: int, timestamps: bool, smartFormatting: bool,
                                  callbackUrl: string, events: seq<string>)
    requires forall i :: 0 <= i < |events| ==> ',' !in events[i]
    ensures var params := CreateJobParams(model, inactivityTimeout, timestamps, smartFormatting, Some(callbackUrl), events);
      Lookup(params, StrKey("events")).Some? &&
      Lookup(params, StrKey("events")).value.Str? &&
      var joined := Lookup(params, StrKey("events")).value.s;
      (events == [] ==> joined == "") &&
      (events != [] ==> Explode(',', joined) == events)
  {
    if events != [] {
      ExplodeImplode(',', events);
    }
  }

  /** What `createJob` returns for the handled answer: null only when re-encoding fails. */
  function JobFromAnswer(codec: Codec, serializer: Serializer, res: PhpArray): (r: Result<RecognitionJob?>)
    ensures r == Ok(null) <==> !Encodes(codec, Array(res))
    ensures Encodes(codec, Array(res)) ==>
      r == match serializer.recognitionJob(codec.encode(Array(res)).value)
           case Ok(job) => Ok(job)
           case Thrown(e) => Thrown(e)
  {
    if Encodes(codec, Array(res)) then
      match serializer.recognitionJob(codec.encode(Array(res)).value)
      case Ok(job) => Ok(job)
      case Thrown(e) => Thrown(e)
    else
      Ok(null)
  }

  /**
   * With `json_encode`'s encoding of the empty array, "[]", an empty handled
   * answer is not turned into null: it goes to the deserializer, whose
   * outcome `createJob` returns.
   */
  lemma EmptyAnswerIsDeserialized(codec: Codec, serializer: Serializer)
    requires codec.encode(Array([])) == Some("[]")
    ensures JobFromAnswer(codec, serializer, []) ==
      match serializer.recognitionJob("[]")
      case Ok(job) => Ok(job)
      case Thrown(e) => Thrown(e)
  {
    assert IsTruthy("[]");
  }

  class RecognitionJobService {
    const base: BaseService

    constructor (client: Client, codec: Codec, serializer: Serializer)
      ensures fresh(base)
      ensures base.client == client && base.serviceUri == JOB_URI
      ensures base.codec == codec && base.serializer == serializer
    {
      base := new BaseService(client, JOB_URI, codec, serializer);
    }

    /**
     * `createJob`: points the service URI at the job endpoint, uploads the
     * job's file with the parameters built from the job, and deserializes
     * the re-encoded answer. An empty answer is still deserialized when its
     * encoding, "[]" for `json_encode`, is truthy (`EmptyAnswerIsDeserialized`).
     */
    method CreateJob(job: Job) returns (r: Result<RecognitionJob?>)
      modifies base`serviceUri
      ensures base.serviceUri == JOB_URI
      ensures var callbackUrl := if job.callBackUrl == null then None else Some(job.callBackUrl.callbackUrl);
        var params := CreateJobParams(job.model, job.inactivityTimeout, job.timestamps, job.smartFormatting,
                                      callbackUrl, job.events);
        r == JobFromAnswer(base.codec, base.serializer, base.StreamAnswer(JOB_URI, job.fileName, params))
    {
      var callbackUrl := if job.callBackUrl == null then None else Some(job.callBackUrl.callbackUrl);
      var request := CreateJobParams(job.model, job.inactivityTimeout, job.timestamps, job.smartFormatting,
                                     callbackUrl, job.events);
      base.serviceUri := JOB_URI;
      var res := base.PostWithStream(job.fileName, request);
      r := JobFromAnswer(base.codec, base.serializer, res);
    }

    /**
     * `checkJob`: points the service URI at the job's own path, which it
     * keeps afterwards, and deserializes the raw body.
     */
    method CheckJob(job: RecognitionJob) returns (r: Result<RecognitionJob>)
      modifies base`serviceUri
      ensures base.serviceUri == JOB_URI + "/" + job.id
      ensures r == base.serializer.recognitionJob(base.Body("GET", JOB_URI + "/" + job.id, []))
    {
      var jobId := job.id;
      base.serviceUri := JOB_URI + "/" + jobId;
      var res := base.GetString([]);
      r := base.serializer.recognitionJob(res);
    }
  }

  /* ---------------------------------------------------------------- */
  /* Callback registration                                             */
  /* ---------------------------------------------------------------- */

  /** The parameters `register` sends: the URL, and the secret only when it is truthy. */
  function RegisterParams(callbackUrl: string, userSecret: string): (params: PhpArray)
    ensures DistinctKeys(params)
    ensures Keys(params) == if IsTruthy(userSecret) then {StrKey("callback_url"), StrKey("user_secret")}
                            else {StrKey("callback_url")}
    ensures Lookup(params, StrKey("callback_url")) == Some(Str(callbackUrl))
    ensures IsTruthy(userSecret) ==> Lookup(params, StrKey("user_secret")) == Some(Str(userSecret))
  {
    var params := [(StrKey("callback_url"), Str(callbackUrl))];
    var secret := [(StrKey("user_secret"), Str(userSecret))];
    assert params[1..] == [] && secret[1..] == [];
    AppendNewKeys(params, secret);
    KeysAppend(params, secret);
    if IsTruthy(userSecret) then params + secret else params
  }

  /** The parameters `unregister` sends: the URL alone. */
  function UnregisterParams(callbackUrl: string): (params: PhpArray)
    ensures Keys(params) == {StrKey("callback_url")}
    ensures Lookup(params, StrKey("callback_url")) == Some(Str(callbackUrl))
  {
    var params := [(StrKey("callback_url"), Str(callbackUrl))];
    assert params[1..] == [];
    params
  }

  /**
   * `in_array($res['status'], STATUS)`: a missing status reads as null.
   * Under loose comparison the test succeeds exactly for the two status
   * strings and for the boolean true, which equals any non-empty word.
   */
  function RegisterSucceeded(res: PhpArray): (ok: bool)
    ensures ok <==> Lookup(res, StrKey("status")) in {Some(Str("created")), Some(Str("already created")), Some(Bool(true))}
  {
    var status := Lookup(res, StrKey("status")).GetOr(Null);
    assert IsLowerWord(STATUS[0]) && IsLowerWord(STATUS[1]);
    InArray(status, STATUS)
  }

  /** An empty answer, where no status is present, means the registration failed. */
  lemma EmptyAnswerFailsRegistration()
    ensures !RegisterSucceeded([])
  {
  }

  class CallbackUrlService {
    const base: BaseService

    constructor (client: Client, codec: Codec, serializer: Serializer)
      ensures fresh(base)
      ensures base.client == client && base.serviceUri == REGISTER_URI
      ensures base.codec == codec && base.serializer == serializer
    {
      base := new BaseService(client, REGISTER_URI, codec, serializer);
    }

    /**
     * `register`: posts the registration parameters to the registration
     * endpoint and reports whether the answer's status is a success status.
     * The callback object is only read.
     */
    method Register(callbackUrl: CallbackUrl) returns (ok: bool)
      modifies base`serviceUri
      ensures base.serviceUri == REGISTER_URI
      ensures ok == RegisterSucceeded(base.Answer("POST", REGISTER_URI,
                                                  RegisterParams(callbackUrl.callbackUrl, callbackUrl.userSecret)))
    {
      var params := RegisterParams(callbackUrl.callbackUrl, callbackUrl.userSecret);
      base.serviceUri := REGISTER_URI;
      var res := base.Post(params);
      ok := RegisterSucceeded(res);
    }

    /**
     * `unregister`: posts the URL to the unregistration endpoint and
     * reports whether the handled answer is non-empty.
     */
    method Unregister(callbackUrl: CallbackUrl) returns (ok: bool)
      modifies base`serviceUri
      ensures base.serviceUri == UNREGISTER_URI
      ensures ok <==> base.Answer("POST", UNREGISTER_URI, UnregisterParams(callbackUrl.callbackUrl)) != []
    {
      var params := UnregisterParams(callbackUrl.callbackUrl);
      base.serviceUri := UNREGISTER_URI;
      var res := base.Post(params);
      ok := res != [];
    }
  }

  /**
   * Unregistration succeeds exactly when the body the client passes on is
   * truthy and decodes to a non-empty array; in particular a request the
   * server answers with a failure status never succeeds.
   */
  lemma UnregisterOutcome(service: BaseService, callbackUrl: string)
    ensures var body := service.Body("POST", UNREGISTER_URI, UnregisterParams(callbackUrl));
      service.Answer("POST", UNREGISTER_URI, UnregisterParams(callbackUrl)) != [] <==>
        IsTruthy(body) && service.codec.decode(body).Array? && service.codec.decode(body).entries != []
  {
  }

  /* ---------------------------------------------------------------- */
  /* Models                                                            */
  /* ---------------------------------------------------------------- */

  /**
   * The models the `foreach` over `res['models']` collects from `entries`:
   * each entry whose encoding is truthy is deserialized and appended; the
   * others are skipped; a deserializer error ends the whole call.
   */
  function CollectModels(codec: Codec, serializer: Serializer, entries: PhpArray): Result<seq<Model>>
  {
    if entries == [] then Ok([])
    else
      match CollectModels(codec, serializer, entries[..|entries| - 1])
      case Thrown(e) => Thrown(e)
      case Ok(models) =>
        var v := entries[|entries| - 1].1;
        if Encodes(codec, v) then
          match serializer.model(codec.encode(v).value)
          case Ok(m) => Ok(models + [m])
          case Thrown(e) => Thrown(e)
        else Ok(models)
  }

  /** A successful collection holds at most one model per entry. */
  lemma {:induction false} CollectModelsBounded(codec: Codec, serializer: Serializer, entries: PhpArray)
    ensures CollectModels(codec, serializer, entries).Ok? ==>
      |CollectModels(codec, serializer, entries).value| <= |entries|
  {
    if entries != [] {
      CollectModelsBounded(codec, serializer, entries[..|entries| - 1]);
    }
  }

  /**
   * When every entry encodes and deserializes, the collection holds
   * exactly one model per entry, in the order of the entries.
   */
  lemma {:induction false} CollectModelsAll(codec: Codec, serializer: Serializer, entries: PhpArray)
    requires forall i :: 0 <= i < |entries| ==>
      Encodes(codec, entries[i].1) && serializer.model(codec.encode(entries[i].1).value).Ok?
    ensures CollectModels(codec, serializer, entries).Ok?
    ensures |CollectModels(codec, serializer, entries).value| == |entries|
    ensures forall i :: 0 <= i < |entries| ==>
      Encodes(codec, entries[i].1) &&
      Ok(CollectModels(codec, serializer, entries).value[i]) == serializer.model(codec.encode(entries[i].1).value)
  {
    if entries != [] {
      var init := entries[..|entries| - 1];
      assert forall i :: 0 <= i < |init| ==> init[i] == entries[i];
      CollectModelsAll(codec, serializer, init);
    }
  }

  /** Once collecting a prefix has thrown, collecting the whole list throws the same error. */
  lemma {:induction false} CollectModelsThrownPrefix(codec: Codec, serializer: Serializer, entries: PhpArray, n: nat)
    requires n <= |entries|
    requires CollectModels(codec, serializer, entries[..n]).Thrown?
    ensures CollectModels(codec, serializer, entries) == CollectModels(codec, serializer, entries[..n])
    decreases |entries| - n
  {
    if n < |entries| {
      assert entries[..n + 1][..n] == entries[..n];
      CollectModelsThrownPrefix(codec, serializer, entries, n + 1);
    } else {
      assert entries[..n] == entries;
    }
  }

  /**
   * What `getModels` returns for the handled answer: nothing unless it
   * holds a set `models` entry, and otherwise the models collected from
   * that entry when it is an array (a `foreach` over a scalar runs no
   * iteration).
   */
  function ModelsFromAnswer(codec: Codec, serializer: Serializer, res: PhpArray): (r: Result<seq<Model>>)
    ensures res == [] || !IsSet(res, StrKey("models")) ==> r == Ok([])
    ensures r.Ok? ==> |r.value| <= (if IsSet(res, StrKey("models")) && Lookup(res, StrKey("models")).value.Array?
                                    then |Lookup(res, StrKey("models")).value.entries| else 0)
  {
    if res != [] && IsSet(res, StrKey("models")) && Lookup(res, StrKey("models")).value.Array? then
      CollectModelsBounded(codec, serializer, Lookup(res, StrKey("models")).value.entries);
      CollectModels(codec, serializer, Lookup(res, StrKey("models")).value.entries)
    else
      Ok([])
  }

  /** What `getModel` returns for a non-empty handled answer. */
  function ModelFromAnswer(codec: Codec, serializer: Serializer, res: PhpArray): (r: Result<Model?>)
    ensures r == Ok(null) <==> !Encodes(codec, Array(res))
    ensures Encodes(codec, Array(res)) ==>
      r == match serializer.model(codec.encode(Array(res)).value)
           case Ok(m) => Ok(m)
           case Thrown(e) => Thrown(e)
  {
    if Encodes(codec, Array(res)) then
      match serializer.model(codec.encode(Array(res)).value)
      case Ok(m) => Ok(m)
      case Thrown(e) => Thrown(e)
    else
      Ok(null)
  }

  class ModelServices {
    const base: BaseService

    constructor (client: Client, codec: Codec, serializer: Serializer)
      ensures fresh(base)
      ensures base.client == client && base.serviceUri == MODELS_URI
      ensures base.codec == codec && base.serializer == serializer
    {
      base := new BaseService(client, MODELS_URI, codec, serializer);
    }

    /**
     * `getModels`: a GET of whatever the service URI currently is, which
     * it leaves unchanged, then one model per encodable entry of `models`.
     */
    method GetModels() returns (r: Result<seq<Model>>)
      ensures r == ModelsFromAnswer(base.codec, base.serializer, base.Answer("GET", base.serviceUri, []))
    {
      var res := base.Get([]);
      var models: seq<Model> := [];
      if res != [] && IsSet(res, StrKey("models")) {
        var list := Lookup(res, StrKey("models")).value;
        if list.Array? {
          var entries := list.entries;
          var i := 0;
          while i < |entries|
            invariant 0 <= i <= |entries|
            invariant CollectModels(base.codec, base.serializer, entries[..i]) == Ok(models)
          {
            assert entries[..i + 1][..i] == entries[..i];
            var json := base.codec.encode(entries[i].1);
            if json.Some? && IsTruthy(json.value) {
              var model := base.serializer.model(json.value);
              if model.Thrown? {
                CollectModelsThrownPrefix(base.codec, base.serializer, entries, i + 1);
                return Thrown(model.error);
              }
              models := models + [model.value];
            }
            i := i + 1;
          }
          assert entries[..i] == entries;
        }
      }
      return Ok(models);
    }

    /**
     * `getModel`: points the service URI at the model's own path and
     * fetches it. On an empty answer the previous URI is restored and the
     * result is null; otherwise the URI stays at the model's path.
     */
    method GetModel(modelId: string) returns (r: Result<Model?>)
      modifies base`serviceUri
      ensures var res := base.Answer("GET", MODELS_URI + "/" + modelId, []);
        && (res == [] ==> base.serviceUri == old(base.serviceUri) && r == Ok(null))
        && (res != [] ==> base.serviceUri == MODELS_URI + "/" + modelId
                          && r == ModelFromAnswer(base.codec, base.serializer, res))
    {
      var oldUrl := base.serviceUri;
      base.serviceUri := MODELS_URI + "/" + modelId;
      var res := base.Get([]);
      if res == [] {
        base.serviceUri := oldUrl;
        return Ok(null);
      }
      r := ModelFromAnswer(base.codec, base.serializer, res);
    }
  }

  /**
   * Listing the models right after a successful lookup of one model
   * queries that model's path rather than the list endpoint, because
   * `getModel` keeps the per-model URI.
   */
  method LookupThenList(service: ModelServices, modelId: string) returns (one: Result<Model?>, all: Result<seq<Model>>)
    modifies service.base`serviceUri
    ensures var looked := service.base.Answer("GET", MODELS_URI + "/" + modelId, []);
      looked != [] ==>
        all == ModelsFromAnswer(service.base.codec, service.base.serializer, service.base.Answer("GET", MODELS_URI + "/" + modelId, []))
  {
    one := service.GetModel(modelId);
    all := service.GetModels();
  }
}

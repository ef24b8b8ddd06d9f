# Speech-to-text client: a verified model

This project is a Dafny model of a small PHP client for IBM Watson Speech to Text. The client has three layers.

- **`Client`** (`client.dfy`, module `SpeechToText`) holds the API key and the base URL.
  - It normalises the URL to end in a slash.
  - It attaches basic authentication (`apikey` plus the key).
  - It appends a query string only for non-empty parameters.
  - It passes a response body on only for status 200, 201 or 202, and `""` otherwise.
- **The services** (`services.dfy`, module `Services`) each keep one mutable service URI, which their calls overwrite.
  - `BaseService` turns the client's string into an array: the decoded JSON when it is a non-empty array, `[]` for anything else.
  - `RecognitionJobService` builds the job parameters from a `Job`, uploads the audio file and reads the job back. `checkJob` fetches one job by id.
  - `CallbackUrlService` registers and unregisters a callback URL and reports success as a boolean.
  - `ModelServices` lists the models, or fetches one. Fetching one restores the previous URI only when the answer is empty.
- **The entities** (`entity.dfy`, module `Entity`, and `recognition_result.dfy`, module `RecognitionResult`) are records of private fields with defaults and fluent setters.
  - Each setter writes one field and returns the same object.
  - Typed properties without an initialiser cannot be read before their setter has run.

Supporting modules:
- `php.dfy` (module `Php`) holds the PHP semantics that the logic depends on: decoded JSON values, ordered arrays with distinct keys, string truthiness, loose `==` against a word, `in_array`, `var_export` of a boolean, and `implode`/`explode`.
- `wrappers.dfy` holds `Option`, `Result` (a value, or what PHP would throw) and `Slot` (a typed property that may not have been assigned yet).

The outside world is passed in as functions:
- the HTTP transport and MIME detection (`Transport`);
- `http_build_query`;
- `json_decode`/`json_encode` (`Codec`);
- the JMS deserializer (`Serializer`), which may throw.

Every contract therefore holds for arbitrary server answers.

Objects whose PHP methods assign their own fields are Dafny classes. Those methods declare exactly the fields they may change, so "nothing else changes" is part of every setter's and service method's frame. The four PHP services share an abstract base class. Here each concrete service holds a `BaseService` as `base`, and its methods may change only `base.serviceUri`.

## Model

| member | source | states |
|---|---|---|
| Php.Lookup | src/JetStudio/Watson/SpeechToText/Services/CallbackUrlService.php:60 | `$a[$k]` finds a value exactly when the key is present in the array |
| Php.KeysAppend | src/JetStudio/Watson/SpeechToText/Services/CallbackUrlService.php:50-56 | assigning further keys after the literal entries adds exactly their keys to the array |
| Php.AppendNewKeys | src/JetStudio/Watson/SpeechToText/Services/CallbackUrlService.php:54-56 | assigning a key not yet present keeps the keys distinct; a lookup finds the earlier entries unchanged and the new entry under its key |
| Php.VarExport | src/JetStudio/Watson/SpeechToText/Services/RecognitionJobService.php:62-63 | `var_export` of a boolean is one of the two literals "true"/"false", and "true" exactly when the flag is set |
| Php.ExplodeImplode | src/JetStudio/Watson/SpeechToText/Services/RecognitionJobService.php:68 | the comma-joined events split back into the original events, in order, when no event contains a comma and there is at least one |
| SpeechToText.NormaliseUrl | src/JetStudio/Watson/SpeechToText/Client.php:80-83 | the base URI always ends in "/", extends the given URL by at most that one slash, and equals the URL exactly when the URL already ends in "/" |
| SpeechToText.NormaliseUrlIdempotent | src/JetStudio/Watson/SpeechToText/Client.php:80-83 | normalising an already normalised URL changes nothing |
| SpeechToText.AuthOption | src/JetStudio/Watson/SpeechToText/Client.php:77-79 | the option array has the single key `auth`, holding the pair ("apikey", key) |
| SpeechToText.BuildQueryParams | src/JetStudio/Watson/SpeechToText/Client.php:147-155 | the query string is empty exactly for empty params, and otherwise is "?" followed by the encoded params |
| SpeechToText.HandleResponse | src/JetStudio/Watson/SpeechToText/Client.php:161-167 | a response with status 200, 201 or 202 passes its body on; any other status yields "" |
| SpeechToText.NonEmptyBodyMeansSuccess | src/JetStudio/Watson/SpeechToText/Client.php:44 | the body passed on is the response body or ""; a non-empty one implies the status was one of 200, 201, 202 |
| SpeechToText.FailureIndistinguishableFromEmptyBody | src/JetStudio/Watson/SpeechToText/Client.php:161-167 | a failed request and a successful empty one give callers the same "" |
| SpeechToText.Client.constructor | src/JetStudio/Watson/SpeechToText/Client.php:73-89 | keeps key and URL as given (the URL un-normalised), sets the auth option from the key, and builds the HTTP client on the normalised base URI |
| SpeechToText.Client.PlainRequest | src/JetStudio/Watson/SpeechToText/Client.php:97-117 | a GET/POST request goes to the URI unchanged for empty params and to URI + "?" + encoded params otherwise, with the auth option |
| SpeechToText.Client.StreamRequest | src/JetStudio/Watson/SpeechToText/Client.php:125-138 | an upload is a POST to URI + query string whose body is the file, whose content type is the detected MIME type, with basic auth ("apikey", key) |
| SpeechToText.Client.Get | src/JetStudio/Watson/SpeechToText/Client.php:97-103 | returns the handled response to the plain GET request for the URI and params |
| SpeechToText.Client.Post | src/JetStudio/Watson/SpeechToText/Client.php:111-117 | returns the handled response to the plain POST request for the URI and params |
| SpeechToText.Client.PostWithStream | src/JetStudio/Watson/SpeechToText/Client.php:125-141 | returns the handled response to the upload request for the URI, file and params |
| Entity.AllowedModelsWellFormed | src/JetStudio/Watson/SpeechToText/Entity/Model.php:40-77 | there are 34 allowed model names, no two equal, and the default model is one of them |
| Entity.StatusConstants | src/JetStudio/Watson/SpeechToText/Entity/RecognitionJob.php:46-49 | the four job statuses are pairwise distinct and none is the initial empty status |
| Services.BaseService.constructor | src/JetStudio/Watson/SpeechToText/Services/BaseService.php:61-65 | a service starts with the given client and the service URI its class declares |
| Services.BaseService.SetClient | src/JetStudio/Watson/SpeechToText/Services/BaseService.php:79-83 | replaces the client, nothing else (frame), and returns the same service |
| Services.BaseService.HandleResponse | src/JetStudio/Watson/SpeechToText/Services/BaseService.php:126-135 | the result is non-empty exactly when the body is truthy and decodes to a non-empty array, and then it is that array; every other body (falsy, invalid JSON, scalar, null) gives [] |
| Services.BaseService.Get | src/JetStudio/Watson/SpeechToText/Services/BaseService.php:89-93 | a GET of the current service URI with the params unchanged, then handled |
| Services.BaseService.GetString | src/JetStudio/Watson/SpeechToText/Services/BaseService.php:99-102 | the raw body of a GET of the current service URI, not decoded |
| Services.BaseService.Post | src/JetStudio/Watson/SpeechToText/Services/BaseService.php:109-113 | a POST to the current service URI with the params unchanged, then handled |
| Services.BaseService.PostWithStream | src/JetStudio/Watson/SpeechToText/Services/BaseService.php:120-124 | an upload of the file to the current service URI with the params unchanged, then handled |
| Services.FailedRequestIsEmptyAnswer | src/JetStudio/Watson/SpeechToText/Services/BaseService.php:126-135 | a response with a status outside 200, 201, 202 reaches every service as [] whatever its body |
| Services.CreateJobParams | src/JetStudio/Watson/SpeechToText/Services/RecognitionJobService.php:59-69 | model and timeout copied unchanged, timestamps and smart_formatting as "true"/"false", and with a callback object its URL and the comma-joined events |
| Services.CreateJobParamsKeys | src/JetStudio/Watson/SpeechToText/Services/RecognitionJobService.php:59-69 | no key twice; exactly the four job options without a callback object, plus exactly callback_url and events with one |
| Services.CallbackParams | src/JetStudio/Watson/SpeechToText/Services/RecognitionJobService.php:66-69 | the two callback entries, under distinct keys, holding the URL and the joined events |
| Services.EventsParamRecoversEvents | src/JetStudio/Watson/SpeechToText/Services/RecognitionJobService.php:66-69 | events is "" for no events and otherwise splits back at the commas into the job events in order |
| Services.JobFromAnswer | src/JetStudio/Watson/SpeechToText/Services/RecognitionJobService.php:74-81 | null exactly when re-encoding the handled answer fails; otherwise the deserializer outcome, an empty answer included |
| Services.EmptyAnswerIsDeserialized | src/JetStudio/Watson/SpeechToText/Services/RecognitionJobService.php:74-78 | when the codec encodes the empty array as "[]", an empty answer is not turned into null: createJob returns what the deserializer makes of "[]" |
| Services.RecognitionJobService.constructor | src/JetStudio/Watson/SpeechToText/Services/RecognitionJobService.php:40-41 | the service URI starts at v1/recognitions |
| Services.RecognitionJobService.CreateJob | src/JetStudio/Watson/SpeechToText/Services/RecognitionJobService.php:55-82 | sets the service URI to v1/recognitions, uploads the job file with the job parameters, and returns the job read from the answer; only the service URI changes |
| Services.RecognitionJobService.CheckJob | src/JetStudio/Watson/SpeechToText/Services/RecognitionJobService.php:88-96 | leaves the service URI at v1/recognitions/<id>, deserializes the raw body of that GET, and changes neither the given job nor anything but the service URI |
| Services.RegisterParams | src/JetStudio/Watson/SpeechToText/Services/CallbackUrlService.php:50-56 | callback_url always, user_secret exactly when the secret is truthy ("" and "0" omitted), no key twice |
| Services.UnregisterParams | src/JetStudio/Watson/SpeechToText/Services/CallbackUrlService.php:72-74 | only callback_url, holding the URL |
| Services.RegisterSucceeded | src/JetStudio/Watson/SpeechToText/Services/CallbackUrlService.php:60-63 | true exactly when status is "created", "already created" or boolean true (loose comparison); missing status is false |
| Services.EmptyAnswerFailsRegistration | src/JetStudio/Watson/SpeechToText/Services/CallbackUrlService.php:59-63 | an empty answer makes registration fail |
| Services.CallbackUrlService.constructor | src/JetStudio/Watson/SpeechToText/Services/CallbackUrlService.php:42 | the service URI starts at v1/register_callback |
| Services.CallbackUrlService.Register | src/JetStudio/Watson/SpeechToText/Services/CallbackUrlService.php:48-64 | posts the registration parameters to v1/register_callback, which stays the service URI, and reports whether the answer status succeeds; the callback object is not changed |
| Services.CallbackUrlService.Unregister | src/JetStudio/Watson/SpeechToText/Services/CallbackUrlService.php:70-82 | posts only the URL to v1/unregister_callback, which stays the service URI, and succeeds exactly when the handled answer is non-empty |
| Services.UnregisterOutcome | src/JetStudio/Watson/SpeechToText/Services/CallbackUrlService.php:76-81 | unregistration succeeds exactly when the client body is truthy and decodes to a non-empty array |
| Services.CollectModelsBounded | src/JetStudio/Watson/SpeechToText/Services/ModelServices.php:52-58 | a successful collection holds at most one model per entry |
| Services.CollectModelsAll | src/JetStudio/Watson/SpeechToText/Services/ModelServices.php:52-58 | when every entry encodes and deserializes, there is exactly one model per entry, in entry order |
| Services.CollectModelsThrownPrefix | src/JetStudio/Watson/SpeechToText/Services/ModelServices.php:52-58 | a deserializer error on an entry ends the whole call with that error |
| Services.ModelsFromAnswer | src/JetStudio/Watson/SpeechToText/Services/ModelServices.php:49-62 | no models for an empty answer or an unset models entry; otherwise at most one model per entry of models |
| Services.ModelFromAnswer | src/JetStudio/Watson/SpeechToText/Services/ModelServices.php:80-87 | null exactly when re-encoding the answer fails, otherwise the deserializer outcome |
| Services.ModelServices.constructor | src/JetStudio/Watson/SpeechToText/Services/ModelServices.php:42 | the service URI starts at v1/models |
| Services.ModelServices.GetModels | src/JetStudio/Watson/SpeechToText/Services/ModelServices.php:47-63 | returns the models collected from the answer to a GET of the current service URI, which it does not change |
| Services.ModelServices.GetModel | src/JetStudio/Watson/SpeechToText/Services/ModelServices.php:69-88 | queries v1/models/<id>; on an empty answer restores the previous service URI and returns null, otherwise keeps the per-model URI and returns the model read from the answer |
| Services.LookupThenList | src/JetStudio/Watson/SpeechToText/Services/ModelServices.php:49-88 | after a successful getModel, getModels queries the per-model path rather than v1/models |
| RecognitionResult.ProcessedAudio.constructor | src/JetStudio/Watson/SpeechToText/Entity/RecognitionResult/ProcessedAudio.php:50-82 | a fresh object holds exactly the declared defaults: received = 0.0, seenByEngine = 0.0, transcription = 0.0, speakerLabels = 0.0 |
| RecognitionResult.ProcessedAudio.SetReceived | src/JetStudio/Watson/SpeechToText/Entity/RecognitionResult/ProcessedAudio.php:96-100 | stores `received` as given, with no validation; the frame allows no other field to change; returns the same object |
| RecognitionResult.ProcessedAudio.SetSeenByEngine | src/JetStudio/Watson/SpeechToText/Entity/RecognitionResult/ProcessedAudio.php:114-118 | stores `seenByEngine` as given, with no validation; the frame allows no other field to change; returns the same object |
| RecognitionResult.ProcessedAudio.SetTranscription | src/JetStudio/Watson/SpeechToText/Entity/RecognitionResult/ProcessedAudio.php:132-136 | stores `transcription` as given, with no validation; the frame allows no other field to change; returns the same object |
| RecognitionResult.ProcessedAudio.SetSpeakerLabels | src/JetStudio/Watson/SpeechToText/Entity/RecognitionResult/ProcessedAudio.php:150-154 | stores `speakerLabels` as given, with no validation; the frame allows no other field to change; returns the same object |
| RecognitionResult.AudioMetricsHistogramBin.constructor | src/JetStudio/Watson/SpeechToText/Entity/RecognitionResult/AudioMetrics/AudioMetricsHistogramBin.php:45-61 | a fresh object holds exactly the declared defaults: begin = 0.0, end = 0.0, count = 0 |
| RecognitionResult.AudioMetricsHistogramBin.SetBegin | src/JetStudio/Watson/SpeechToText/Entity/RecognitionResult/AudioMetrics/AudioMetricsHistogramBin.php:75-79 | stores `begin` as given, with no validation; the frame allows no other field to change; returns the same object |
| RecognitionResult.AudioMetricsHistogramBin.SetEnd | src/JetStudio/Watson/SpeechToText/Entity/RecognitionResult/AudioMetrics/AudioMetricsHistogramBin.php:93-97 | stores `end` as given, with no validation; the frame allows no other field to change; returns the same object |
| RecognitionResult.AudioMetricsHistogramBin.SetCount | src/JetStudio/Watson/SpeechToText/Entity/RecognitionResult/AudioMetrics/AudioMetricsHistogramBin.php:111-115 | stores `count` as given, with no validation; the frame allows no other field to change; returns the same object |
| RecognitionResult.AudioMetricsDetails.constructor | src/JetStudio/Watson/SpeechToText/Entity/RecognitionResult/AudioMetrics/AudioMetricsDetails.php:47-132 | a fresh object holds exactly the declared defaults: final = false, endTime = 0.0, speechRatio = 0.0, highFrequencyLoss = 0.0, directCurrentOffset = [], clippingRate = [], speechLevel = [], nonSpeechLevel = [], signalToNoiseRatio = None |
| RecognitionResult.AudioMetricsDetails.SetFinal | src/JetStudio/Watson/SpeechToText/Entity/RecognitionResult/AudioMetrics/AudioMetricsDetails.php:146-150 | stores `final` as given, with no validation; the frame allows no other field to change; returns the same object |
| RecognitionResult.AudioMetricsDetails.SetEndTime | src/JetStudio/Watson/SpeechToText/Entity/RecognitionResult/AudioMetrics/AudioMetricsDetails.php:164-168 | stores `endTime` as given, with no validation; the frame allows no other field to change; returns the same object |
| RecognitionResult.AudioMetricsDetails.SetSpeechRatio | src/JetStudio/Watson/SpeechToText/Entity/RecognitionResult/AudioMetrics/AudioMetricsDetails.php:182-186 | stores `speechRatio` as given, with no validation; the frame allows no other field to change; returns the same object |
| RecognitionResult.AudioMetricsDetails.SetHighFrequencyLoss | src/JetStudio/Watson/SpeechToText/Entity/RecognitionResult/AudioMetrics/AudioMetricsDetails.php:200-204 | stores `highFrequencyLoss` as given, with no validation; the frame allows no other field to change; returns the same object |
| RecognitionResult.AudioMetricsDetails.SetDirectCurrentOffset | src/JetStudio/Watson/SpeechToText/Entity/RecognitionResult/AudioMetrics/AudioMetricsDetails.php:218-222 | stores `directCurrentOffset` as given, with no validation (the list is kept as given: same order, same length); the frame allows no other field to change; returns the same object |
| RecognitionResult.AudioMetricsDetails.SetClippingRate | src/JetStudio/Watson/SpeechToText/Entity/RecognitionResult/AudioMetrics/AudioMetricsDetails.php:236-240 | stores `clippingRate` as given, with no validation (the list is kept as given: same order, same length); the frame allows no other field to change; returns the same object |
| RecognitionResult.AudioMetricsDetails.SetSpeechLevel | src/JetStudio/Watson/SpeechToText/Entity/RecognitionResult/AudioMetrics/AudioMetricsDetails.php:254-258 | stores `speechLevel` as given, with no validation (the list is kept as given: same order, same length); the frame allows no other field to change; returns the same object |
| RecognitionResult.AudioMetricsDetails.SetNonSpeechLevel | src/JetStudio/Watson/SpeechToText/Entity/RecognitionResult/AudioMetrics/AudioMetricsDetails.php:272-276 | stores `nonSpeechLevel` as given, with no validation (the list is kept as given: same order, same length); the frame allows no other field to change; returns the same object |
| RecognitionResult.AudioMetricsDetails.SetSignalToNoiseRatio | src/JetStudio/Watson/SpeechToText/Entity/RecognitionResult/AudioMetrics/AudioMetricsDetails.php:290-294 | stores `signalToNoiseRatio` as given, with no validation (absent is accepted, so the field can be cleared); the frame allows no other field to change; returns the same object |
| RecognitionResult.AudioMetrics.GetAccumulated | src/JetStudio/Watson/SpeechToText/Entity/RecognitionResult/AudioMetrics.php:79-82 | reading `accumulated` before it was ever set is an error (the typed property has no initialiser); afterwards it yields the stored value |
| RecognitionResult.AudioMetrics.constructor | src/JetStudio/Watson/SpeechToText/Entity/RecognitionResult/AudioMetrics.php:49-56 | a fresh object holds exactly the declared defaults: samplingInterval = 0.0, accumulated = unset |
| RecognitionResult.AudioMetrics.SetSamplingInterval | src/JetStudio/Watson/SpeechToText/Entity/RecognitionResult/AudioMetrics.php:70-74 | stores `samplingInterval` as given, with no validation; the frame allows no other field to change; returns the same object |
| RecognitionResult.AudioMetrics.SetAccumulated | src/JetStudio/Watson/SpeechToText/Entity/RecognitionResult/AudioMetrics.php:88-92 | stores `accumulated` with no check, after which the property counts as initialised; the frame allows no other field to change; returns the same object |
| RecognitionResult.KeywordResult.constructor | src/JetStudio/Watson/SpeechToText/Entity/RecognitionResult/KeywordResult.php:45-70 | a fresh object holds exactly the declared defaults: normalizedText = "", startTime = 0.0, endTime = 0.0, confidence = 0.0 |
| RecognitionResult.KeywordResult.SetNormalizedText | src/JetStudio/Watson/SpeechToText/Entity/RecognitionResult/KeywordResult.php:84-88 | stores `normalizedText` as given, with no validation; the frame allows no other field to change; returns the same object |
| RecognitionResult.KeywordResult.SetStartTime | src/JetStudio/Watson/SpeechToText/Entity/RecognitionResult/KeywordResult.php:102-106 | stores `startTime` as given, with no validation; the frame allows no other field to change; returns the same object |
| RecognitionResult.KeywordResult.SetEndTime | src/JetStudio/Watson/SpeechToText/Entity/RecognitionResult/KeywordResult.php:120-124 | stores `endTime` as given, with no validation; the frame allows no other field to change; returns the same object |
| RecognitionResult.KeywordResult.SetConfidence | src/JetStudio/Watson/SpeechToText/Entity/RecognitionResult/KeywordResult.php:138-142 | stores `confidence` as given, with no validation; the frame allows no other field to change; returns the same object |
| RecognitionResult.WordAlternativeResult.constructor | src/JetStudio/Watson/SpeechToText/Entity/RecognitionResult/WordAlternativeResult.php:46-54 | a fresh object holds exactly the declared defaults: confidence = 0.0, word = "" |
| RecognitionResult.WordAlternativeResult.SetConfidence | src/JetStudio/Watson/SpeechToText/Entity/RecognitionResult/WordAlternativeResult.php:68-72 | stores `confidence` as given, with no validation; the frame allows no other field to change; returns the same object |
| RecognitionResult.WordAlternativeResult.SetWord | src/JetStudio/Watson/SpeechToText/Entity/RecognitionResult/WordAlternativeResult.php:86-90 | stores `word` as given, with no validation; the frame allows no other field to change; returns the same object |
| RecognitionResult.WordAlternativeResults.constructor | src/JetStudio/Watson/SpeechToText/Entity/RecognitionResult/WordAlternativeResults.php:45-59 | a fresh object holds exactly the declared defaults: startTime = 0.0, endTime = 0.0, alternatives = [] |
| RecognitionResult.WordAlternativeResults.SetStartTime | src/JetStudio/Watson/SpeechToText/Entity/RecognitionResult/WordAlternativeResults.php:73-77 | stores `startTime` as given, with no validation; the frame allows no other field to change; returns the same object |
| RecognitionResult.WordAlternativeResults.SetEndTime | src/JetStudio/Watson/SpeechToText/Entity/RecognitionResult/WordAlternativeResults.php:91-95 | stores `endTime` as given, with no validation; the frame allows no other field to change; returns the same object |
| RecognitionResult.WordAlternativeResults.SetAlternatives | src/JetStudio/Watson/SpeechToText/Entity/RecognitionResult/WordAlternativeResults.php:109-113 | stores `alternatives` as given, with no validation (the list is kept as given: same order, same length); the frame allows no other field to change; returns the same object |
| RecognitionResult.SpeechRecognitionAlternative.constructor | src/JetStudio/Watson/SpeechToText/Entity/RecognitionResult/SpeechRecognitionAlternative.php:45-77 | a fresh object holds exactly the declared defaults: transcript = "", confidence = 0.0, timestamps = None, wordConfidence = None |
| RecognitionResult.SpeechRecognitionAlternative.SetTranscript | src/JetStudio/Watson/SpeechToText/Entity/RecognitionResult/SpeechRecognitionAlternative.php:91-95 | stores `transcript` as given, with no validation; the frame allows no other field to change; returns the same object |
| RecognitionResult.SpeechRecognitionAlternative.SetConfidence | src/JetStudio/Watson/SpeechToText/Entity/RecognitionResult/SpeechRecognitionAlternative.php:109-113 | stores `confidence` as given, with no validation; the frame allows no other field to change; returns the same object |
| RecognitionResult.SpeechRecognitionAlternative.SetTimestamps | src/JetStudio/Watson/SpeechToText/Entity/RecognitionResult/SpeechRecognitionAlternative.php:127-131 | stores `timestamps` as given, with no validation (absent is accepted, so the field can be cleared); the frame allows no other field to change; returns the same object |
| RecognitionResult.SpeechRecognitionAlternative.SetWordConfidence | src/JetStudio/Watson/SpeechToText/Entity/RecognitionResult/SpeechRecognitionAlternative.php:145-149 | stores `wordConfidence` as given, with no validation (absent is accepted, so the field can be cleared); the frame allows no other field to change; returns the same object |
| RecognitionResult.SpeakerLabelsResult.constructor | src/JetStudio/Watson/SpeechToText/Entity/RecognitionResult/SpeakerLabelsResult.php:43-77 | a fresh object holds exactly the declared defaults: from = 0.0, to = 0.0, speaker = 0, confidence = 0.0, final = false |
| RecognitionResult.SpeakerLabelsResult.SetFrom | src/JetStudio/Watson/SpeechToText/Entity/RecognitionResult/SpeakerLabelsResult.php:91-95 | stores `from` as given, with no validation; the frame allows no other field to change; returns the same object |
| RecognitionResult.SpeakerLabelsResult.SetTo | src/JetStudio/Watson/SpeechToText/Entity/RecognitionResult/SpeakerLabelsResult.php:109-113 | stores `to` as given, with no validation; the frame allows no other field to change; returns the same object |
| RecognitionResult.SpeakerLabelsResult.SetSpeaker | src/JetStudio/Watson/SpeechToText/Entity/RecognitionResult/SpeakerLabelsResult.php:127-131 | stores `speaker` as given, with no validation; the frame allows no other field to change; returns the same object |
| RecognitionResult.SpeakerLabelsResult.SetConfidence | src/JetStudio/Watson/SpeechToText/Entity/RecognitionResult/SpeakerLabelsResult.php:145-149 | stores `confidence` as given, with no validation; the frame allows no other field to change; returns the same object |
| RecognitionResult.SpeakerLabelsResult.SetFinal | src/JetStudio/Watson/SpeechToText/Entity/RecognitionResult/SpeakerLabelsResult.php:163-167 | stores `final` as given, with no validation; the frame allows no other field to change; returns the same object |
| RecognitionResult.SpeechRecognitionResult.constructor | src/JetStudio/Watson/SpeechToText/Entity/RecognitionResult/SpeechRecognitionResult.php:47-94 | a fresh object holds exactly the declared defaults: final = false, alternatives = [], keywordsResult = [], wordAlternatives = None, endOfUtterance = None |
| RecognitionResult.SpeechRecognitionResult.SetFinal | src/JetStudio/Watson/SpeechToText/Entity/RecognitionResult/SpeechRecognitionResult.php:108-112 | stores `final` as given, with no validation; the frame allows no other field to change; returns the same object |
| RecognitionResult.SpeechRecognitionResult.SetAlternatives | src/JetStudio/Watson/SpeechToText/Entity/RecognitionResult/SpeechRecognitionResult.php:126-130 | stores `alternatives` as given, with no validation (the list is kept as given: same order, same length); the frame allows no other field to change; returns the same object |
| RecognitionResult.SpeechRecognitionResult.SetKeywordsResult | src/JetStudio/Watson/SpeechToText/Entity/RecognitionResult/SpeechRecognitionResult.php:144-148 | stores `keywordsResult` as given, with no validation; the frame allows no other field to change; returns the same object |
| RecognitionResult.SpeechRecognitionResult.SetWordAlternatives | src/JetStudio/Watson/SpeechToText/Entity/RecognitionResult/SpeechRecognitionResult.php:162-166 | stores `wordAlternatives` as given, with no validation (absent is accepted, so the field can be cleared); the frame allows no other field to change; returns the same object |
| RecognitionResult.SpeechRecognitionResult.SetEndOfUtterance | src/JetStudio/Watson/SpeechToText/Entity/RecognitionResult/SpeechRecognitionResult.php:180-184 | stores `endOfUtterance` as given, with no validation (absent is accepted, so the field can be cleared); the frame allows no other field to change; returns the same object |
| RecognitionResult.SpeechRecognitionResults.constructor | src/JetStudio/Watson/SpeechToText/Entity/RecognitionResult/SpeechRecognitionResults.php:49-106 | a fresh object holds exactly the declared defaults: results = None, resultIndex = None, speakerLabels = None, processingMetrics = None, audioMetrics = null, warnings = None |
| RecognitionResult.SpeechRecognitionResults.SetResults | src/JetStudio/Watson/SpeechToText/Entity/RecognitionResult/SpeechRecognitionResults.php:120-124 | stores `results` as given, with no validation (absent is accepted, so the field can be cleared); the frame allows no other field to change; returns the same object |
| RecognitionResult.SpeechRecognitionResults.SetResultIndex | src/JetStudio/Watson/SpeechToText/Entity/RecognitionResult/SpeechRecognitionResults.php:138-142 | stores `resultIndex` as given, with no validation (absent is accepted, so the field can be cleared); the frame allows no other field to change; returns the same object |
| RecognitionResult.SpeechRecognitionResults.SetSpeakerLabels | src/JetStudio/Watson/SpeechToText/Entity/RecognitionResult/SpeechRecognitionResults.php:156-160 | stores `speakerLabels` as given, with no validation (absent is accepted, so the field can be cleared); the frame allows no other field to change; returns the same object |
| RecognitionResult.SpeechRecognitionResults.SetProcessingMetrics | src/JetStudio/Watson/SpeechToText/Entity/RecognitionResult/SpeechRecognitionResults.php:174-178 | stores `processingMetrics` as given, with no validation (absent is accepted, so the field can be cleared); the frame allows no other field to change; returns the same object |
| RecognitionResult.SpeechRecognitionResults.SetAudioMetrics | src/JetStudio/Watson/SpeechToText/Entity/RecognitionResult/SpeechRecognitionResults.php:192-196 | stores `audioMetrics` as given, with no validation (absent is accepted, so the field can be cleared); the frame allows no other field to change; returns the same object |
| RecognitionResult.SpeechRecognitionResults.SetWarnings | src/JetStudio/Watson/SpeechToText/Entity/RecognitionResult/SpeechRecognitionResults.php:210-214 | stores `warnings` as given, with no validation (absent is accepted, so the field can be cleared); the frame allows no other field to change; returns the same object |
| Entity.CallbackUrl.constructor | src/JetStudio/Watson/SpeechToText/Entity/CallbackUrl.php:40-50 | a fresh object holds exactly the declared defaults: callbackUrl = "", userSecret = "", userToken = "" |
| Entity.CallbackUrl.SetCallbackUrl | src/JetStudio/Watson/SpeechToText/Entity/CallbackUrl.php:64-68 | stores `callbackUrl` as given, with no validation; the frame allows no other field to change; returns the same object |
| Entity.CallbackUrl.SetUserSecret | src/JetStudio/Watson/SpeechToText/Entity/CallbackUrl.php:82-86 | stores `userSecret` as given, with no validation; the frame allows no other field to change; returns the same object |
| Entity.CallbackUrl.SetUserToken | src/JetStudio/Watson/SpeechToText/Entity/CallbackUrl.php:100-104 | stores `userToken` as given, with no validation; the frame allows no other field to change; returns the same object |
| Entity.SupportedFeature.constructor | src/JetStudio/Watson/SpeechToText/Entity/Model/SupportedFeature.php:46-54 | a fresh object holds exactly the declared defaults: customLanguageModel = true, speakerLabels = true |
| Entity.SupportedFeature.SetCustomLanguageModel | src/JetStudio/Watson/SpeechToText/Entity/Model/SupportedFeature.php:68-72 | stores `customLanguageModel` as given, with no validation; the frame allows no other field to change; returns the same object |
| Entity.SupportedFeature.SetSpeakerLabels | src/JetStudio/Watson/SpeechToText/Entity/Model/SupportedFeature.php:86-90 | stores `speakerLabels` as given, with no validation; the frame allows no other field to change; returns the same object |
| Entity.Model.GetSupportedFeatures | src/JetStudio/Watson/SpeechToText/Entity/Model.php:205-208 | reading `supportedFeatures` before it was ever set is an error (the typed property has no initialiser); afterwards it yields the stored value |
| Entity.Model.constructor | src/JetStudio/Watson/SpeechToText/Entity/Model.php:86-128 | a fresh object holds exactly the declared defaults: name = DEFAULT_MODEL, language = "en-US", rate = 8000, url = "", supportedFeatures = unset, description = "" |
| Entity.Model.SetName | src/JetStudio/Watson/SpeechToText/Entity/Model.php:142-146 | stores `name` as given, with no validation; the frame allows no other field to change; returns the same object |
| Entity.Model.SetLanguage | src/JetStudio/Watson/SpeechToText/Entity/Model.php:160-164 | stores `language` as given, with no validation; the frame allows no other field to change; returns the same object |
| Entity.Model.SetRate | src/JetStudio/Watson/SpeechToText/Entity/Model.php:178-182 | stores `rate` as given, with no validation; the frame allows no other field to change; returns the same object |
| Entity.Model.SetUrl | src/JetStudio/Watson/SpeechToText/Entity/Model.php:196-200 | stores `url` as given, with no validation; the frame allows no other field to change; returns the same object |
| Entity.Model.SetSupportedFeatures | src/JetStudio/Watson/SpeechToText/Entity/Model.php:214-218 | stores `supportedFeatures` with no check, after which the property counts as initialised; the frame allows no other field to change; returns the same object |
| Entity.Model.SetDescription | src/JetStudio/Watson/SpeechToText/Entity/Model.php:232-236 | stores `description` as given, with no validation; the frame allows no other field to change; returns the same object |
| Entity.Job.constructor | src/JetStudio/Watson/SpeechToText/Entity/Job.php:42-390 | a fresh object holds exactly the declared defaults: model = DEFAULT_MODEL, callBackUrl = null, events = [], resultsTtl = 0, languageCustomizationId = "", acousticCustomizationId = "", baseModelVersion = "", customizationWeight = "", inactivityTimeout = 30, keywords = [], keywordsThreshold = 0.0, maxAlternatives = 1, wordAlternativesThreshold = None, wordConfidence = false, timestamps = false, profanityFilter = false, smartFormatting = false, speakerLabels = false, grammarName = "", redaction = false, processingMetrics = false, processingMetricsInterval = 1, audioMetrics = false, endOfPhraseSilenceTime = 0.8, splitTranscriptAtPhraseEnd = false, speechDetectorSensitivity = 0.5, backgroundAudioSuppression = 0.0, fileName = "" |
| Entity.Job.SetModel | src/JetStudio/Watson/SpeechToText/Entity/Job.php:404-408 | stores `model` as given, with no validation; the frame allows no other field to change; returns the same object |
| Entity.Job.SetCallBackUrl | src/JetStudio/Watson/SpeechToText/Entity/Job.php:422-426 | stores `callBackUrl` as given, with no validation (absent is accepted, so the field can be cleared); the frame allows no other field to change; returns the same object |
| Entity.Job.SetEvents | src/JetStudio/Watson/SpeechToText/Entity/Job.php:440-444 | stores `events` as given, with no validation (the list is kept as given: same order, same length); the frame allows no other field to change; returns the same object |
| Entity.Job.SetResultsTtl | src/JetStudio/Watson/SpeechToText/Entity/Job.php:458-462 | stores `resultsTtl` as given, with no validation; the frame allows no other field to change; returns the same object |
| Entity.Job.SetLanguageCustomizationId | src/JetStudio/Watson/SpeechToText/Entity/Job.php:476-480 | stores `languageCustomizationId` as given, with no validation; the frame allows no other field to change; returns the same object |
| Entity.Job.SetAcousticCustomizationId | src/JetStudio/Watson/SpeechToText/Entity/Job.php:494-498 | stores `acousticCustomizationId` as given, with no validation; the frame allows no other field to change; returns the same object |
| Entity.Job.SetBaseModelVersion | src/JetStudio/Watson/SpeechToText/Entity/Job.php:512-516 | stores `baseModelVersion` as given, with no validation; the frame allows no other field to change; returns the same object |
| Entity.Job.SetCustomizationWeight | src/JetStudio/Watson/SpeechToText/Entity/Job.php:530-534 | stores `customizationWeight` as given, with no validation; the frame allows no other field to change; returns the same object |
| Entity.Job.SetInactivityTimeout | src/JetStudio/Watson/SpeechToText/Entity/Job.php:548-552 | stores `inactivityTimeout` as given, with no validation; the frame allows no other field to change; returns the same object |
| Entity.Job.SetKeywords | src/JetStudio/Watson/SpeechToText/Entity/Job.php:566-570 | stores `keywords` as given, with no validation (the list is kept as given: same order, same length); the frame allows no other field to change; returns the same object |
| Entity.Job.SetKeywordsThreshold | src/JetStudio/Watson/SpeechToText/Entity/Job.php:584-588 | stores `keywordsThreshold` as given, with no validation; the frame allows no other field to change; returns the same object |
| Entity.Job.SetMaxAlternatives | src/JetStudio/Watson/SpeechToText/Entity/Job.php:602-606 | stores `maxAlternatives` as given, with no validation; the frame allows no other field to change; returns the same object |
| Entity.Job.SetWordAlternativesThreshold | src/JetStudio/Watson/SpeechToText/Entity/Job.php:620-624 | stores `wordAlternativesThreshold` as given, with no validation (absent is accepted, so the field can be cleared); the frame allows no other field to change; returns the same object |
| Entity.Job.SetWordConfidence | src/JetStudio/Watson/SpeechToText/Entity/Job.php:638-642 | stores `wordConfidence` as given, with no validation; the frame allows no other field to change; returns the same object |
| Entity.Job.SetTimestamps | src/JetStudio/Watson/SpeechToText/Entity/Job.php:656-660 | stores `timestamps` as given, with no validation; the frame allows no other field to change; returns the same object |
| Entity.Job.SetProfanityFilter | src/JetStudio/Watson/SpeechToText/Entity/Job.php:674-678 | stores `profanityFilter` as given, with no validation; the frame allows no other field to change; returns the same object |
| Entity.Job.SetSmartFormatting | src/JetStudio/Watson/SpeechToText/Entity/Job.php:692-696 | stores `smartFormatting` as given, with no validation; the frame allows no other field to change; returns the same object |
| Entity.Job.SetSpeakerLabels | src/JetStudio/Watson/SpeechToText/Entity/Job.php:710-714 | stores `speakerLabels` as given, with no validation; the frame allows no other field to change; returns the same object |
| Entity.Job.SetGrammarName | src/JetStudio/Watson/SpeechToText/Entity/Job.php:728-732 | stores `grammarName` as given, with no validation; the frame allows no other field to change; returns the same object |
| Entity.Job.SetRedaction | src/JetStudio/Watson/SpeechToText/Entity/Job.php:746-750 | stores `redaction` as given, with no validation; the frame allows no other field to change; returns the same object |
| Entity.Job.SetProcessingMetrics | src/JetStudio/Watson/SpeechToText/Entity/Job.php:764-768 | stores `processingMetrics` as given, with no validation; the frame allows no other field to change; returns the same object |
| Entity.Job.SetProcessingMetricsInterval | src/JetStudio/Watson/SpeechToText/Entity/Job.php:782-786 | stores `processingMetricsInterval` as given, with no validation; the frame allows no other field to change; returns the same object |
| Entity.Job.SetAudioMetrics | src/JetStudio/Watson/SpeechToText/Entity/Job.php:800-804 | stores `audioMetrics` as given, with no validation; the frame allows no other field to change; returns the same object |
| Entity.Job.SetEndOfPhraseSilenceTime | src/JetStudio/Watson/SpeechToText/Entity/Job.php:818-822 | stores `endOfPhraseSilenceTime` as given, with no validation; the frame allows no other field to change; returns the same object |
| Entity.Job.SetSplitTranscriptAtPhraseEnd | src/JetStudio/Watson/SpeechToText/Entity/Job.php:836-840 | stores `splitTranscriptAtPhraseEnd` as given, with no validation; the frame allows no other field to change; returns the same object |
| Entity.Job.SetSpeechDetectorSensitivity | src/JetStudio/Watson/SpeechToText/Entity/Job.php:854-858 | stores `speechDetectorSensitivity` as given, with no validation; the frame allows no other field to change; returns the same object |
| Entity.Job.SetBackgroundAudioSuppression | src/JetStudio/Watson/SpeechToText/Entity/Job.php:872-876 | stores `backgroundAudioSuppression` as given, with no validation; the frame allows no other field to change; returns the same object |
| Entity.Job.SetFileName | src/JetStudio/Watson/SpeechToText/Entity/Job.php:890-894 | stores `fileName` as given, with no validation; the frame allows no other field to change; returns the same object |
| Entity.RecognitionJob.GetUpdated | src/JetStudio/Watson/SpeechToText/Entity/RecognitionJob.php:197-200 | reading `updated` before it was ever set is an error (the typed property has no initialiser); afterwards it yields the stored value |
| Entity.RecognitionJob.GetUrl | src/JetStudio/Watson/SpeechToText/Entity/RecognitionJob.php:215-218 | reading `url` before it was ever set is an error (the typed property has no initialiser); afterwards it yields the stored value |
| Entity.RecognitionJob.GetUserToken | src/JetStudio/Watson/SpeechToText/Entity/RecognitionJob.php:233-236 | reading `userToken` before it was ever set is an error (the typed property has no initialiser); afterwards it yields the stored value |
| Entity.RecognitionJob.constructor | src/JetStudio/Watson/SpeechToText/Entity/RecognitionJob.php:57-138 | a fresh object holds exactly the declared defaults: id = "", status = "", created = "", updated = unset, url = unset, userToken = unset, warnings = [], results = null |
| Entity.RecognitionJob.SetId | src/JetStudio/Watson/SpeechToText/Entity/RecognitionJob.php:152-156 | stores `id` as given, with no validation; the frame allows no other field to change; returns the same object |
| Entity.RecognitionJob.SetStatus | src/JetStudio/Watson/SpeechToText/Entity/RecognitionJob.php:170-174 | stores `status` as given, with no validation; the frame allows no other field to change; returns the same object |
| Entity.RecognitionJob.SetCreated | src/JetStudio/Watson/SpeechToText/Entity/RecognitionJob.php:188-192 | stores `created` as given, with no validation; the frame allows no other field to change; returns the same object |
| Entity.RecognitionJob.SetUpdated | src/JetStudio/Watson/SpeechToText/Entity/RecognitionJob.php:206-210 | stores `updated` with no check, after which the property counts as initialised; the frame allows no other field to change; returns the same object |
| Entity.RecognitionJob.SetUrl | src/JetStudio/Watson/SpeechToText/Entity/RecognitionJob.php:224-228 | stores `url` with no check, after which the property counts as initialised; the frame allows no other field to change; returns the same object |
| Entity.RecognitionJob.SetUserToken | src/JetStudio/Watson/SpeechToText/Entity/RecognitionJob.php:242-246 | stores `userToken` with no check, after which the property counts as initialised; the frame allows no other field to change; returns the same object |
| Entity.RecognitionJob.SetWarnings | src/JetStudio/Watson/SpeechToText/Entity/RecognitionJob.php:260-264 | stores `warnings` as given, with no validation (the list is kept as given: same order, same length); the frame allows no other field to change; returns the same object |
| Entity.RecognitionJob.SetResults | src/JetStudio/Watson/SpeechToText/Entity/RecognitionJob.php:278-282 | stores `results` as given, with no validation (absent is accepted, so the field can be cleared); the frame allows no other field to change; returns the same object |

## Left out

- HTTP, files and MIME detection are not modelled. Guzzle's `send`, `fopen`, `Utils::streamFor` and `mime_content_type` (src/JetStudio/Watson/SpeechToText/Client.php:97-141) are I/O, so they are the `Transport` parameter. The transport returns a response for every request. Guzzle's exceptions (its default `http_errors` option throws on 4xx/5xx, and network failures throw) are not modelled. The branch of `handleResponse` that yields `""` is modelled for every status outside 200, 201 and 202.
- The query-string encoding of `http_build_query` is not interpreted. Only "empty params give no query string, otherwise `?` plus the encoding" is modelled.
- The transport is deterministic: `send` is a function, so the same request against the same base URI always gets the same response. Polling a job with `checkJob` therefore never sees it progress in the model. In `LookupThenList`, the later GET of the same path gets the earlier GET's response. Server-side state and time are not modelled.
- JSON decoding and encoding, and JMS deserialization, are uninterpreted functions.
  - The model does not capture that JMS builds fresh entity objects.
  - Deserialization results are arbitrary objects of the right class. The model says nothing about their fields.
- src/JetStudio/Watson/SpeechToText/Services/SerializerFactory.php is not part of this model. It is a lazily built singleton around the JMS configuration. The serializer is a parameter instead.
- src/JetStudio/Watson/SpeechToText/Endpoint.php is not part of this model. It is a list of host-name constants with no behaviour.
- `ProcessingMetrics` has no methods, so it is only a field type.
- `ALLOWED_CONTENT_TYPE` is declared but never consulted. Uploads send whatever MIME type is detected, and the model does the same.
- Getters that return a field (`getClient`, `getModel`, `isTimestamps`, …) are field reads in Dafny, not separate members. Only getters that can fail, on typed properties without an initialiser, are functions.
- Float fields are `real` and only stored. PHP's 64-bit integers are unbounded `int`s, because no arithmetic is done on them.
- Job status transitions are not modelled. No code enforces them, so the status is a stored string, and only the constants are modelled.
- Loose comparison follows PHP 8. Under PHP 7, `0 == "created"` is true, so a status of integer 0 would also count as a successful registration there. That case is not modelled.
- Services.CreateJobParams: the contract states the value under each key, and `CreateJobParamsKeys` states the key set. It does not state the order of the entries, which only affects the order of the query string.
- Php.Lookup: its contract states only when a value is found. What is found follows from `AppendNewKeys` and from the contracts of the functions that build arrays.
- Services.ModelsFromAnswer: when `res['models']` is set but is not an array, PHP's `foreach` warns and runs no iteration. The model returns no models and does not model the warning.
- SpeechToText.NormaliseUrl: for the empty URL, PHP reads offset -1 as `""` with a warning, so the base URI becomes `/`. The model gives the same value and does not model the warning.

/**
 * The request-side entities (job configuration, callback target), the job
 * state the service reports, and the model catalogue entries. All are
 * records of private fields with fluent setters: each setter stores its
 * argument without any check and returns the object it was called on.
 */
module Entity {
  import opened Wrappers
  import opened RecognitionResult

  /** The model ids the client knows, in the order it lists them. */
  const ALLOWED_MODELS: seq<string> := [
    "ar-AR_BroadbandModel",
    "de-DE_BroadbandModel",
    "de-DE_NarrowbandModel",
    "en-GB_BroadbandModel",
    "en-GB_NarrowbandModel",
    "en-US_BroadbandModel",
    "en-US_NarrowbandModel",
    "en-US_ShortForm_NarrowbandModel",
    "es-AR_BroadbandModel",
    "es-AR_NarrowbandModel",
    "es-CL_BroadbandModel",
    "es-CL_NarrowbandModel",
    "es-CO_BroadbandModel",
    "es-CO_NarrowbandModel",
    "es-ES_BroadbandModel",
    "es-ES_NarrowbandModel",
    "es-MX_BroadbandModel",
    "es-MX_NarrowbandModel",
    "es-PE_BroadbandModel",
    "es-PE_NarrowbandModel",
    "fr-FR_BroadbandModel",
    "fr-FR_NarrowbandModel",
    "it-IT_BroadbandModel",
    "it-IT_NarrowbandModel",
    "ja-JP_BroadbandModel",
    "ja-JP_NarrowbandModel",
    "ko-KR_BroadbandModel",
    "ko-KR_NarrowbandModel",
    "nl-NL_BroadbandModel",
    "nl-NL_NarrowbandModel",
    "pt-BR_BroadbandModel",
    "pt-BR_NarrowbandModel",
    "zh-CN_BroadbandModel",
    "zh-CN_NarrowbandModel"
  ]

  /** The model used when none is chosen. */
  const DEFAULT_MODEL: string := "en-US_BroadbandModel"

  /** The job statuses the service reports. */
  const STATUS_WAITING: string := "waiting"
  const STATUS_PROCESSING: string := "processing"
  const STATUS_COMPLETED: string := "completed"
  const STATUS_FAILED: string := "failed"

  /** The catalogue has 34 entries, none twice, and the default model is one of them. */
  lemma AllowedModelsWellFormed()
    ensures |ALLOWED_MODELS| == 34
    ensures forall i, j :: 0 <= i < j < |ALLOWED_MODELS| ==> ALLOWED_MODELS[i] != ALLOWED_MODELS[j]
    ensures DEFAULT_MODEL in ALLOWED_MODELS
  {
    assert ALLOWED_MODELS[5] == DEFAULT_MODEL;
  }

  /**
   * The four statuses are pairwise distinct, and the status of a fresh
   * job state, "", is none of them.
   */
  lemma StatusConstants()
    ensures |{STATUS_WAITING, STATUS_PROCESSING, STATUS_COMPLETED, STATUS_FAILED}| == 4
    ensures "" !in {STATUS_WAITING, STATUS_PROCESSING, STATUS_COMPLETED, STATUS_FAILED}
  {
  }


  /** A callback target: URL, shared secret and user token. */
  class CallbackUrl {
    /** The URL the service calls back. */
    var callbackUrl: string
    /** The secret the service signs callbacks with. */
    var userSecret: string
    /** An opaque token echoed in callbacks. */
    var userToken: string

    /** A fresh object: every field at its declared default. */
    constructor ()
      ensures callbackUrl == ""
      ensures userSecret == ""
      ensures userToken == ""
    {
      callbackUrl := "";
      userSecret := "";
      userToken := "";
    }

    method SetCallbackUrl(callbackUrl: string) returns (self: CallbackUrl)
      modifies this`callbackUrl
      ensures this.callbackUrl == callbackUrl && self == this
    {
      this.callbackUrl := callbackUrl;
      self := this;
    }

    method SetUserSecret(userSecret: string) returns (self: CallbackUrl)
      modifies this`userSecret
      ensures this.userSecret == userSecret && self == this
    {
      this.userSecret := userSecret;
      self := this;
    }

    method SetUserToken(userToken: string) returns (self: CallbackUrl)
      modifies this`userToken
      ensures this.userToken == userToken && self == this
    {
      this.userToken := userToken;
      self := this;
    }
  }

  /** The optional features a model supports. */
  class SupportedFeature {
    /** Whether the model can be customised with a language model. */
    var customLanguageModel: bool
    /** Whether the model supports speaker labels. */
    var speakerLabels: bool

    /** A fresh object: every field at its declared default. */
    constructor ()
      ensures customLanguageModel == true
      ensures speakerLabels == true
    {
      customLanguageModel := true;
      speakerLabels := true;
    }

    method SetCustomLanguageModel(customLanguageModel: bool) returns (self: SupportedFeature)
      modifies this`customLanguageModel
      ensures this.customLanguageModel == customLanguageModel && self == this
    {
      this.customLanguageModel := customLanguageModel;
      self := this;
    }

    method SetSpeakerLabels(speakerLabels: bool) returns (self: SupportedFeature)
      modifies this`speakerLabels
      ensures this.speakerLabels == speakerLabels && self == this
    {
      this.speakerLabels := speakerLabels;
      self := this;
    }
  }

  /** A language model offered by the service. */
  class Model {
    /** The model id; any string is stored, listed or not. */
    var name: string
    /** The language the model transcribes. */
    var language: string
    /** The sampling rate in Hz. */
    var rate: int
    /** The URI of the model. */
    var url: string
    /** The features the model supports; the typed property has no initialiser. */
    var supportedFeatures: Slot<SupportedFeature>
    /** A description of the model. */
    var description: string

    /** A fresh object: every field at its declared default; typed properties without one are unset. */
    constructor ()
      ensures name == DEFAULT_MODEL
      ensures language == "en-US"
      ensures rate == 8000
      ensures url == ""
      ensures supportedFeatures == Uninitialized
      ensures description == ""
    {
      name := DEFAULT_MODEL;
      language := "en-US";
      rate := 8000;
      url := "";
      supportedFeatures := Uninitialized;
      description := "";
    }

    method SetName(name: string) returns (self: Model)
      modifies this`name
      ensures this.name == name && self == this
    {
      this.name := name;
      self := this;
    }

    method SetLanguage(language: string) returns (self: Model)
      modifies this`language
      ensures this.language == language && self == this
    {
      this.language := language;
      self := this;
    }

    method SetRate(rate: int) returns (self: Model)
      modifies this`rate
      ensures this.rate == rate && self == this
    {
      this.rate := rate;
      self := this;
    }

    method SetUrl(url: string) returns (self: Model)
      modifies this`url
      ensures this.url == url && self == this
    {
      this.url := url;
      self := this;
    }

    method SetSupportedFeatures(supportedFeatures: SupportedFeature) returns (self: Model)
      modifies this`supportedFeatures
      ensures this.supportedFeatures == Initialized(supportedFeatures) && self == this
    {
      this.supportedFeatures := Initialized(supportedFeatures);
      self := this;
    }

    method SetDescription(description: string) returns (self: Model)
      modifies this`description
      ensures this.description == description && self == this
    {
      this.description := description;
      self := this;
    }

    /** `getSupportedFeatures`: an error while the property is unset, the stored value once a setter ran. */
    function GetSupportedFeatures(): (r: Result<SupportedFeature>)
      reads this
      ensures r.Ok? <==> supportedFeatures.Initialized?
      ensures supportedFeatures.Initialized? ==> r.value == supportedFeatures.value
      ensures supportedFeatures.Uninitialized? ==> r == Thrown(UninitializedProperty("supportedFeatures"))
    {
      supportedFeatures.Read("supportedFeatures")
    }
  }

  /** The configuration of a recognition job, with the audio file to upload. */
  class Job {
    /** The model to recognise with. */
    var model: string
    /** The callback target; null when none is set. */
    var callBackUrl: CallbackUrl?
    /** The callback events to subscribe to. */
    var events: seq<string>
    /** Minutes the results are kept. */
    var resultsTtl: int
    /** Custom language model id. */
    var languageCustomizationId: string
    /** Custom acoustic model id. */
    var acousticCustomizationId: string
    /** Version of the base model. */
    var baseModelVersion: string
    /** Weight given to the custom language model. */
    var customizationWeight: string
    /** Seconds of silence before the connection closes; -1 means infinity. */
    var inactivityTimeout: int
    /** Keywords to spot (documented as at most 1000). */
    var keywords: seq<string>
    /** Confidence threshold for keyword matches. */
    var keywordsThreshold: real
    /** Maximum number of alternative transcripts. */
    var maxAlternatives: int
    /** Threshold for word alternatives; absent unless set. */
    var wordAlternativesThreshold: Option<real>
    /** Whether to return word confidences. */
    var wordConfidence: bool
    /** Whether to return word timestamps. */
    var timestamps: bool
    /** Whether to filter profanity (initialised to false although documented as true). */
    var profanityFilter: bool
    /** Whether to format dates, times and numbers. */
    var smartFormatting: bool
    /** Whether to label speakers. */
    var speakerLabels: bool
    /** Name of a grammar to use. */
    var grammarName: string
    /** Whether to redact numbers. */
    var redaction: bool
    /** Whether to return processing metrics. */
    var processingMetrics: bool
    /** Seconds between processing metrics; an int, so fractions cannot be stored. */
    var processingMetricsInterval: int
    /** Whether to return audio metrics. */
    var audioMetrics: bool
    /** Pause length, in seconds, that ends a phrase. */
    var endOfPhraseSilenceTime: real
    /** Whether to split the transcript at phrase ends. */
    var splitTranscriptAtPhraseEnd: bool
    /** Sensitivity of speech detection. */
    var speechDetectorSensitivity: real
    /** Level of background suppression. */
    var backgroundAudioSuppression: real
    /** Path of the audio file to upload. */
    var fileName: string

    /** A fresh object: every field at its declared default. */
    constructor ()
      ensures model == DEFAULT_MODEL
      ensures callBackUrl == null
      ensures events == []
      ensures resultsTtl == 0
      ensures languageCustomizationId == ""
      ensures acousticCustomizationId == ""
      ensures baseModelVersion == ""
      ensures customizationWeight == ""
      ensures inactivityTimeout == 30
      ensures keywords == []
      ensures keywordsThreshold == 0.0
      ensures maxAlternatives == 1
      ensures wordAlternativesThreshold == None
      ensures wordConfidence == false
      ensures timestamps == false
      ensures profanityFilter == false
      ensures smartFormatting == false
      ensures speakerLabels == false
      ensures grammarName == ""
      ensures redaction == false
      ensures processingMetrics == false
      ensures processingMetricsInterval == 1
      ensures audioMetrics == false
      ensures endOfPhraseSilenceTime == 0.8
      ensures splitTranscriptAtPhraseEnd == false
      ensures speechDetectorSensitivity == 0.5
      ensures backgroundAudioSuppression == 0.0
      ensures fileName == ""
    {
      model := DEFAULT_MODEL;
      callBackUrl := null;
      events := [];
      resultsTtl := 0;
      languageCustomizationId := "";
      acousticCustomizationId := "";
      baseModelVersion := "";
      customizationWeight := "";
      inactivityTimeout := 30;
      keywords := [];
      keywordsThreshold := 0.0;
      maxAlternatives := 1;
      wordAlternativesThreshold := None;
      wordConfidence := false;
      timestamps := false;
      profanityFilter := false;
      smartFormatting := false;
      speakerLabels := false;
      grammarName := "";
      redaction := false;
      processingMetrics := false;
      processingMetricsInterval := 1;
      audioMetrics := false;
      endOfPhraseSilenceTime := 0.8;
      splitTranscriptAtPhraseEnd := false;
      speechDetectorSensitivity := 0.5;
      backgroundAudioSuppression := 0.0;
      fileName := "";
    }

    method SetModel(model: string) returns (self: Job)
      modifies this`model
      ensures this.model == model && self == this
    {
      this.model := model;
      self := this;
    }

    method SetCallBackUrl(callBackUrl: CallbackUrl?) returns (self: Job)
      modifies this`callBackUrl
      ensures this.callBackUrl == callBackUrl && self == this
    {
      this.callBackUrl := callBackUrl;
      self := this;
    }

    method SetEvents(events: seq<string>) returns (self: Job)
      modifies this`events
      ensures this.events == events && self == this
    {
      this.events := events;
      self := this;
    }

    method SetResultsTtl(resultsTtl: int) returns (self: Job)
      modifies this`resultsTtl
      ensures this.resultsTtl == resultsTtl && self == this
    {
      this.resultsTtl := resultsTtl;
      self := this;
    }

    method SetLanguageCustomizationId(languageCustomizationId: string) returns (self: Job)
      modifies this`languageCustomizationId
      ensures this.languageCustomizationId == languageCustomizationId && self == this
    {
      this.languageCustomizationId := languageCustomizationId;
      self := this;
    }

    method SetAcousticCustomizationId(acousticCustomizationId: string) returns (self: Job)
      modifies this`acousticCustomizationId
      ensures this.acousticCustomizationId == acousticCustomizationId && self == this
    {
      this.acousticCustomizationId := acousticCustomizationId;
      self := this;
    }

    method SetBaseModelVersion(baseModelVersion: string) returns (self: Job)
      modifies this`baseModelVersion
      ensures this.baseModelVersion == baseModelVersion && self == this
    {
      this.baseModelVersion := baseModelVersion;
      self := this;
    }

    method SetCustomizationWeight(customizationWeight: string) returns (self: Job)
      modifies this`customizationWeight
      ensures this.customizationWeight == customizationWeight && self == this
    {
      this.customizationWeight := customizationWeight;
      self := this;
    }

    method SetInactivityTimeout(inactivityTimeout: int) returns (self: Job)
      modifies this`inactivityTimeout
      ensures this.inactivityTimeout == inactivityTimeout && self == this
    {
      this.inactivityTimeout := inactivityTimeout;
      self := this;
    }

    method SetKeywords(keywords: seq<string>) returns (self: Job)
      modifies this`keywords
      ensures this.keywords == keywords && self == this
    {
      this.keywords := keywords;
      self := this;
    }

    method SetKeywordsThreshold(keywordsThreshold: real) returns (self: Job)
      modifies this`keywordsThreshold
      ensures this.keywordsThreshold == keywordsThreshold && self == this
    {
      this.keywordsThreshold := keywordsThreshold;
      self := this;
    }

    method SetMaxAlternatives(maxAlternatives: int) returns (self: Job)
      modifies this`maxAlternatives
      ensures this.maxAlternatives == maxAlternatives && self == this
    {
      this.maxAlternatives := maxAlternatives;
      self := this;
    }

    method SetWordAlternativesThreshold(wordAlternativesThreshold: Option<real>) returns (self: Job)
      modifies this`wordAlternativesThreshold
      ensures this.wordAlternativesThreshold == wordAlternativesThreshold && self == this
    {
      this.wordAlternativesThreshold := wordAlternativesThreshold;
      self := this;
    }

    method SetWordConfidence(wordConfidence: bool) returns (self: Job)
      modifies this`wordConfidence
      ensures this.wordConfidence == wordConfidence && self == this
    {
      this.wordConfidence := wordConfidence;
      self := this;
    }

    method SetTimestamps(timestamps: bool) returns (self: Job)
      modifies this`timestamps
      ensures this.timestamps == timestamps && self == this
    {
      this.timestamps := timestamps;
      self := this;
    }

    method SetProfanityFilter(profanityFilter: bool) returns (self: Job)
      modifies this`profanityFilter
      ensures this.profanityFilter == profanityFilter && self == this
    {
      this.profanityFilter := profanityFilter;
      self := this;
    }

    method SetSmartFormatting(smartFormatting: bool) returns (self: Job)
      modifies this`smartFormatting
      ensures this.smartFormatting == smartFormatting && self == this
    {
      this.smartFormatting := smartFormatting;
      self := this;
    }

    method SetSpeakerLabels(speakerLabels: bool) returns (self: Job)
      modifies this`speakerLabels
      ensures this.speakerLabels == speakerLabels && self == this
    {
      this.speakerLabels := speakerLabels;
      self := this;
    }

    method SetGrammarName(grammarName: string) returns (self: Job)
      modifies this`grammarName
      ensures this.grammarName == grammarName && self == this
    {
      this.grammarName := grammarName;
      self := this;
    }

    method SetRedaction(redaction: bool) returns (self: Job)
      modifies this`redaction
      ensures this.redaction == redaction && self == this
    {
      this.redaction := redaction;
      self := this;
    }

    method SetProcessingMetrics(processingMetrics: bool) returns (self: Job)
      modifies this`processingMetrics
      ensures this.processingMetrics == processingMetrics && self == this
    {
      this.processingMetrics := processingMetrics;
      self := this;
    }

    method SetProcessingMetricsInterval(processingMetricsInterval: int) returns (self: Job)
      modifies this`processingMetricsInterval
      ensures this.processingMetricsInterval == processingMetricsInterval && self == this
    {
      this.processingMetricsInterval := processingMetricsInterval;
      self := this;
    }

    method SetAudioMetrics(audioMetrics: bool) returns (self: Job)
      modifies this`audioMetrics
      ensures this.audioMetrics == audioMetrics && self == this
    {
      this.audioMetrics := audioMetrics;
      self := this;
    }

    method SetEndOfPhraseSilenceTime(endOfPhraseSilenceTime: real) returns (self: Job)
      modifies this`endOfPhraseSilenceTime
      ensures this.endOfPhraseSilenceTime == endOfPhraseSilenceTime && self == this
    {
      this.endOfPhraseSilenceTime := endOfPhraseSilenceTime;
      self := this;
    }

    method SetSplitTranscriptAtPhraseEnd(splitTranscriptAtPhraseEnd: bool) returns (self: Job)
      modifies this`splitTranscriptAtPhraseEnd
      ensures this.splitTranscriptAtPhraseEnd == splitTranscriptAtPhraseEnd && self == this
    {
      this.splitTranscriptAtPhraseEnd := splitTranscriptAtPhraseEnd;
      self := this;
    }

    method SetSpeechDetectorSensitivity(speechDetectorSensitivity: real) returns (self: Job)
      modifies this`speechDetectorSensitivity
      ensures this.speechDetectorSensitivity == speechDetectorSensitivity && self == this
    {
      this.speechDetectorSensitivity := speechDetectorSensitivity;
      self := this;
    }

    method SetBackgroundAudioSuppression(backgroundAudioSuppression: real) returns (self: Job)
      modifies this`backgroundAudioSuppression
      ensures this.backgroundAudioSuppression == backgroundAudioSuppression && self == this
    {
      this.backgroundAudioSuppression := backgroundAudioSuppression;
      self := this;
    }

    method SetFileName(fileName: string) returns (self: Job)
      modifies this`fileName
      ensures this.fileName == fileName && self == this
    {
      this.fileName := fileName;
      self := this;
    }
  }

  /** The state of a recognition job as the service reports it. */
  class RecognitionJob {
    /** The id the service assigned to the job. */
    var id: string
    /** The job status as reported; any string is stored. */
    var status: string
    /** When the job was created. */
    var created: string
    /** When the job was last updated; no initialiser. */
    var updated: Slot<Option<string>>
    /** The URL to check the job at; no initialiser. */
    var url: Slot<Option<string>>
    /** The user token of the callback; no initialiser. */
    var userToken: Slot<Option<string>>
    /** Warnings about the request. */
    var warnings: seq<string>
    /** The results, once present. */
    var results: SpeechRecognitionResults?

    /** A fresh object: every field at its declared default; typed properties without one are unset. */
    constructor ()
      ensures id == ""
      ensures status == ""
      ensures created == ""
      ensures updated == Uninitialized
      ensures url == Uninitialized
      ensures userToken == Uninitialized
      ensures warnings == []
      ensures results == null
    {
      id := "";
      status := "";
      created := "";
      updated := Uninitialized;
      url := Uninitialized;
      userToken := Uninitialized;
      warnings := [];
      results := null;
    }

    method SetId(id: string) returns (self: RecognitionJob)
      modifies this`id
      ensures this.id == id && self == this
    {
      this.id := id;
      self := this;
    }

    method SetStatus(status: string) returns (self: RecognitionJob)
      modifies this`status
      ensures this.status == status && self == this
    {
      this.status := status;
      self := this;
    }

    method SetCreated(created: string) returns (self: RecognitionJob)
      modifies this`created
      ensures this.created == created && self == this
    {
      this.created := created;
      self := this;
    }

    method SetUpdated(updated: Option<string>) returns (self: RecognitionJob)
      modifies this`updated
      ensures this.updated == Initialized(updated) && self == this
    {
      this.updated := Initialized(updated);
      self := this;
    }

    method SetUrl(url: Option<string>) returns (self: RecognitionJob)
      modifies this`url
      ensures this.url == Initialized(url) && self == this
    {
      this.url := Initialized(url);
      self := this;
    }

    method SetUserToken(userToken: Option<string>) returns (self: RecognitionJob)
      modifies this`userToken
      ensures this.userToken == Initialized(userToken) && self == this
    {
      this.userToken := Initialized(userToken);
      self := this;
    }

    method SetWarnings(warnings: seq<string>) returns (self: RecognitionJob)
      modifies this`warnings
      ensures this.warnings == warnings && self == this
    {
      this.warnings := warnings;
      self := this;
    }

    method SetResults(results: SpeechRecognitionResults?) returns (self: RecognitionJob)
      modifies this`results
      ensures this.results == results && self == this
    {
      this.results := results;
      self := this;
    }

    /** `getUpdated`: an error while the property is unset, the stored value once a setter ran. */
    function GetUpdated(): (r: Result<Option<string>>)
      reads this
      ensures r.Ok? <==> updated.Initialized?
      ensures updated.Initialized? ==> r.value == updated.value
      ensures updated.Uninitialized? ==> r == Thrown(UninitializedProperty("updated"))
    {
      updated.Read("updated")
    }

    /** `getUrl`: an error while the property is unset, the stored value once a setter ran. */
    function GetUrl(): (r: Result<Option<string>>)
      reads this
      ensures r.Ok? <==> url.Initialized?
      ensures url.Initialized? ==> r.value == url.value
      ensures url.Uninitialized? ==> r == Thrown(UninitializedProperty("url"))
    {
      url.Read("url")
    }

    /** `getUserToken`: an error while the property is unset, the stored value once a setter ran. */
    function GetUserToken(): (r: Result<Option<string>>)
      reads this
      ensures r.Ok? <==> userToken.Initialized?
      ensures userToken.Initialized? ==> r.value == userToken.value
      ensures userToken.Uninitialized? ==> r == Thrown(UninitializedProperty("userToken"))
    {
      userToken.Read("userToken")
    }
  }
}

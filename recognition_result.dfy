/**
 * The result tree of a recognition job: plain records whose fields are set
 * one at a time by fluent setters. No setter checks its argument; every
 * setter returns the object it was called on. Floating-point fields are
 * `real`, as they are only stored and read back.
 */
module RecognitionResult {
  import opened Wrappers
  import opened Php

  /** Amounts of audio processed so far, in seconds. */
  class ProcessedAudio {
    /** Seconds of audio the service has received. */
    var received: real
    /** Seconds of audio the engine has seen. */
    var seenByEngine: real
    /** Seconds of audio transcribed. */
    var transcription: real
    /** Seconds of audio given speaker labels. */
    var speakerLabels: real

    /** A fresh object: every field at its declared default. */
    constructor ()
      ensures received == 0.0
      ensures seenByEngine == 0.0
      ensures transcription == 0.0
      ensures speakerLabels == 0.0
    {
      received := 0.0;
      seenByEngine := 0.0;
      transcription := 0.0;
      speakerLabels := 0.0;
    }

    method SetReceived(received: real) returns (self: ProcessedAudio)
      modifies this`received
      ensures this.received == received && self == this
    {
      this.received := received;
      self := this;
    }

    method SetSeenByEngine(seenByEngine: real) returns (self: ProcessedAudio)
      modifies this`seenByEngine
      ensures this.seenByEngine == seenByEngine && self == this
    {
      this.seenByEngine := seenByEngine;
      self := this;
    }

    method SetTranscription(transcription: real) returns (self: ProcessedAudio)
      modifies this`transcription
      ensures this.transcription == transcription && self == this
    {
      this.transcription := transcription;
      self := this;
    }

    method SetSpeakerLabels(speakerLabels: real) returns (self: ProcessedAudio)
      modifies this`speakerLabels
      ensures this.speakerLabels == speakerLabels && self == this
    {
      this.speakerLabels := speakerLabels;
      self := this;
    }
  }

  /**
   * Processing metrics. The class has three private fields and no methods,
   * so nothing can read or change them; only its shape is kept. Its
   * `processedAudio` property has no initialiser.
   */
  datatype ProcessingMetrics = ProcessingMetrics(
    processedAudio: Slot<ProcessedAudio>,
    wallClockSinceFirstByteReceived: real,
    periodic: bool)

  /** One bin of an audio-metrics histogram. */
  class AudioMetricsHistogramBin {
    /** Lower bound of the bin. */
    var begin: real
    /** Upper bound of the bin. */
    var end: real
    /** Number of values in the bin. */
    var count: int

    /** A fresh object: every field at its declared default. */
    constructor ()
      ensures begin == 0.0
      ensures end == 0.0
      ensures count == 0
    {
      begin := 0.0;
      end := 0.0;
      count := 0;
    }

    method SetBegin(begin: real) returns (self: AudioMetricsHistogramBin)
      modifies this`begin
      ensures this.begin == begin && self == this
    {
      this.begin := begin;
      self := this;
    }

    method SetEnd(end: real) returns (self: AudioMetricsHistogramBin)
      modifies this`end
      ensures this.end == end && self == this
    {
      this.end := end;
      self := this;
    }

    method SetCount(count: int) returns (self: AudioMetricsHistogramBin)
      modifies this`count
      ensures this.count == count && self == this
    {
      this.count := count;
      self := this;
    }
  }

  /** The accumulated audio metrics of a stream. */
  class AudioMetricsDetails {
    /** Whether the metrics are final. */
    var final: bool
    /** End of the audio the metrics cover, in seconds. */
    var endTime: real
    /** Share of the audio that is speech (documented as 0 to 1). */
    var speechRatio: real
    /** Estimated loss of high frequencies (documented as 0 to 1). */
    var highFrequencyLoss: real
    /** Histogram of the DC offset. */
    var directCurrentOffset: seq<AudioMetricsHistogramBin>
    /** Histogram of the clipping rate. */
    var clippingRate: seq<AudioMetricsHistogramBin>
    /** Histogram of the speech level. */
    var speechLevel: seq<AudioMetricsHistogramBin>
    /** Histogram of the non-speech level. */
    var nonSpeechLevel: seq<AudioMetricsHistogramBin>
    /** Signal-to-noise ratio in dB; the only optional field. */
    var signalToNoiseRatio: Option<real>

    /** A fresh object: every field at its declared default. */
    constructor ()
      ensures final == false
      ensures endTime == 0.0
      ensures speechRatio == 0.0
      ensures highFrequencyLoss == 0.0
      ensures directCurrentOffset == []
      ensures clippingRate == []
      ensures speechLevel == []
      ensures nonSpeechLevel == []
      ensures signalToNoiseRatio == None
    {
      final := false;
      endTime := 0.0;
      speechRatio := 0.0;
      highFrequencyLoss := 0.0;
      directCurrentOffset := [];
      clippingRate := [];
      speechLevel := [];
      nonSpeechLevel := [];
      signalToNoiseRatio := None;
    }

    method SetFinal(final: bool) returns (self: AudioMetricsDetails)
      modifies this`final
      ensures this.final == final && self == this
    {
      this.final := final;
      self := this;
    }

    method SetEndTime(endTime: real) returns (self: AudioMetricsDetails)
      modifies this`endTime
      ensures this.endTime == endTime && self == this
    {
      this.endTime := endTime;
      self := this;
    }

    method SetSpeechRatio(speechRatio: real) returns (self: AudioMetricsDetails)
      modifies this`speechRatio
      ensures this.speechRatio == speechRatio && self == this
    {
      this.speechRatio := speechRatio;
      self := this;
    }

    method SetHighFrequencyLoss(highFrequencyLoss: real) returns (self: AudioMetricsDetails)
      modifies this`highFrequencyLoss
      ensures this.highFrequencyLoss == highFrequencyLoss && self == this
    {
      this.highFrequencyLoss := highFrequencyLoss;
      self := this;
    }

    method SetDirectCurrentOffset(directCurrentOffset: seq<AudioMetricsHistogramBin>) returns (self: AudioMetricsDetails)
      modifies this`directCurrentOffset
      ensures this.directCurrentOffset == directCurrentOffset && self == this
    {
      this.directCurrentOffset := directCurrentOffset;
      self := this;
    }

    method SetClippingRate(clippingRate: seq<AudioMetricsHistogramBin>) returns (self: AudioMetricsDetails)
      modifies this`clippingRate
      ensures this.clippingRate == clippingRate && self == this
    {
      this.clippingRate := clippingRate;
      self := this;
    }

    method SetSpeechLevel(speechLevel: seq<AudioMetricsHistogramBin>) returns (self: AudioMetricsDetails)
      modifies this`speechLevel
      ensures this.speechLevel == speechLevel && self == this
    {
      this.speechLevel := speechLevel;
      self := this;
    }

    method SetNonSpeechLevel(nonSpeechLevel: seq<AudioMetricsHistogramBin>) returns (self: AudioMetricsDetails)
      modifies this`nonSpeechLevel
      ensures this.nonSpeechLevel == nonSpeechLevel && self == this
    {
      this.nonSpeechLevel := nonSpeechLevel;
      self := this;
    }

    method SetSignalToNoiseRatio(signalToNoiseRatio: Option<real>) returns (self: AudioMetricsDetails)
      modifies this`signalToNoiseRatio
      ensures this.signalToNoiseRatio == signalToNoiseRatio && self == this
    {
      this.signalToNoiseRatio := signalToNoiseRatio;
      self := this;
    }
  }

  /** Audio metrics: a sampling interval and the accumulated details. */
  class AudioMetrics {
    /** Interval between metric samples, in seconds. */
    var samplingInterval: real
    /** The accumulated details; the typed property has no initialiser. */
    var accumulated: Slot<AudioMetricsDetails>

    /** A fresh object: every field at its declared default; typed properties without one are unset. */
    constructor ()
      ensures samplingInterval == 0.0
      ensures accumulated == Uninitialized
    {
      samplingInterval := 0.0;
      accumulated := Uninitialized;
    }

    method SetSamplingInterval(samplingInterval: real) returns (self: AudioMetrics)
      modifies this`samplingInterval
      ensures this.samplingInterval == samplingInterval && self == this
    {
      this.samplingInterval := samplingInterval;
      self := this;
    }

    method SetAccumulated(accumulated: AudioMetricsDetails) returns (self: AudioMetrics)
      modifies this`accumulated
      ensures this.accumulated == Initialized(accumulated) && self == this
    {
      this.accumulated := Initialized(accumulated);
      self := this;
    }

    /** `getAccumulated`: an error while the property is unset, the stored value once a setter ran. */
    function GetAccumulated(): (r: Result<AudioMetricsDetails>)
      reads this
      ensures r.Ok? <==> accumulated.Initialized?
      ensures accumulated.Initialized? ==> r.value == accumulated.value
      ensures accumulated.Uninitialized? ==> r == Thrown(UninitializedProperty("accumulated"))
    {
      accumulated.Read("accumulated")
    }
  }

  /** One match of a keyword in the audio. */
  class KeywordResult {
    /** The spotted keyword as it appears in the transcript. */
    var normalizedText: string
    /** Start of the match, in seconds. */
    var startTime: real
    /** End of the match, in seconds. */
    var endTime: real
    /** Confidence of the match (documented as 0 to 1). */
    var confidence: real

    /** A fresh object: every field at its declared default. */
    constructor ()
      ensures normalizedText == ""
      ensures startTime == 0.0
      ensures endTime == 0.0
      ensures confidence == 0.0
    {
      normalizedText := "";
      startTime := 0.0;
      endTime := 0.0;
      confidence := 0.0;
    }

    method SetNormalizedText(normalizedText: string) returns (self: KeywordResult)
      modifies this`normalizedText
      ensures this.normalizedText == normalizedText && self == this
    {
      this.normalizedText := normalizedText;
      self := this;
    }

    method SetStartTime(startTime: real) returns (self: KeywordResult)
      modifies this`startTime
      ensures this.startTime == startTime && self == this
    {
      this.startTime := startTime;
      self := this;
    }

    method SetEndTime(endTime: real) returns (self: KeywordResult)
      modifies this`endTime
      ensures this.endTime == endTime && self == this
    {
      this.endTime := endTime;
      self := this;
    }

    method SetConfidence(confidence: real) returns (self: KeywordResult)
      modifies this`confidence
      ensures this.confidence == confidence && self == this
    {
      this.confidence := confidence;
      self := this;
    }
  }

  /** One word hypothesis. */
  class WordAlternativeResult {
    /** Confidence of the hypothesis (documented as 0 to 1). */
    var confidence: real
    /** The hypothesised word. */
    var word: string

    /** A fresh object: every field at its declared default. */
    constructor ()
      ensures confidence == 0.0
      ensures word == ""
    {
      confidence := 0.0;
      word := "";
    }

    method SetConfidence(confidence: real) returns (self: WordAlternativeResult)
      modifies this`confidence
      ensures this.confidence == confidence && self == this
    {
      this.confidence := confidence;
      self := this;
    }

    method SetWord(word: string) returns (self: WordAlternativeResult)
      modifies this`word
      ensures this.word == word && self == this
    {
      this.word := word;
      self := this;
    }
  }

  /** The word hypotheses for one time window. */
  class WordAlternativeResults {
    /** Start of the time window, in seconds. */
    var startTime: real
    /** End of the time window, in seconds. */
    var endTime: real
    /** The word hypotheses for the window. */
    var alternatives: seq<WordAlternativeResult>

    /** A fresh object: every field at its declared default. */
    constructor ()
      ensures startTime == 0.0
      ensures endTime == 0.0
      ensures alternatives == []
    {
      startTime := 0.0;
      endTime := 0.0;
      alternatives := [];
    }

    method SetStartTime(startTime: real) returns (self: WordAlternativeResults)
      modifies this`startTime
      ensures this.startTime == startTime && self == this
    {
      this.startTime := startTime;
      self := this;
    }

    method SetEndTime(endTime: real) returns (self: WordAlternativeResults)
      modifies this`endTime
      ensures this.endTime == endTime && self == this
    {
      this.endTime := endTime;
      self := this;
    }

    method SetAlternatives(alternatives: seq<WordAlternativeResult>) returns (self: WordAlternativeResults)
      modifies this`alternatives
      ensures this.alternatives == alternatives && self == this
    {
      this.alternatives := alternatives;
      self := this;
    }
  }

  /** One alternative transcript of an utterance. */
  class SpeechRecognitionAlternative {
    /** The transcript text. */
    var transcript: string
    /** Confidence of the transcript; not nullable, so a missing value reads as 0.0. */
    var confidence: real
    /** Per-word [word, start, end] lists, kept as an untyped array. */
    var timestamps: Option<PhpArray>
    /** Per-word [word, confidence] lists, kept as an untyped array. */
    var wordConfidence: Option<PhpArray>

    /** A fresh object: every field at its declared default. */
    constructor ()
      ensures transcript == ""
      ensures confidence == 0.0
      ensures timestamps == None
      ensures wordConfidence == None
    {
      transcript := "";
      confidence := 0.0;
      timestamps := None;
      wordConfidence := None;
    }

    method SetTranscript(transcript: string) returns (self: SpeechRecognitionAlternative)
      modifies this`transcript
      ensures this.transcript == transcript && self == this
    {
      this.transcript := transcript;
      self := this;
    }

    method SetConfidence(confidence: real) returns (self: SpeechRecognitionAlternative)
      modifies this`confidence
      ensures this.confidence == confidence && self == this
    {
      this.confidence := confidence;
      self := this;
    }

    method SetTimestamps(timestamps: Option<PhpArray>) returns (self: SpeechRecognitionAlternative)
      modifies this`timestamps
      ensures this.timestamps == timestamps && self == this
    {
      this.timestamps := timestamps;
      self := this;
    }

    method SetWordConfidence(wordConfidence: Option<PhpArray>) returns (self: SpeechRecognitionAlternative)
      modifies this`wordConfidence
      ensures this.wordConfidence == wordConfidence && self == this
    {
      this.wordConfidence := wordConfidence;
      self := this;
    }
  }

  /** A speaker label for one time window. */
  class SpeakerLabelsResult {
    /** Start of the labelled window, in seconds. */
    var from: real
    /** End of the labelled window, in seconds. */
    var to: real
    /** Speaker id; ids need not be sequential or contiguous. */
    var speaker: int
    /** Confidence of the label. */
    var confidence: real
    /** Whether the label is final. */
    var final: bool

    /** A fresh object: every field at its declared default. */
    constructor ()
      ensures from == 0.0
      ensures to == 0.0
      ensures speaker == 0
      ensures confidence == 0.0
      ensures final == false
    {
      from := 0.0;
      to := 0.0;
      speaker := 0;
      confidence := 0.0;
      final := false;
    }

    method SetFrom(from: real) returns (self: SpeakerLabelsResult)
      modifies this`from
      ensures this.from == from && self == this
    {
      this.from := from;
      self := this;
    }

    method SetTo(to: real) returns (self: SpeakerLabelsResult)
      modifies this`to
      ensures this.to == to && self == this
    {
      this.to := to;
      self := this;
    }

    method SetSpeaker(speaker: int) returns (self: SpeakerLabelsResult)
      modifies this`speaker
      ensures this.speaker == speaker && self == this
    {
      this.speaker := speaker;
      self := this;
    }

    method SetConfidence(confidence: real) returns (self: SpeakerLabelsResult)
      modifies this`confidence
      ensures this.confidence == confidence && self == this
    {
      this.confidence := confidence;
      self := this;
    }

    method SetFinal(final: bool) returns (self: SpeakerLabelsResult)
      modifies this`final
      ensures this.final == final && self == this
    {
      this.final := final;
      self := this;
    }
  }

  /** The result for one utterance. */
  class SpeechRecognitionResult {
    /** Whether the results for this utterance are final. */
    var final: bool
    /** The alternative transcripts. */
    var alternatives: seq<SpeechRecognitionAlternative>
    /** Keyword matches by keyword, kept as an untyped array; not nullable, so an omitted dictionary and an empty one are the same. */
    var keywordsResult: PhpArray
    /** Word hypotheses per time window, when requested. */
    var wordAlternatives: Option<seq<WordAlternativeResults>>
    /** Why the transcript was split; any string is stored. */
    var endOfUtterance: Option<string>

    /** A fresh object: every field at its declared default. */
    constructor ()
      ensures final == false
      ensures alternatives == []
      ensures keywordsResult == []
      ensures wordAlternatives == None
      ensures endOfUtterance == None
    {
      final := false;
      alternatives := [];
      keywordsResult := [];
      wordAlternatives := None;
      endOfUtterance := None;
    }

    method SetFinal(final: bool) returns (self: SpeechRecognitionResult)
      modifies this`final
      ensures this.final == final && self == this
    {
      this.final := final;
      self := this;
    }

    method SetAlternatives(alternatives: seq<SpeechRecognitionAlternative>) returns (self: SpeechRecognitionResult)
      modifies this`alternatives
      ensures this.alternatives == alternatives && self == this
    {
      this.alternatives := alternatives;
      self := this;
    }

    method SetKeywordsResult(keywordsResult: PhpArray) returns (self: SpeechRecognitionResult)
      modifies this`keywordsResult
      ensures this.keywordsResult == keywordsResult && self == this
    {
      this.keywordsResult := keywordsResult;
      self := this;
    }

    method SetWordAlternatives(wordAlternatives: Option<seq<WordAlternativeResults>>) returns (self: SpeechRecognitionResult)
      modifies this`wordAlternatives
      ensures this.wordAlternatives == wordAlternatives && self == this
    {
      this.wordAlternatives := wordAlternatives;
      self := this;
    }

    method SetEndOfUtterance(endOfUtterance: Option<string>) returns (self: SpeechRecognitionResult)
      modifies this`endOfUtterance
      ensures this.endOfUtterance == endOfUtterance && self == this
    {
      this.endOfUtterance := endOfUtterance;
      self := this;
    }
  }

  /** The top-level result of a recognition: six independently optional sections. */
  class SpeechRecognitionResults {
    /** Per-utterance results. */
    var results: Option<seq<SpeechRecognitionResult>>
    /** Index of the first result that changed. */
    var resultIndex: Option<int>
    /** Speaker labels. */
    var speakerLabels: Option<seq<SpeakerLabelsResult>>
    /** Processing metrics. */
    var processingMetrics: Option<ProcessingMetrics>
    /** Audio metrics; null when absent. */
    var audioMetrics: AudioMetrics?
    /** Warnings about the request. */
    var warnings: Option<seq<string>>

    /** A fresh object: every field at its declared default. */
    constructor ()
      ensures results == None
      ensures resultIndex == None
      ensures speakerLabels == None
      ensures processingMetrics == None
      ensures audioMetrics == null
      ensures warnings == None
    {
      results := None;
      resultIndex := None;
      speakerLabels := None;
      processingMetrics := None;
      audioMetrics := null;
      warnings := None;
    }

    method SetResults(results: Option<seq<SpeechRecognitionResult>>) returns (self: SpeechRecognitionResults)
      modifies this`results
      ensures this.results == results && self == this
    {
      this.results := results;
      self := this;
    }

    method SetResultIndex(resultIndex: Option<int>) returns (self: SpeechRecognitionResults)
      modifies this`resultIndex
      ensures this.resultIndex == resultIndex && self == this
    {
      this.resultIndex := resultIndex;
      self := this;
    }

    method SetSpeakerLabels(speakerLabels: Option<seq<SpeakerLabelsResult>>) returns (self: SpeechRecognitionResults)
      modifies this`speakerLabels
      ensures this.speakerLabels == speakerLabels && self == this
    {
      this.speakerLabels := speakerLabels;
      self := this;
    }

    method SetProcessingMetrics(processingMetrics: Option<ProcessingMetrics>) returns (self: SpeechRecognitionResults)
      modifies this`processingMetrics
      ensures this.processingMetrics == processingMetrics && self == this
    {
      this.processingMetrics := processingMetrics;
      self := this;
    }

    method SetAudioMetrics(audioMetrics: AudioMetrics?) returns (self: SpeechRecognitionResults)
      modifies this`audioMetrics
      ensures this.audioMetrics == audioMetrics && self == this
    {
      this.audioMetrics := audioMetrics;
      self := this;
    }

    method SetWarnings(warnings: Option<seq<string>>) returns (self: SpeechRecognitionResults)
      modifies this`warnings
      ensures this.warnings == warnings && self == this
    {
      this.warnings := warnings;
      self := this;
    }
  }
}

/**
 * The request-normalisation layer of `OmniASRAdapter`: the model-size table,
 * the broadcast of a language tag over a batch, the conversion of each audio
 * item into what the inference pipeline accepts, and the shape of the value
 * `transcribe` returns. The inference pipeline itself is an external model and
 * appears only as a function value.
 */
module Adapter {
  import opened Results

  /** An `audio` argument, or one item of it, classified as Python's `isinstance` sees it. */
  datatype Audio =
    | Str(text: string)              // a `str`
    | FsPath(text: string)           // a `pathlib.Path`; `text` is its `str()` form
    | Waveform(samples: seq<real>)   // a `numpy.ndarray`
    | List(items: seq<Audio>)        // a `list`
    | Tuple(items: seq<Audio>)       // a `tuple`
    | Other(typeName: string)        // any other object; `typeName` is how its type prints

  /** The `language` argument: one tag, or a list of tags. */
  datatype Language = Tag(tag: string) | Tags(tags: seq<string>)

  /** One entry of `processed_audio`, the list handed to the pipeline. */
  datatype PipelineInput =
    | PathInput(path: string)
    | ArrayInput(waveform: seq<real>, sampleRate: int)

  /** What `transcribe` returns: a bare string for a non-list argument, else the list. */
  datatype Transcription = Single(text: string) | Batch(texts: seq<string>)

  /** The exceptions the adapter raises or lets through. */
  datatype Error =
    | UnknownModelSize(size: string)        // KeyError from the MODEL_CARDS lookup
    | LanguageCountMismatch                 // ValueError
    | SampleRateRequired                    // ValueError
    | UnsupportedAudioType(typeRepr: string) // ValueError
    | EmptyResult                           // IndexError from `transcriptions[0]`
    | PipelineFailed(message: string)       // anything the pipeline raises, unchanged

  /** The external inference call: inputs, one tag per input, and the batch size. */
  type Pipeline = (seq<PipelineInput>, seq<string>, int) -> Result<seq<string>, string>

  /** Construction of the external pipeline from a model card and a device. */
  type PipelineLoader = (string, Option<string>) -> Pipeline

  /** An adapter after construction; none of its fields changes afterwards. */
  datatype OmniASRAdapter = OmniASRAdapter(modelSize: string, modelCard: string, pipeline: Pipeline)

  /** The fixed model-size table. */
  const ModelCards: map<string, string> := map[
    "300M" := "omniASR_W2V_300M",
    "1B" := "omniASR_W2V_1B",
    "3B" := "omniASR_W2V_3B",
    "7B" := "omniASR_LLM_7B"
  ]

  /** The table has exactly the four sizes, and no two sizes share a card. */
  lemma ModelCardsTable()
    ensures ModelCards.Keys == {"300M", "1B", "3B", "7B"}
    ensures forall a, b :: a in ModelCards && b in ModelCards && a != b ==> ModelCards[a] != ModelCards[b]
  {
  }

  /**
   * The constructor: looks the size up in the table (a KeyError for a size
   * outside it) and builds the pipeline from that card and the device.
   */
  function NewAdapter(load: PipelineLoader, modelSize: string := "7B", device: Option<string> := None)
    : (r: Result<OmniASRAdapter, Error>)
    ensures r.Success? <==> modelSize in {"300M", "1B", "3B", "7B"}
    ensures r.Failure? ==> r.error == UnknownModelSize(modelSize)
    ensures modelSize == "7B" ==> r.Success? && r.value.modelCard == "omniASR_LLM_7B"
    ensures r.Success? ==> r.value.modelSize == modelSize && r.value.modelCard == ModelCards[modelSize]
                           && r.value.pipeline == load(ModelCards[modelSize], device)
  {
    if modelSize in ModelCards then
      var card := ModelCards[modelSize];
      Success(OmniASRAdapter(modelSize, card, load(card, device)))
    else
      Failure(UnknownModelSize(modelSize))
  }

  /** `is_single`: anything but a list, a tuple included, is a single item. */
  predicate IsSingle(audio: Audio)
  {
    !audio.List?
  }

  /** `audio_list`: a single item becomes a one-element batch. */
  function AudioList(audio: Audio): seq<Audio>
  {
    if IsSingle(audio) then [audio] else audio.items
  }

  /** `lang_list`: one tag is repeated once per item; a list of tags is kept as it is. */
  function LanguageList(language: Language, count: nat): (r: seq<string>)
    ensures language.Tag? ==> |r| == count && forall i :: 0 <= i < count ==> r[i] == language.tag
    ensures language.Tags? ==> r == language.tags
  {
    match language
    case Tag(t) => seq(count, _ => t)
    case Tags(ts) => ts
  }

  /** The item kinds that become a path string. */
  predicate IsPathLike(item: Audio)
  {
    item.Str? || item.FsPath?
  }

  /** Whether the loop accepts an item, given the call's `sample_rate`. */
  predicate Accepted(item: Audio, sampleRate: Option<int>)
  {
    IsPathLike(item) || (item.Waveform? && sampleRate.Some?)
  }

  /** How `type(aud)` prints in the "Unsupported audio type" message. */
  function TypeRepr(item: Audio): string
  {
    match item
    case Str(_) => "<class 'str'>"
    case FsPath(_) => "<class 'pathlib.PosixPath'>"
    case Waveform(_) => "<class 'numpy.ndarray'>"
    case List(_) => "<class 'list'>"
    case Tuple(_) => "<class 'tuple'>"
    case Other(name) => name
  }

  /** The error the loop raises for an item it does not accept. */
  function Rejection(item: Audio): Error
  {
    if item.Waveform? then SampleRateRequired else UnsupportedAudioType(TypeRepr(item))
  }

  /** One pass of the loop body: the entry appended for an item, or the error raised. */
  function ConvertItem(item: Audio, sampleRate: Option<int>): Result<PipelineInput, Error>
  {
    match item
    case Str(s) => Success(PathInput(s))
    case FsPath(p) => Success(PathInput(p))
    case Waveform(w) =>
      if sampleRate.None? then Failure(SampleRateRequired) else Success(ArrayInput(w, sampleRate.value))
    case _ => Failure(UnsupportedAudioType(TypeRepr(item)))
  }

  /** `k` is the first item the loop rejects. */
  ghost predicate FirstRejected(items: seq<Audio>, sampleRate: Option<int>, k: int)
  {
    0 <= k < |items| && !Accepted(items[k], sampleRate) &&
    forall j :: 0 <= j < k ==> Accepted(items[j], sampleRate)
  }

  /**
   * The loop that builds `processed_audio`, as a specification: it succeeds
   * exactly when every item is accepted, keeps one entry per item in order,
   * and otherwise raises the error of the first rejected item.
   */
  ghost function ConvertAll(items: seq<Audio>, sampleRate: Option<int>): (r: Result<seq<PipelineInput>, Error>)
    ensures r.Success? <==> forall i :: 0 <= i < |items| ==> Accepted(items[i], sampleRate)
    ensures r.Success? ==> |r.value| == |items|
    ensures r.Success? ==> forall i :: 0 <= i < |items| && IsPathLike(items[i]) ==>
                             r.value[i] == PathInput(items[i].text)
    ensures r.Success? ==> forall i :: 0 <= i < |items| && items[i].Waveform? ==>
                             r.value[i] == ArrayInput(items[i].samples, sampleRate.value)
    ensures r.Failure? ==> exists k :: FirstRejected(items, sampleRate, k) && r.error == Rejection(items[k])
  {
    if |items| == 0 then Success([])
    else
      match ConvertItem(items[0], sampleRate)
      case Failure(e) =>
        assert FirstRejected(items, sampleRate, 0);
        Failure(e)
      case Success(p) =>
        match ConvertAll(items[1..], sampleRate)
        case Failure(e) =>
          var k :| FirstRejected(items[1..], sampleRate, k) && e == Rejection(items[1..][k]);
          assert FirstRejected(items, sampleRate, k + 1);
          Failure(e)
        case Success(ps) =>
          assert forall i :: 1 <= i < |items| ==> items[i] == items[1..][i - 1];
          Success([p] + ps)
  }

  /** Lines 101-113: the loop itself, appending to `processed_audio` and raising partway. */
  method ConvertAudio(items: seq<Audio>, sampleRate: Option<int>) returns (r: Result<seq<PipelineInput>, Error>)
    ensures r == ConvertAll(items, sampleRate)
  {
    var processed: seq<PipelineInput> := [];
    for i := 0 to |items|
      invariant |processed| == i
      invariant forall j :: 0 <= j < i ==> Accepted(items[j], sampleRate)
      invariant forall j :: 0 <= j < i ==> ConvertItem(items[j], sampleRate) == Success(processed[j])
    {
      var item := items[i];
      if IsPathLike(item) {
        processed := processed + [PathInput(item.text)];
      } else if item.Waveform? {
        if sampleRate.None? {
          FirstRejectionIsTheError(items, sampleRate, i);
          return Failure(SampleRateRequired);
        }
        processed := processed + [ArrayInput(item.samples, sampleRate.value)];
      } else {
        FirstRejectionIsTheError(items, sampleRate, i);
        return Failure(UnsupportedAudioType(TypeRepr(item)));
      }
    }
    ghost var spec := ConvertAll(items, sampleRate);
    assert spec.Success? && |spec.value| == |processed|;
    assert forall j :: 0 <= j < |items| ==> spec.value[j] == processed[j];
    assert spec.value == processed;
    r := Success(processed);
  }

  /** When item `i` is rejected and all before it are accepted, the loop's error is that item's. */
  lemma FirstRejectionIsTheError(items: seq<Audio>, sampleRate: Option<int>, i: int)
    requires FirstRejected(items, sampleRate, i)
    ensures ConvertAll(items, sampleRate) == Failure(Rejection(items[i]))
  {
  }

  /** Line 122: the first result for a single item, the whole list otherwise. */
  function ShapeResult(single: bool, out: Result<seq<string>, string>): Result<Transcription, Error>
  {
    match out
    case Failure(m) => Failure(PipelineFailed(m))
    case Success(ts) =>
      if !single then Success(Batch(ts))
      else if |ts| == 0 then Failure(EmptyResult)
      else Success(Single(ts[0]))
  }

  /**
   * `OmniASRAdapter.transcribe`. The tag count is checked before any item is
   * inspected; a failed check returns its error whatever the pipeline would
   * have done, so the pipeline is not consulted.
   */
  method Transcribe(adapter: OmniASRAdapter, audio: Audio, language: Language := Tag("eng_Latn"),
                    batchSize: int := 2, sampleRate: Option<int> := None)
    returns (r: Result<Transcription, Error>)
    ensures var items := AudioList(audio);
            |LanguageList(language, |items|)| != |items| ==> r == Failure(LanguageCountMismatch)
    ensures var items := AudioList(audio);
            |LanguageList(language, |items|)| == |items| && ConvertAll(items, sampleRate).Failure? ==>
              r == Failure(ConvertAll(items, sampleRate).error)
    ensures var items := AudioList(audio);
            var langs := LanguageList(language, |items|);
            |langs| == |items| && ConvertAll(items, sampleRate).Success? ==>
              var out := adapter.pipeline(ConvertAll(items, sampleRate).value, langs, batchSize);
              (out.Failure? ==> r == Failure(PipelineFailed(out.error))) &&
              (out.Success? && !IsSingle(audio) ==> r == Success(Batch(out.value))) &&
              (out.Success? && IsSingle(audio) && |out.value| > 0 ==> r == Success(Single(out.value[0]))) &&
              (out.Success? && IsSingle(audio) && |out.value| == 0 ==> r == Failure(EmptyResult))
  {
    var single := IsSingle(audio);
    var audioList := AudioList(audio);
    var langList := LanguageList(language, |audioList|);
    if |langList| != |audioList| {
      return Failure(LanguageCountMismatch);
    }
    var processed := ConvertAudio(audioList, sampleRate);
    if processed.Failure? {
      return Failure(processed.error);
    }
    var transcriptions := adapter.pipeline(processed.value, langList, batchSize);
    r := ShapeResult(single, transcriptions);
  }

  /** A batch made only of paths always passes validation, one path string per item. */
  lemma PathsAlwaysConvert(items: seq<Audio>, sampleRate: Option<int>)
    requires forall i :: 0 <= i < |items| ==> IsPathLike(items[i])
    ensures ConvertAll(items, sampleRate).Success?
    ensures ConvertAll(items, sampleRate).value == seq(|items|, i requires 0 <= i < |items| => PathInput(items[i].text))
  {
  }

  /**
   * A tuple is not a list, so it is one item, and the loop rejects it: a
   * tuple of paths always fails with the tuple's type.
   */
  lemma TupleIsRejected(paths: seq<Audio>, sampleRate: Option<int>)
    ensures IsSingle(Tuple(paths)) && AudioList(Tuple(paths)) == [Tuple(paths)]
    ensures ConvertAll([Tuple(paths)], sampleRate) == Failure(UnsupportedAudioType("<class 'tuple'>"))
  {
  }

  /** The paths of a list of file names, as list items. */
  function PathItems(files: seq<string>): (r: seq<Audio>)
    ensures |r| == |files| && forall i :: 0 <= i < |files| ==> r[i] == Str(files[i])
  {
    seq(|files|, i requires 0 <= i < |files| => Str(files[i]))
  }

  /** `transcribe_file`: one path, one tag, the default batch size and no sample rate. */
  method TranscribeFile(adapter: OmniASRAdapter, filePath: string, language: string := "eng_Latn")
    returns (r: Result<Transcription, Error>)
    ensures var out := adapter.pipeline([PathInput(filePath)], [language], 2);
            r == (if out.Failure? then Failure(PipelineFailed(out.error))
                  else if |out.value| == 0 then Failure(EmptyResult)
                  else Success(Single(out.value[0])))
  {
    PathsAlwaysConvert([Str(filePath)], None);
    assert ConvertAll([Str(filePath)], None).value == [PathInput(filePath)];
    assert LanguageList(Tag(language), 1) == [language];
    r := Transcribe(adapter, Str(filePath), Tag(language));
  }

  /** `transcribe_mixed_languages`: a list of paths with one tag per path. */
  method TranscribeMixedLanguages(adapter: OmniASRAdapter, audioFiles: seq<string>, languages: seq<string>,
                                  batchSize: int := 2)
    returns (r: Result<Transcription, Error>)
    ensures |languages| != |audioFiles| ==> r == Failure(LanguageCountMismatch)
    ensures |languages| == |audioFiles| ==>
              var out := adapter.pipeline(seq(|audioFiles|, i requires 0 <= i < |audioFiles| => PathInput(audioFiles[i])),
                                          languages, batchSize);
              r == (if out.Failure? then Failure(PipelineFailed(out.error)) else Success(Batch(out.value)))
  {
    var items := PathItems(audioFiles);
    PathsAlwaysConvert(items, None);
    assert ConvertAll(items, None).value
        == seq(|audioFiles|, i requires 0 <= i < |audioFiles| => PathInput(audioFiles[i]));
    r := Transcribe(adapter, List(items), Tags(languages), batchSize);
  }
}

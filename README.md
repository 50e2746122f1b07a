# OmniASR headless adapter: request normalisation and text report

This project models the orchestration layer of the `omniasr_headless` package, a thin wrapper
around an external multilingual speech-recognition pipeline. It covers two parts.

- `OmniASRAdapter` (module `Adapter`, `adapter.dfy`). This is the model-size table and the
  constructor's lookup in it. It also covers the normalisation done by `transcribe`:
  - deciding whether the call is single;
  - repeating a single language tag once per item;
  - the tag-count check;
  - the loop that turns each item into a path string or a `{waveform, sample_rate}` record,
    with its two errors.

  Finally it covers the shape of the result (the first transcript or the whole list) and the
  two convenience wrappers `transcribe_file` and `transcribe_mixed_languages`.
- The command-line entry point (module `Cli`, `cli.dfy`). This covers the mapping of the device
  choice, the wrapping of a lone string result into a list, the plain-text report built by the
  `for` loop over `enumerate(zip(files, transcriptions), 1)`, and the exit codes of `main`.

The inference pipeline is an external model, so it appears as a function value (`Adapter.Pipeline`).
It takes the processed inputs, the tag list and the batch size, and returns either a list of
transcripts or an exception message. Its construction from a model card and a device is another
function value (`Adapter.PipelineLoader`). The file-existence test of the command line is a
predicate parameter of `Cli.Run`. "The pipeline is not called" is stated as: the method returns its
error whatever the pipeline value is.

A Python exception is a `Failure` of `Results.Result`. The command line's try block becomes exit
code 1.

Python's `isinstance` tests become the variants of `Adapter.Audio`: `str`, `Path`, `numpy.ndarray`,
`list`, `tuple` and any other object. Only a `list` counts as a batch. A `tuple` of paths, although the
type annotation of `transcribe` admits any `Sequence`, is therefore one item. That item is then
rejected with "Unsupported audio type: <class 'tuple'>" (`Adapter.TupleIsRejected`).

The code does no chunking, resampling or mono downmix. `load_audio`
(src/omniasr_headless/adapter.py:205-213) only reads the file and warns when the rate differs.

The default arguments of the source are kept as Dafny default parameter values: model size
"7B" and no device for `Adapter.NewAdapter`, and language "eng_Latn", batch size 2 and no sample
rate for `Adapter.Transcribe`. `Adapter.TranscribeFile` calls `Transcribe` with only the path and
the tag, as the source does.

## Model

| member | source | states |
|---|---|---|
| Adapter.ModelCardsTable | src/omniasr_headless/adapter.py:23-28 | The model-size table has exactly the sizes 300M, 1B, 3B and 7B, and no two sizes share a model card. |
| Adapter.NewAdapter | src/omniasr_headless/adapter.py:43-50 | Construction succeeds exactly for the four table sizes. Any other size is a KeyError naming it. On success the adapter keeps the size and that size's card (7B gives omniASR_LLM_7B), and holds the pipeline built from that card and the device. |
| Adapter.LanguageList | src/omniasr_headless/adapter.py:92-95 | A single tag becomes a list with one copy of the tag per audio item. A tag list is passed on unchanged. |
| Adapter.ConvertAll | src/omniasr_headless/adapter.py:101-113 | Processing succeeds exactly when every item is a str/Path, or an array with a sample rate given. On success there is one entry per item, in order: the path string for a path and a waveform record carrying the call's sample rate for an array. Otherwise the error is that of the first rejected item: "sample_rate required" for an array, "Unsupported audio type" with the type for anything else. |
| Adapter.ConvertAudio | src/omniasr_headless/adapter.py:101-113 | The appending loop, which returns partway on an error, computes exactly the processing result characterised above. |
| Adapter.FirstRejectionIsTheError | src/omniasr_headless/adapter.py:102-113 | When item i is the first item the loop rejects, the whole loop raises exactly that item's error. |
| Adapter.Transcribe | src/omniasr_headless/adapter.py:88-122 | A tag count different from the item count raises the count error. This wins over any item error, whatever the pipeline would do. Otherwise a rejected item's error is raised, again independent of the pipeline. Otherwise the pipeline gets the processed items and the tag list, and its failure propagates. A list argument, even of length one, returns the whole list. Any other argument returns the first transcript, and an empty result is an IndexError. |
| Adapter.PathsAlwaysConvert | src/omniasr_headless/adapter.py:103-104 | A batch made only of paths always passes processing and gives exactly the list of their path strings. |
| Adapter.TupleIsRejected | src/omniasr_headless/adapter.py:88-113 | A tuple is treated as a single item, and the loop rejects it with the tuple's type. |
| Adapter.TranscribeFile | src/omniasr_headless/adapter.py:124-130 | One path with one tag, batch size 2 and no sample rate. The result is the pipeline's first transcript as a bare string, or the pipeline's error, or an IndexError for an empty result. |
| Adapter.TranscribeMixedLanguages | src/omniasr_headless/adapter.py:132-157 | A tag list of the wrong length raises the count error. Otherwise the pipeline gets the files' path strings with the tags in file order, and its whole list is returned. |
| Cli.DeviceFor | src/omniasr_headless/cli.py:133 | The choice "auto" maps to no device, and every other choice (cuda, cpu) passes through unchanged. |
| Cli.AsTranscripts | src/omniasr_headless/cli.py:145-146 | A lone string result becomes a one-element list, and a list result is kept as it is. |
| Cli.NatToString | src/omniasr_headless/cli.py:158 | The printed header index is a non-empty string of decimal digits with no leading zero. |
| Cli.DecimalRoundTrip | src/omniasr_headless/cli.py:158 | Reading the printed index back as a decimal number gives the index. |
| Cli.FormatText | src/omniasr_headless/cli.py:155-159 | The loop that grows `output` produces exactly the report specification: the paired blocks in order, each headed "\n[i] path\n" when there is more than one file, and each transcript followed by a newline. |
| Cli.OneFileReport | src/omniasr_headless/cli.py:156-159 | With exactly one file there is no header. The report is the transcript followed by a newline, or empty when there is no transcript. |
| Cli.NoFileReport | src/omniasr_headless/cli.py:156-159 | With no files the report is empty. |
| Cli.ReportAgrees | src/omniasr_headless/cli.py:156-159 | The first k blocks depend only on the first k files and the first k transcripts. |
| Cli.ReportStopsAtShorter | src/omniasr_headless/cli.py:156 | Pairing stops at the shorter list: transcripts beyond the file count change nothing. |
| Cli.ReportAppend | src/omniasr_headless/cli.py:156-159 | With two or more files, adding one more file and its transcript appends exactly that file's block, numbered with the next index, to the old report. |
| Cli.ReportInOrder | src/omniasr_headless/cli.py:156-159 | Blocks come out in file order: the report up to block j is a prefix of the report up to any later block, and block j+1 follows it directly. |
| Cli.Run | src/omniasr_headless/cli.py:98-174 | The info options answer with exit code 0. An empty file list gives exit code 1 without building an adapter, and so does a missing file. Otherwise the pipeline gets every file as a path string under the one tag. Its failure gives exit code 1. Its success gives exit code 0 with the JSON record or the text report of the files and the returned transcripts. |

## Left out

- The inference pipeline and its construction (`ASRInferencePipeline`, `pipeline.transcribe`) are an external model. They are function values here, and a failure while building the pipeline is not modelled.
- `load_audio` reads files with soundfile and emits a warning. This is file I/O, not modelled.
- `get_supported_languages` and `model_info` return literal dictionaries. `Cli.Output.LanguageCodes` and `Cli.Output.ModelInformation` stand for what is printed. The static "40 seconds" string is not a limit anywhere.
- Argument parsing, printing to stdout and stderr, writing the output file, `json.dumps` serialisation and the traceback are I/O. `Cli.Run` returns the output value instead, and `print` adds one more newline that is not modelled. The argparse choices appear as the requires of `Cli.Run`.
- `str(Path)` normalises paths (for example it collapses doubled slashes). `Adapter.Audio.FsPath` holds the already-converted string.
- `Adapter.Audio.Waveform` holds a flat sequence of reals. The shape and dtype of a numpy array are not modelled because the adapter passes the array on unchanged.
- A non-str `language` is taken as a sequence of tags (`Adapter.Language.Tags`), so a tuple of tags behaves like a list. An object without `len` (a TypeError at the count check) is outside `Adapter.Language`. So is a sized non-sequence such as a dict or a set, which passes the count check and is handed to the pipeline as it is.
- `Adapter.TranscribeFile` and `Adapter.TranscribeMixedLanguages` take file names as strings. A `pathlib.Path` argument is represented by its `str()` form, which is all that `transcribe` turns it into.
- `Cli.Run` reads the file-existence predicate as fixed for the duration of one call.

/**
 * The command-line front end: the mapping of the device choice, the shaping
 * of the adapter's result into a list, the plain-text report, and the exit
 * codes of the transcription command. Argument parsing, printing and file
 * writing are outside the model; the file-existence test and the pipeline
 * construction arrive as function values.
 */
module Cli {
  import opened Results
  import Adapter

  /** The values argparse admits for `--model` and `--device`. */
  const ModelChoices: seq<string> := ["300M", "1B", "3B", "7B"]
  const DeviceChoices: seq<string> := ["cuda", "cpu", "auto"]

  /** The device handed to the adapter: "auto" leaves the choice to the pipeline. */
  function DeviceFor(choice: string): (r: Option<string>)
    ensures r.None? <==> choice == "auto"
    ensures r.Some? ==> r.value == choice
  {
    if choice == "auto" then None else Some(choice)
  }

  /** Lines 145-146: a lone string becomes a one-element list; a list is kept. */
  function AsTranscripts(t: Adapter.Transcription): (r: seq<string>)
    ensures t.Single? ==> r == [t.text]
    ensures t.Batch? ==> r == t.texts
  {
    match t
    case Single(s) => [s]
    case Batch(ts) => ts
  }

  function Min(a: nat, b: nat): nat
  {
    if a <= b then a else b
  }

  function DigitChar(d: nat): char
    requires d < 10
  {
    "0123456789"[d]
  }

  /** The decimal form of a natural number, as an f-string prints it. */
  function NatToString(n: nat): (s: string)
    ensures |s| > 0
    ensures forall k :: 0 <= k < |s| ==> '0' <= s[k] <= '9'
    ensures s[0] == '0' ==> n == 0
  {
    if n < 10 then [DigitChar(n)] else NatToString(n / 10) + [DigitChar(n % 10)]
  }

  /** The number a string of decimal digits denotes. */
  ghost function DecimalValue(s: string): nat
    requires forall k :: 0 <= k < |s| ==> '0' <= s[k] <= '9'
  {
    if |s| == 0 then 0
    else DecimalValue(s[..|s| - 1]) * 10 + (s[|s| - 1] as int - '0' as int)
  }

  /** Reading the printed index back gives the index. */
  lemma {:induction false} DecimalRoundTrip(n: nat)
    ensures DecimalValue(NatToString(n)) == n
  {
    var s := NatToString(n);
    if n >= 10 {
      DecimalRoundTrip(n / 10);
      assert s[..|s| - 1] == NatToString(n / 10);
    }
  }

  /** Line 158: the header that precedes the `i`-th transcript when several files are given. */
  function Header(i: nat, path: string): string
  {
    "\n[" + NatToString(i) + "] " + path + "\n"
  }

  /** The text the loop adds for the `i`-th pair (counting from 1). */
  function Block(i: nat, path: string, text: string, numbered: bool): string
  {
    (if numbered then Header(i, path) else "") + text + "\n"
  }

  /** The first `k` blocks of the report, in file order. */
  ghost function Report(files: seq<string>, texts: seq<string>, k: nat, numbered: bool): string
    requires k <= |files| && k <= |texts|
  {
    if k == 0 then ""
    else Report(files, texts, k - 1, numbered) + Block(k, files[k - 1], texts[k - 1], numbered)
  }

  /** The plain-text report: files paired with transcripts, numbered when there is more than one file. */
  ghost function TextReport(files: seq<string>, texts: seq<string>): string
  {
    Report(files, texts, Min(|files|, |texts|), |files| > 1)
  }

  /** Lines 155-159: the loop over `enumerate(zip(files, transcriptions), 1)` growing `output`. */
  method FormatText(files: seq<string>, transcriptions: seq<string>) returns (output: string)
    ensures output == TextReport(files, transcriptions)
  {
    output := "";
    for k := 0 to Min(|files|, |transcriptions|)
      invariant output == Report(files, transcriptions, k, |files| > 1)
    {
      var i := k + 1;
      if |files| > 1 {
        output := output + Header(i, files[k]);
      }
      output := output + transcriptions[k] + "\n";
    }
  }

  /** With one file there is no header: the report is the transcript and a newline. */
  lemma OneFileReport(file: string, texts: seq<string>)
    ensures TextReport([file], texts) == if texts == [] then "" else texts[0] + "\n"
  {
    if texts != [] {
      assert Report([file], texts, 1, false) == "" + Block(1, file, texts[0], false);
    }
  }

  /** No files, no report, whatever the transcripts. */
  lemma NoFileReport(texts: seq<string>)
    ensures TextReport([], texts) == ""
  {
  }

  /** The first `k` blocks depend only on the first `k` files and transcripts. */
  lemma {:induction false} ReportAgrees(files: seq<string>, texts: seq<string>, files': seq<string>, texts': seq<string>,
                                        k: nat, numbered: bool)
    requires k <= |files| && k <= |texts| && k <= |files'| && k <= |texts'|
    requires files[..k] == files'[..k] && texts[..k] == texts'[..k]
    ensures Report(files, texts, k, numbered) == Report(files', texts', k, numbered)
  {
    if k > 0 {
      assert files[..k - 1] == files'[..k - 1] && texts[..k - 1] == texts'[..k - 1] by {
        assert files[..k - 1] == files[..k][..k - 1] && files'[..k - 1] == files'[..k][..k - 1];
        assert texts[..k - 1] == texts[..k][..k - 1] && texts'[..k - 1] == texts'[..k][..k - 1];
      }
      assert files[k - 1] == files[..k][k - 1] && files'[k - 1] == files'[..k][k - 1];
      assert texts[k - 1] == texts[..k][k - 1] && texts'[k - 1] == texts'[..k][k - 1];
      ReportAgrees(files, texts, files', texts', k - 1, numbered);
    }
  }

  /** Pairing stops at the shorter list: transcripts with no file add nothing. */
  lemma ReportStopsAtShorter(files: seq<string>, texts: seq<string>)
    ensures TextReport(files, texts) == TextReport(files, texts[..Min(|files|, |texts|)])
  {
    var m := Min(|files|, |texts|);
    assert texts[..m][..m] == texts[..m];
    ReportAgrees(files, texts, files, texts[..m], m, |files| > 1);
  }

  /** One more file with its transcript appends exactly its numbered block to a numbered report. */
  lemma ReportAppend(files: seq<string>, texts: seq<string>, file: string, text: string)
    requires |files| == |texts| && |files| >= 2
    ensures TextReport(files + [file], texts + [text]) == TextReport(files, texts) + Block(|files| + 1, file, text, true)
  {
    var n := |files|;
    var fs, ts := files + [file], texts + [text];
    assert fs[..n] == files[..n] && ts[..n] == texts[..n];
    ReportAgrees(fs, ts, files, texts, n, true);
    assert fs[n] == file && ts[n] == text;
    assert TextReport(fs, ts) == Report(fs, ts, n, true) + Block(n + 1, file, text, true);
  }

  /** Blocks come out in file order: the first `j` blocks are a prefix of the first `k`. */
  lemma {:induction false} ReportInOrder(files: seq<string>, texts: seq<string>, j: nat, k: nat, numbered: bool)
    requires j <= k <= |files| && k <= |texts|
    ensures Report(files, texts, j, numbered) <= Report(files, texts, k, numbered)
    ensures j < k ==> Report(files, texts, j, numbered) + Block(j + 1, files[j], texts[j], numbered)
                      <= Report(files, texts, k, numbered)
  {
    if j < k {
      ReportInOrder(files, texts, j, k - 1, numbered);
      var prefix := Report(files, texts, k - 1, numbered);
      assert Report(files, texts, k, numbered) == prefix + Block(k, files[k - 1], texts[k - 1], numbered);
      if j + 1 == k {
        assert Report(files, texts, k, numbered) == Report(files, texts, j, numbered) + Block(j + 1, files[j], texts[j], numbered);
      }
    }
  }

  /** The parsed command line. */
  datatype CliArgs = CliArgs(
    audioFiles: seq<string>,
    language: string,
    model: string,
    batchSize: int,
    device: string,
    json: bool,
    listLanguages: bool,
    modelInfo: bool)

  /** What the command writes out on success. */
  datatype Output =
    | Text(report: string)
    | Json(files: seq<string>, language: string, transcriptions: seq<string>)
    | LanguageCodes
    | ModelInformation(modelSize: string, modelCard: string)

  /** Every named file exists. */
  predicate AllExist(files: seq<string>, fileExists: string -> bool)
  {
    forall i :: 0 <= i < |files| ==> fileExists(files[i])
  }

  /** The pipeline arguments for a list of file paths under one tag. */
  ghost function FileInputs(files: seq<string>): seq<Adapter.PipelineInput>
  {
    seq(|files|, i requires 0 <= i < |files| => Adapter.PathInput(files[i]))
  }

  /**
   * `main`, from parsed arguments to exit code and output. With no files the
   * answer is 1 whatever the loader does, so no adapter is built.
   */
  method Run(args: CliArgs, fileExists: string -> bool, load: Adapter.PipelineLoader)
    returns (exitCode: int, output: Option<Output>)
    requires args.model in ModelChoices && args.device in DeviceChoices
    ensures args.listLanguages ==> exitCode == 0 && output == Some(LanguageCodes)
    ensures !args.listLanguages && args.modelInfo ==>
              exitCode == 0 && output == Some(ModelInformation(args.model, Adapter.ModelCards[args.model]))
    ensures !args.listLanguages && !args.modelInfo && args.audioFiles == [] ==> exitCode == 1 && output == None
    ensures !args.listLanguages && !args.modelInfo && !AllExist(args.audioFiles, fileExists) ==>
              exitCode == 1 && output == None
    ensures !args.listLanguages && !args.modelInfo && args.audioFiles != [] && AllExist(args.audioFiles, fileExists) ==>
              var files := args.audioFiles;
              var pipeline := load(Adapter.ModelCards[args.model], DeviceFor(args.device));
              var out := pipeline(FileInputs(files), seq(|files|, _ => args.language), args.batchSize);
              (out.Failure? ==> exitCode == 1 && output == None) &&
              (out.Success? ==>
                 (exitCode == 0 &&
                  output == Some(if args.json then Json(files, args.language, out.value)
                                 else Text(TextReport(files, out.value)))))
  {
    if args.listLanguages {
      return 0, Some(LanguageCodes);
    }
    if args.modelInfo {
      var adapter := Adapter.NewAdapter(load, args.model);
      return 0, Some(ModelInformation(adapter.value.modelSize, adapter.value.modelCard));
    }
    if args.audioFiles == [] {
      return 1, None;
    }
    for i := 0 to |args.audioFiles|
      invariant forall j :: 0 <= j < i ==> fileExists(args.audioFiles[j])
    {
      if !fileExists(args.audioFiles[i]) {
        return 1, None;
      }
    }
    var device := DeviceFor(args.device);
    var adapter := Adapter.NewAdapter(load, args.model, device);
    var items := Adapter.PathItems(args.audioFiles);
    var result := Adapter.Transcribe(adapter.value, Adapter.List(items), Adapter.Tag(args.language), args.batchSize, None);
    Adapter.PathsAlwaysConvert(items, None);
    assert Adapter.ConvertAll(items, None).value == FileInputs(args.audioFiles);
    if result.Failure? {
      return 1, None;
    }
    var transcriptions := AsTranscripts(result.value);
    if args.json {
      output := Some(Json(args.audioFiles, args.language, transcriptions));
    } else {
      var report := FormatText(args.audioFiles, transcriptions);
      output := Some(Text(report));
    }
    exitCode := 0;
  }
}

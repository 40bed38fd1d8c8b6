/**
 The upload workflow of the application view: a file selection is sent
 through three backend stages in order (upload, upscale, analyze), and
 only when all three succeed does the analyze response become the new set
 of carousel records. The backend is a parameter: each stage is a function
 from its request payload to how the round trip ended.
 */
module Upload {
  import opened Basics
  import opened Records
  import Carousel

  /** How one backend round trip ended. */
  datatype Outcome<+T> =
    | Ok(payload: T)          // success status; the JSON body as parsed
    | Err(text: string)       // non-success status; the body read as text
    | Thrown(message: string) // the request itself (or reading its body) raised an error

  /** The three stages, in the order they run. */
  datatype Stage = UploadStage | UpscaleStage | AnalyzeStage

  /** One entry of the analyze response. */
  datatype Entry = Entry(originalFilename: string, upscaledFilename: string, analysis: Analysis)

  /**
   The backend as the workflow sees it: upload maps the selected files to
   their stored file names, upscale maps those to the upscaled file names,
   and analyze maps both lists to one entry per pair.
   */
  datatype Backend<-F> = Backend(
    upload: seq<F> -> Outcome<seq<string>>,
    upscale: seq<string> -> Outcome<seq<string>>,
    analyze: (seq<string>, seq<string>) -> Outcome<seq<Entry>>)

  /** The result of one workflow run. */
  datatype Run =
    | Skipped                                 // nothing was selected
    | Failed(stage: Stage, message: string)   // `stage` was the first not to succeed
    | Succeeded(records: seq<ImageRecord>)

  /** The name a stage goes by in the error it raises on a non-success status. */
  function StageLabel(s: Stage): string {
    match s
    case UploadStage => "Upload"
    case UpscaleStage => "Upscale"
    case AnalyzeStage => "Analysis"
  }

  /** The message of the error that ends the run when stage `s` does not succeed. */
  function FailureMessage<T>(s: Stage, o: Outcome<T>): (m: string)
    requires !o.Ok?
    ensures o.Err? ==> m == StageLabel(s) + " failed: " + o.text
    ensures o.Thrown? ==> m == o.message
  {
    if o.Err? then StageLabel(s) + " failed: " + o.text else o.message
  }

  /** The carousel record built from one analyze entry. */
  function RecordOf(backendUrl: string, e: Entry): (r: ImageRecord)
    ensures FilenameOf(backendUrl, r.original) == Some(e.originalFilename)
    ensures FilenameOf(backendUrl, r.upscaled) == Some(e.upscaledFilename)
    ensures r.analysis == e.analysis
  {
    FilenameOfImageUrl(backendUrl, e.originalFilename);
    FilenameOfImageUrl(backendUrl, e.upscaledFilename);
    ImageRecord(ImageUrl(backendUrl, e.originalFilename), ImageUrl(backendUrl, e.upscaledFilename), e.analysis)
  }

  /** The analyze response turned into carousel records, one per entry, in order. */
  function RecordsOf(backendUrl: string, entries: seq<Entry>): (rs: seq<ImageRecord>)
    ensures |rs| == |entries|
    ensures forall i :: 0 <= i < |entries| ==>
              && FilenameOf(backendUrl, rs[i].original) == Some(entries[i].originalFilename)
              && FilenameOf(backendUrl, rs[i].upscaled) == Some(entries[i].upscaledFilename)
              && rs[i].analysis == entries[i].analysis
  {
    if entries == [] then [] else [RecordOf(backendUrl, entries[0])] + RecordsOf(backendUrl, entries[1..])
  }

  /**
   Runs the workflow on a selection. Each stage is consulted only when the
   previous one succeeded; the first that does not succeed ends the run.
   */
  function Pipeline<F>(backendUrl: string, files: seq<F>, b: Backend<F>): (r: Run)
    ensures r.Skipped? <==> |files| == 0
    ensures r.Failed? && r.stage == UploadStage <==> |files| > 0 && !b.upload(files).Ok?
    ensures r.Failed? && r.stage == UploadStage ==> r.message == FailureMessage(UploadStage, b.upload(files))
    ensures r.Failed? && r.stage == UpscaleStage <==>
              |files| > 0 && b.upload(files).Ok? && !b.upscale(b.upload(files).payload).Ok?
    ensures r.Failed? && r.stage == UpscaleStage ==>
              r.message == FailureMessage(UpscaleStage, b.upscale(b.upload(files).payload))
    ensures r.Failed? && r.stage == AnalyzeStage <==>
              && |files| > 0 && b.upload(files).Ok? && b.upscale(b.upload(files).payload).Ok?
              && !b.analyze(b.upload(files).payload, b.upscale(b.upload(files).payload).payload).Ok?
    ensures r.Failed? && r.stage == AnalyzeStage ==>
              r.message == FailureMessage(AnalyzeStage,
                                          b.analyze(b.upload(files).payload, b.upscale(b.upload(files).payload).payload))
    ensures r.Succeeded? ==>
              var entries := b.analyze(b.upload(files).payload, b.upscale(b.upload(files).payload).payload);
              && entries.Ok?
              && |r.records| == |entries.payload|
              && forall i :: 0 <= i < |r.records| ==>
                   && FilenameOf(backendUrl, r.records[i].original) == Some(entries.payload[i].originalFilename)
                   && FilenameOf(backendUrl, r.records[i].upscaled) == Some(entries.payload[i].upscaledFilename)
                   && r.records[i].analysis == entries.payload[i].analysis
  {
    if |files| == 0 then Skipped
    else
      var uploaded := b.upload(files);
      if !uploaded.Ok? then Failed(UploadStage, FailureMessage(UploadStage, uploaded))
      else
        var upscaled := b.upscale(uploaded.payload);
        if !upscaled.Ok? then Failed(UpscaleStage, FailureMessage(UpscaleStage, upscaled))
        else
          var analyzed := b.analyze(uploaded.payload, upscaled.payload);
          if !analyzed.Ok? then Failed(AnalyzeStage, FailureMessage(AnalyzeStage, analyzed))
          else Succeeded(RecordsOf(backendUrl, analyzed.payload))
  }

  /**
   Stages after a failure are not consulted: two backends that answer the
   same up to and including the failing stage give the same run.
   */
  lemma LaterStagesNotConsulted<F>(backendUrl: string, files: seq<F>, b: Backend<F>, b': Backend<F>)
    requires Pipeline(backendUrl, files, b).Failed?
    requires b'.upload == b.upload
    requires Pipeline(backendUrl, files, b).stage != UploadStage ==> b'.upscale == b.upscale
    requires Pipeline(backendUrl, files, b).stage == AnalyzeStage ==> b'.analyze == b.analyze
    ensures Pipeline(backendUrl, files, b') == Pipeline(backendUrl, files, b)
  {
  }

  /** An empty selection consults no stage at all. */
  lemma EmptySelectionConsultsNothing<F>(backendUrl: string, b: Backend<F>, b': Backend<F>)
    ensures Pipeline(backendUrl, [], b) == Pipeline(backendUrl, [], b') == Skipped
  {
  }

  /** The carousel after a run: replaced only on success, untouched otherwise. */
  function Apply(c: Carousel.State, r: Run): (c': Carousel.State)
    ensures !r.Succeeded? ==> c' == c
    ensures r.Succeeded? ==> c'.images == r.records && c'.index == 0 && Carousel.Valid(c')
  {
    if r.Succeeded? then Carousel.Replace(r.records) else c
  }

  /** The user-facing notification a run raises, if any. */
  function Alert(r: Run): (a: Option<string>)
    ensures a.Some? <==> r.Failed?
    ensures r.Failed? ==> a.value == "Error processing images: " + r.message
  {
    if r.Failed? then Some("Error processing images: " + r.message) else None
  }

  /**
   The notification names the first stage that answered with a non-success
   status, followed by the body text it sent; an error raised by the
   request itself is reported with its own message and no stage name.
   A skipped or successful run raises nothing.
   */
  lemma AlertReportsFirstFailure<F>(backendUrl: string, files: seq<F>, b: Backend<F>)
    ensures var up := b.upload(files);
            var a := Alert(Pipeline(backendUrl, files, b));
            && (|files| == 0 ==> a == None)
            && (|files| > 0 && up.Err? ==> a == Some("Error processing images: Upload failed: " + up.text))
            && (|files| > 0 && up.Thrown? ==> a == Some("Error processing images: " + up.message))
    ensures var up := b.upload(files);
            var a := Alert(Pipeline(backendUrl, files, b));
            |files| > 0 && up.Ok? ==>
              var sc := b.upscale(up.payload);
              && (sc.Err? ==> a == Some("Error processing images: Upscale failed: " + sc.text))
              && (sc.Thrown? ==> a == Some("Error processing images: " + sc.message))
              && (sc.Ok? ==>
                    var an := b.analyze(up.payload, sc.payload);
                    && (an.Err? ==> a == Some("Error processing images: Analysis failed: " + an.text))
                    && (an.Thrown? ==> a == Some("Error processing images: " + an.message))
                    && (an.Ok? ==> a == None))
  {
    var up := b.upload(files);
    if |files| > 0 && up.Err? {
      ReportText(UploadStage, up.text);
    } else if |files| > 0 && up.Ok? {
      var sc := b.upscale(up.payload);
      if sc.Err? {
        ReportText(UpscaleStage, sc.text);
      } else if sc.Ok? {
        var an := b.analyze(up.payload, sc.payload);
        if an.Err? {
          ReportText(AnalyzeStage, an.text);
        }
      }
    }
  }

  /** The notification text for a non-success status, written out per stage. */
  lemma ReportText(s: Stage, t: string)
    ensures "Error processing images: " + (StageLabel(s) + " failed: " + t)
            == match s
               case UploadStage => "Error processing images: Upload failed: " + t
               case UpscaleStage => "Error processing images: Upscale failed: " + t
               case AnalyzeStage => "Error processing images: Analysis failed: " + t
  {
    var prefix := "Error processing images: ";
    var name := StageLabel(s);
    assert prefix + (name + " failed: " + t) == (prefix + name + " failed: ") + t;
    match s
    case UploadStage =>
      assert prefix + "Upload" + " failed: " == "Error processing images: Upload failed: ";
    case UpscaleStage =>
      assert prefix + "Upscale" + " failed: " == "Error processing images: Upscale failed: ";
    case AnalyzeStage =>
      assert prefix + "Analysis" + " failed: " == "Error processing images: Analysis failed: ";
  }

  /**
   End to end: on success every record points at the files the analyze
   response named, in order, and the first one is displayed; on an empty
   selection or any failure the carousel is unchanged.
   */
  lemma UploadReplacesOrKeeps<F>(backendUrl: string, files: seq<F>, b: Backend<F>, c: Carousel.State)
    ensures var r := Pipeline(backendUrl, files, b);
            var c' := Apply(c, r);
            && (!r.Succeeded? ==> c' == c)
            && (r.Succeeded? ==>
                  var entries := b.analyze(b.upload(files).payload, b.upscale(b.upload(files).payload).payload).payload;
                  && c'.index == 0
                  && |c'.images| == |entries|
                  && forall i :: 0 <= i < |entries| ==>
                       && c'.images[i].original == ImageUrl(backendUrl, entries[i].originalFilename)
                       && c'.images[i].upscaled == ImageUrl(backendUrl, entries[i].upscaledFilename)
                       && c'.images[i].analysis == entries[i].analysis)
  {
    var r := Pipeline(backendUrl, files, b);
    if r.Succeeded? {
      var entries := b.analyze(b.upload(files).payload, b.upscale(b.upload(files).payload).payload).payload;
      forall i | 0 <= i < |entries|
        ensures r.records[i].original == ImageUrl(backendUrl, entries[i].originalFilename)
        ensures r.records[i].upscaled == ImageUrl(backendUrl, entries[i].upscaledFilename)
      {
        ImageUrlOfFilename(backendUrl, r.records[i].original);
        ImageUrlOfFilename(backendUrl, r.records[i].upscaled);
      }
    }
  }
}

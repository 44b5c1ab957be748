/** The upload endpoint of the web server: the extension check and the
    order of the guards before the report is generated. The uploaded part
    carries the file name and what reading it as a table gives: the table,
    or the text of the exception that reading raised. */
module Server {
  import opened Wrappers
  import opened Data
  import opened Pipeline
  import Strings

  /** `ALLOWED_EXTENSIONS`. */
  const AllowedExtensions: set<string> := {"csv"}

  /** `allowed_file`: the name has a dot, and the text after its last dot,
      lowered, is an allowed extension. */
  function AllowedFile(filename: string): bool {
    '.' in filename && Strings.Lower(Strings.RSplitOnce(filename, '.')[1]) in AllowedExtensions
  }

  /** A name without a dot is refused. */
  lemma NoDotRejected(filename: string)
    requires '.' !in filename
    ensures !AllowedFile(filename)
  {
  }

  /** Only what follows the last dot counts, whatever dots the stem has:
      the name is accepted exactly when that extension lowers to `csv`. */
  lemma LastExtensionDecides(stem: string, ext: string)
    requires '.' !in ext
    ensures AllowedFile(stem + "." + ext) <==> Strings.Lower(ext) == "csv"
  {
    var f := stem + "." + ext;
    Strings.LastIndexOfJoin(stem, '.', ext);
    assert f[|stem|] == '.';
    assert f[|stem| + 1..] == ext;
  }

  /** Every name either has no dot or splits at its last dot into a stem
      and a dot-free extension, so the two lemmas above decide every name. */
  lemma NamesSplitAtLastDot(filename: string)
    requires '.' in filename
    ensures exists i :: (0 <= i < |filename| && filename[i] == '.' &&
      filename == filename[..i] + "." + filename[i + 1..] && '.' !in filename[i + 1..])
  {
    var parts := Strings.RSplitOnce(filename, '.');
    var i := |parts[0]|;
    assert filename[..i] == parts[0] && filename[i] == '.' && filename[i + 1..] == parts[1];
  }

  /** The comparison ignores case: extensions that lower alike are accepted
      alike. */
  lemma ExtensionCaseIgnored(stem: string, ext: string, other: string)
    requires '.' !in ext && '.' !in other
    requires Strings.Lower(ext) == Strings.Lower(other)
    ensures AllowedFile(stem + "." + ext) == AllowedFile(stem + "." + other)
  {
    LastExtensionDecides(stem, ext);
    LastExtensionDecides(stem, other);
  }

  /** `report.CSV` is accepted. */
  lemma UpperCaseAccepted()
    ensures AllowedFile("report.CSV")
  {
    LastExtensionDecides("report", "CSV");
    assert "report" + "." + "CSV" == "report.CSV";
    assert Strings.Lower("CSV") == "csv";
  }

  /** `a.csv.txt` is refused: `csv` before the last dot does not count. */
  lemma EarlierExtensionIgnored()
    ensures !AllowedFile("a.csv.txt")
  {
    LastExtensionDecides("a.csv", "txt");
    assert "a.csv" + "." + "txt" == "a.csv.txt";
    assert Strings.Lower("txt")[0] == 't';
  }

  /** `a.txt.csv` is accepted. */
  lemma FinalExtensionAccepted()
    ensures AllowedFile("a.txt.csv")
  {
    LastExtensionDecides("a.txt", "csv");
    assert "a.txt" + "." + "csv" == "a.txt.csv";
    assert Strings.Lower("csv") == "csv";
  }

  /** `file.` has an empty extension and is refused; `.csv` is accepted. */
  lemma TrailingAndLeadingDot()
    ensures !AllowedFile("file.")
    ensures AllowedFile(".csv")
  {
    LastExtensionDecides("file", "");
    assert "file" + "." + "" == "file.";
    LastExtensionDecides("", "csv");
    assert "" + "." + "csv" == ".csv";
    assert Strings.Lower("csv") == "csv";
  }

  /** The uploaded part under the key `file`. */
  datatype Upload = Upload(filename: string, content: Result<Table, string>)

  /** The JSON body: an error message, or the success record. */
  datatype Body = ErrorBody(error: string) | Generated(success: bool, message: string, pdfPath: string)

  datatype Response = Response(body: Body, status: int)

  const NoFileUploaded: string := "No file uploaded"
  const NoFileSelected: string := "No file selected"
  const InvalidFileType: string := "Invalid file type. Only CSV files are allowed."
  const ErrorPrefix: string := "Error generating report: "

  /** The guard that refuses the request, if any, in the order they run. */
  function Refusal(files: map<string, Upload>): Option<string> {
    if "file" !in files then Some(NoFileUploaded)
    else if files["file"].filename == "" then Some(NoFileSelected)
    else if !AllowedFile(files["file"].filename) then Some(InvalidFileType)
    else None
  }

  /** `upload_file`: the three guards answer 400 with their message; past
      them the report is generated from the uploaded table, and an exception
      on the way turns into a 500 with its text. */
  function UploadFile(files: map<string, Upload>, env: Env): Response {
    match Refusal(files)
    case Some(message) => Response(ErrorBody(message), 400)
    case None =>
      match files["file"].content
      case Failure(reason) => Response(ErrorBody(ErrorPrefix + reason), 500)
      case Success(t) =>
        match ReportPipeline(t, env)
        case Failure(e) => Response(ErrorBody(ErrorPrefix + ErrorText(e)), 500)
        case Success(o) => Response(Generated(true, "Report generated successfully!", o.pdfPath), 200)
  }

  /** The request is refused with 400 exactly when the part is missing, its
      name is empty, or the name has no allowed extension. */
  lemma BadRequestIffGuardFails(files: map<string, Upload>, env: Env)
    ensures UploadFile(files, env).status == 400 <==>
      ("file" !in files || files["file"].filename == "" || !AllowedFile(files["file"].filename))
  {
  }

  /** The guards run in order: a missing part is reported before anything
      else, and an empty name before its (also failing) extension. */
  lemma GuardsInOrder(files: map<string, Upload>, env: Env)
    ensures "file" !in files ==> UploadFile(files, env).body == ErrorBody(NoFileUploaded)
    ensures "file" in files && files["file"].filename == "" ==>
      !AllowedFile(files["file"].filename) && UploadFile(files, env).body == ErrorBody(NoFileSelected)
  {
  }

  /** A refused request does not depend on the uploaded content or on the
      environment: the report is not generated. */
  lemma RefusalIgnoresContent(files: map<string, Upload>, env: Env, other: Env, content: Result<Table, string>)
    requires Refusal(files).Some?
    ensures var changed := if "file" in files then files["file" := files["file"].(content := content)] else files;
      UploadFile(files, env) == UploadFile(changed, other) == Response(ErrorBody(Refusal(files).value), 400)
  {
  }

  /** Past the guards, a readable table with the four numeric columns, whose
      run time and insight encode in Latin-1, gives 200 and the path
      `output/Insight_Report.pdf`. */
  lemma AcceptedUpload(files: map<string, Upload>, env: Env, t: Table)
    requires Refusal(files).None? && files["file"].content == Success(t)
    requires FirstMissing(t.columns).None?
    requires Strings.Latin1(env.generated) && Strings.Latin1(InsightOfRun(t, env).text)
    ensures UploadFile(files, env) ==
      Response(Generated(true, "Report generated successfully!", OutputDir + "/" + Report.ReportFileName), 200)
  {
    PipelineSucceedsIff(t, env);
    PipelineWritesReport(t, env);
  }

  /** Past the guards, a table with the four numeric columns whose run time
      or insight does not encode in Latin-1 gives 500 with the PDF library's
      message. */
  lemma UnencodableUpload(files: map<string, Upload>, env: Env, t: Table)
    requires Refusal(files).None? && files["file"].content == Success(t)
    requires FirstMissing(t.columns).None?
    requires !(Strings.Latin1(env.generated) && Strings.Latin1(InsightOfRun(t, env).text))
    ensures UploadFile(files, env) == Response(ErrorBody(ErrorPrefix + env.encodingMessage), 500)
  {
    PipelineSucceedsIff(t, env);
    ColumnsPresentFailure(t, env);
  }

  /** A successful run names the report file under the output directory. */
  lemma PipelineWritesReport(t: Table, env: Env)
    requires ReportPipeline(t, env).Success?
    ensures ReportPipeline(t, env).value.pdfPath == OutputDir + "/" + Report.ReportFileName
  {
    PipelineDocument(t, env, ReportPipeline(t, env).value);
  }

  /** Past the guards, a table without one of the numeric columns gives 500
      with the column name in quotes. */
  lemma MissingColumnUpload(files: map<string, Upload>, env: Env, t: Table)
    requires Refusal(files).None? && files["file"].content == Success(t)
    requires FirstMissing(t.columns).Some?
    ensures UploadFile(files, env) ==
      Response(ErrorBody(ErrorPrefix + ErrorText(KeyError(FirstMissing(t.columns).value))), 500)
  {
  }

  /** An unreadable upload gives 500 with the text of the error. */
  lemma UnreadableUpload(files: map<string, Upload>, env: Env, reason: string)
    requires Refusal(files).None? && files["file"].content == Failure(reason)
    ensures UploadFile(files, env) == Response(ErrorBody(ErrorPrefix + reason), 500)
  {
  }
}

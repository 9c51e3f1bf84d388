/**
 The content-indexing panel: a selected file, a URL field, a free-text field,
 an "indexing" busy flag and the client-side list of indexed sources (newest
 first). Each asynchronous handler is split in two: a `Begin…` step that runs
 the guard and the optimistic update and decides the request, and a
 `Complete…` step that receives the request's outcome. The request carries the
 values the handler's closure captured when it began.
 */
module Indexing {
  import opened Outcomes
  import Text

  /** A file chosen in the browser; only its name is used by the handlers. */
  datatype File = File(name: string, size: nat)

  /** The `type` of a source record: "file", "link" or "text". */
  datatype SourceKind = FileSource | LinkSource | TextSource

  /** One entry of the "Indexed Sources" list; `caption` is the label shown
      for it. `when` is the completion
      timestamp, an opaque input here. */
  datatype SourceRecord = SourceRecord(kind: SourceKind, caption: string, when: string)

  datatype ToastKind = OkToast | WarnToast | ErrToast

  /** A transient notification, reduced to what it says. */
  datatype Toast = Toast(kind: ToastKind, message: string)

  datatype Panel = Panel(
    file: Option<File>,
    link: string,
    text: string,
    indexing: bool,
    sources: seq<SourceRecord>)

  /** A request in flight, with the state its handler captured when it began. */
  datatype Request =
    | Upload(file: File)
    | UrlOrText(link: string, text: string)

  /** The single `input` field posted for a URL-or-text request: the link
      when there is one, else the text. */
  function Payload(link: string, text: string): (r: string)
    ensures link != "" ==> r == link
    ensures link == "" ==> r == text
    ensures r == "" <==> link == "" && text == ""
  {
    if link != "" then link else text
  }

  /** What one handler step produced: the new panel, the request it sent (if
      any) and the toast it raised (if any). */
  datatype Step = Step(panel: Panel, request: Option<Request>, toast: Option<Toast>)

  const NoFileSelected := "No file selected"
  const FileIndexed := "File indexed successfully"
  const UploadFailed := "Upload failed"
  const NothingToIndex := "Enter a URL or paste some text"
  const ContentIndexed := "Content indexed successfully"
  const IndexingFailed := "Indexing failed"
  const OnlyPdfOrCsv := "Only .pdf or .csv files are allowed"

  /** Text labels keep this many characters before the ellipsis. */
  const LabelLimit := 28
  const Ellipsis := "..."

  function Initial(): Panel {
    Panel(None, "", "", false, [])
  }

  /** The drop zone's file-name test `/(\.pdf|\.csv)$/i`. */
  predicate IsAllowedFileName(name: string) {
    Text.EndsWithIgnoreCase(name, ".pdf") || Text.EndsWithIgnoreCase(name, ".csv")
  }

  /** The file-name test spelled out: the name ends in a dot followed by
      `pdf` or `csv`, each letter in either case. */
  lemma AllowedFileNameSpelledOut(name: string)
    ensures IsAllowedFileName(name) <==>
      && |name| >= 4
      && name[|name| - 4] == '.'
      && var a, b, c := name[|name| - 3], name[|name| - 2], name[|name| - 1];
         || ((a == 'p' || a == 'P') && (b == 'd' || b == 'D') && (c == 'f' || c == 'F'))
         || ((a == 'c' || a == 'C') && (b == 's' || b == 'S') && (c == 'v' || c == 'V'))
  {
    if |name| >= 4 {
      var n := |name|;
      var a, b, c := name[n - 3], name[n - 2], name[n - 1];
      EndsWithFour(name, ".pdf");
      EndsWithFour(name, ".csv");
      assert Text.LowerAscii(name[n - 4]) == '.' <==> name[n - 4] == '.';
      assert Text.LowerAscii(a) == 'p' <==> a == 'p' || a == 'P';
      assert Text.LowerAscii(b) == 'd' <==> b == 'd' || b == 'D';
      assert Text.LowerAscii(c) == 'f' <==> c == 'f' || c == 'F';
      assert Text.LowerAscii(a) == 'c' <==> a == 'c' || a == 'C';
      assert Text.LowerAscii(b) == 's' <==> b == 's' || b == 'S';
      assert Text.LowerAscii(c) == 'v' <==> c == 'v' || c == 'V';
    }
  }

  /** A four-character case-insensitive suffix test, position by position. */
  lemma EndsWithFour(name: string, suffix: string)
    requires |suffix| == 4 && |name| >= 4
    ensures var n := |name|;
      Text.EndsWithIgnoreCase(name, suffix) <==>
        && Text.LowerAscii(name[n - 4]) == Text.LowerAscii(suffix[0])
        && Text.LowerAscii(name[n - 3]) == Text.LowerAscii(suffix[1])
        && Text.LowerAscii(name[n - 2]) == Text.LowerAscii(suffix[2])
        && Text.LowerAscii(name[n - 1]) == Text.LowerAscii(suffix[3])
  {
  }

  /** Dropping files on the drop zone: only the first file counts; a drop with
      no file does nothing, a file whose name fails the test is refused with a
      warning, any other file becomes the selection. */
  function Drop(p: Panel, dropped: Option<File>): (r: Step)
    ensures r.request.None?
    ensures dropped.None? ==> r.panel == p && r.toast.None?
    ensures dropped.Some? && IsAllowedFileName(dropped.value.name) ==>
      r.panel == p.(file := dropped) && r.toast.None?
    ensures dropped.Some? && !IsAllowedFileName(dropped.value.name) ==>
      r.panel == p && r.toast == Some(Toast(WarnToast, OnlyPdfOrCsv))
    ensures r.panel.file == p.file || r.panel.file == dropped
  {
    match dropped
    case None => Step(p, None, None)
    case Some(f) =>
      if IsAllowedFileName(f.name) then Step(p.(file := dropped), None, None)
      else Step(p, None, Some(Toast(WarnToast, OnlyPdfOrCsv)))
  }

  /** The hidden file input's change handler: whatever the picker returns
      (its first file, or nothing) becomes the selection, with no name test. */
  function Pick(p: Panel, chosen: Option<File>): (r: Panel)
    ensures r.file == chosen
    ensures r.link == p.link && r.text == p.text
    ensures r.indexing == p.indexing && r.sources == p.sources
  {
    p.(file := chosen)
  }

  function EditLink(p: Panel, link: string): (r: Panel)
    ensures r.link == link && r == p.(link := r.link)
  {
    p.(link := link)
  }

  function EditText(p: Panel, text: string): (r: Panel)
    ensures r.text == text && r == p.(text := r.text)
  {
    p.(text := text)
  }

  /** The upload button is enabled with a file selected and nothing indexing. */
  predicate UploadEnabled(p: Panel) {
    p.file.Some? && !p.indexing
  }

  /** The "Add Content" button is enabled when nothing is indexing and a URL
      or some text has been entered. */
  predicate AddEnabled(p: Panel) {
    !p.indexing && (p.link != "" || p.text != "")
  }

  /** First half of the upload handler. */
  function BeginUpload(p: Panel): (r: Step)
    ensures p.file.None? <==> r.request.None?
    ensures p.file.None? ==> r.panel == p && r.toast == Some(Toast(WarnToast, NoFileSelected))
    ensures p.file.Some? ==>
      && r.request == Some(Upload(p.file.value))
      && r.panel == p.(indexing := true)
      && r.toast.None?
  {
    match p.file
    case None => Step(p, None, Some(Toast(WarnToast, NoFileSelected)))
    case Some(f) => Step(p.(indexing := true), Some(Upload(f)), None)
  }

  /** Second half of the upload handler, for the file captured when it began. */
  function CompleteUpload(p: Panel, f: File, outcome: Outcome, when: string): (r: Step)
    ensures r.request.None? && !r.panel.indexing
    ensures r.panel.link == p.link && r.panel.text == p.text
    ensures outcome.Ok? ==>
      && r.panel.sources == [SourceRecord(FileSource, f.name, when)] + p.sources
      && r.panel.file.None?
      && r.toast == Some(Toast(OkToast, FileIndexed))
    ensures outcome.Err? ==>
      && r.panel == p.(indexing := false)
      && r.toast == Some(Toast(ErrToast, OrElse(outcome.error, UploadFailed)))
      && r.toast.value.message != ""
  {
    match outcome
    case Ok(_) =>
      var rec := SourceRecord(FileSource, f.name, when);
      Step(p.(sources := [rec] + p.sources, file := None, indexing := false), None,
           Some(Toast(OkToast, FileIndexed)))
    case Err(e) =>
      Step(p.(indexing := false), None, Some(Toast(ErrToast, OrElse(e, UploadFailed))))
  }

  /** The label of a text source: the text itself when short, otherwise its
      first 28 characters followed by an ellipsis. */
  function TextLabel(text: string): (r: string)
    ensures |r| <= LabelLimit + |Ellipsis|
    ensures |text| <= LabelLimit ==> r == text
    ensures |text| > LabelLimit ==>
      |r| == LabelLimit + |Ellipsis| && r[LabelLimit..] == Ellipsis
    ensures var keep := if |text| < LabelLimit then |text| else LabelLimit;
      keep <= |r| && r[..keep] == text[..keep]
  {
    if |text| > LabelLimit then text[..LabelLimit] + Ellipsis else text
  }

  /** A label is already its own label: shortening is idempotent. */
  lemma TextLabelIdempotent(text: string)
    ensures TextLabel(TextLabel(text)) == TextLabel(text)
  {
  }

  /** The record a successful URL-or-text request adds: a link source labelled
      with the URL when there is one, else a text source with a shortened label. */
  function UrlOrTextRecord(link: string, text: string, when: string): (r: SourceRecord)
    ensures r.when == when
    ensures r.kind == LinkSource <==> link != ""
    ensures r.kind == TextSource <==> link == ""
    ensures link != "" ==> r.caption == link
    ensures link == "" ==> r.caption == TextLabel(text)
  {
    if link != "" then SourceRecord(LinkSource, link, when)
    else SourceRecord(TextSource, TextLabel(text), when)
  }

  /** First half of the URL-or-text handler. */
  function BeginUrlOrText(p: Panel): (r: Step)
    ensures (p.link == "" && p.text == "") <==> r.request.None?
    ensures p.link == "" && p.text == "" ==>
      r.panel == p && r.toast == Some(Toast(WarnToast, NothingToIndex))
    ensures p.link != "" || p.text != "" ==>
      && r.request == Some(UrlOrText(p.link, p.text))
      && Payload(p.link, p.text) != ""
      && r.panel == p.(indexing := true)
      && r.toast.None?
  {
    if p.link == "" && p.text == "" then
      Step(p, None, Some(Toast(WarnToast, NothingToIndex)))
    else
      Step(p.(indexing := true), Some(UrlOrText(p.link, p.text)), None)
  }

  /** Second half of the URL-or-text handler, for the link and text captured
      when it began. */
  function CompleteUrlOrText(p: Panel, link: string, text: string, outcome: Outcome, when: string): (r: Step)
    ensures r.request.None? && !r.panel.indexing
    ensures r.panel.file == p.file
    ensures outcome.Ok? ==>
      && r.panel.sources == [UrlOrTextRecord(link, text, when)] + p.sources
      && r.panel.link == "" && r.panel.text == ""
      && r.toast == Some(Toast(OkToast, ContentIndexed))
    ensures outcome.Err? ==>
      && r.panel == p.(indexing := false)
      && r.toast == Some(Toast(ErrToast, OrElse(outcome.error, IndexingFailed)))
      && r.toast.value.message != ""
  {
    match outcome
    case Ok(_) =>
      var rec := UrlOrTextRecord(link, text, when);
      Step(p.(sources := [rec] + p.sources, link := "", text := "", indexing := false), None,
           Some(Toast(OkToast, ContentIndexed)))
    case Err(e) =>
      Step(p.(indexing := false), None, Some(Toast(ErrToast, OrElse(e, IndexingFailed))))
  }

  /** Completes whichever request is in flight. */
  function Complete(p: Panel, req: Request, outcome: Outcome, when: string): (r: Step)
    ensures r.request.None? && !r.panel.indexing
    ensures outcome.Ok? ==> |r.panel.sources| == |p.sources| + 1 && r.panel.sources[1..] == p.sources
    ensures outcome.Err? ==> r.panel == p.(indexing := false)
  {
    match req
    case Upload(f) => CompleteUpload(p, f, outcome, when)
    case UrlOrText(l, t) => CompleteUrlOrText(p, l, t, outcome, when)
  }

  /** A whole successful upload with nothing in between: one file record in
      front of the old list, the selection cleared, the busy flag back down. */
  lemma UploadSucceeds(p: Panel, response: Option<string>, when: string)
    requires p.file.Some?
    ensures var b := BeginUpload(p);
      && b.request.Some?
      && var c := Complete(b.panel, b.request.value, Ok(response), when);
      && c.panel == p.(sources := [SourceRecord(FileSource, p.file.value.name, when)] + p.sources,
                       file := None, indexing := false)
  {
  }

  /** A failed request, of either kind, leaves the panel exactly as it was
      before the handler began. */
  lemma FailureRestoresPanel(p: Panel, error: Option<string>, when: string)
    requires !p.indexing
    ensures var b := BeginUpload(p);
      b.request.Some? ==> Complete(b.panel, b.request.value, Err(error), when).panel == p
    ensures var b := BeginUrlOrText(p);
      b.request.Some? ==> Complete(b.panel, b.request.value, Err(error), when).panel == p
  {
  }

  /** A whole successful URL-or-text submission with nothing in between. */
  lemma UrlOrTextSucceeds(p: Panel, response: Option<string>, when: string)
    requires p.link != "" || p.text != ""
    ensures var b := BeginUrlOrText(p);
      && b.request.Some?
      && var c := Complete(b.panel, b.request.value, Ok(response), when);
      && c.panel == p.(sources := [UrlOrTextRecord(p.link, p.text, when)] + p.sources,
                       link := "", text := "", indexing := false)
  {
  }

  /** The upload's success clears the selection unconditionally: a file
      dropped while the upload was in flight is discarded, and the new record
      names the file that was actually sent. */
  lemma DropDuringUploadIsDiscarded(p: Panel, g: File, response: Option<string>, when: string)
    requires p.file.Some? && IsAllowedFileName(g.name)
    ensures var b := BeginUpload(p);
      && b.request.Some?
      && var d := Drop(b.panel, Some(g));
      && d.panel.file == Some(g)
      && var c := Complete(d.panel, b.request.value, Ok(response), when);
      && c.panel.file.None?
      && c.panel.sources[0].caption == p.file.value.name
  {
  }

  /** Likewise a URL-or-text success clears both fields, including anything
      typed while the request was in flight, and labels the record from what
      was captured when the handler began. */
  lemma EditDuringSubmitIsDiscarded(p: Panel, newText: string, response: Option<string>, when: string)
    requires p.link == "" && p.text != ""
    ensures var b := BeginUrlOrText(p);
      && b.request.Some?
      && var e := EditText(b.panel, newText);
      && var c := Complete(e, b.request.value, Ok(response), when);
      && c.panel.text == ""
      && c.panel.sources[0] == SourceRecord(TextSource, TextLabel(p.text), when)
  {
  }
}

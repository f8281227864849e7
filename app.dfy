/**
 * The browser side: which title an output shows, how the generate button validates its input and
 * updates the page state around the call to the generator, and how the download button picks
 * between a PNG of the asset and a PDF of the site mock-up.
 */
module App {
  import opened Wrappers
  import opened JsText
  import opened Json
  import Catalog

  /** A design as the generator returns it: a JSON object. */
  type Output = map<string, Json>

  /** `output.designType === 'website'`. */
  predicate IsWebsiteData(output: Output)
  {
    "designType" in output && output["designType"] == Str("website")
  }

  const WebsiteTitle := "Предпросмотр Сайта"
  const CardTitlePrefix := "Визитка: "
  const DefaultTitle := "Сгенерированный Дизайн"

  /** The catalog title of the output's `designType`, when it names a catalog entry. */
  function CatalogTitle(output: Output): Option<string>
  {
    if "designType" in output && output["designType"].Str? && Catalog.Find(output["designType"].s).Some? then
      Some(Catalog.Find(output["designType"].s).value.title)
    else None
  }

  /** `getAssetTitle(output)`: the first of the site title, title, card name, headline, catalog title. */
  function AssetTitle(output: Output): (r: string)
    ensures |r| > 0
  {
    var o := Obj(output);
    if IsWebsiteData(output) then WebsiteTitle
    else if NonEmptyString(o, "title").Some? then NonEmptyString(o, "title").value
    else if NonEmptyString(o, "name").Some? then CardTitlePrefix + NonEmptyString(o, "name").value
    else if NonEmptyString(o, "headline").Some? then NonEmptyString(o, "headline").value
    else if CatalogTitle(output).Some? && CatalogTitle(output).value != "" then CatalogTitle(output).value
    else DefaultTitle
  }

  /**
   * The title falls back, in order, past each missing or empty field: a site shows the fixed site
   * title; then a non-empty `title`, a non-empty `name` behind the card prefix, a non-empty
   * `headline`; then the catalog title of a known `designType`; then the fixed default.
   */
  lemma TitlePriority(output: Output)
    ensures var o := Obj(output);
      && (IsWebsiteData(output) ==> AssetTitle(output) == WebsiteTitle)
      && (!IsWebsiteData(output) && NonEmptyString(o, "title").Some? ==>
            AssetTitle(output) == output["title"].s)
      && (!IsWebsiteData(output) && NonEmptyString(o, "title").None? && NonEmptyString(o, "name").Some? ==>
            AssetTitle(output) == CardTitlePrefix + output["name"].s)
      && (!IsWebsiteData(output) && NonEmptyString(o, "title").None? && NonEmptyString(o, "name").None?
          && NonEmptyString(o, "headline").Some? ==>
            AssetTitle(output) == output["headline"].s)
  {
  }

  /** Without any of the text fields, a known design type is titled by its catalog entry, any other by the default. */
  lemma CatalogFallback(output: Output)
    requires !IsWebsiteData(output)
    requires var o := Obj(output);
      NonEmptyString(o, "title").None? && NonEmptyString(o, "name").None? && NonEmptyString(o, "headline").None?
    ensures "designType" in output && output["designType"].Str? && output["designType"].s in Catalog.KnownIds() ==>
              && AssetTitle(output) in (set d | d in Catalog.DesignTypes :: d.title)
              && AssetTitle(output) == Catalog.Find(output["designType"].s).value.title
    ensures !("designType" in output && output["designType"].Str? && output["designType"].s in Catalog.KnownIds()) ==>
              AssetTitle(output) == DefaultTitle
  {
    if "designType" in output && output["designType"].Str? {
      Catalog.FindKnown(output["designType"].s);
    }
  }

  /** The PNG download name: the title with each whitespace character replaced by `_`, then `.png`. */
  function PngFileName(title: string): string
  {
    ReplaceWhitespace(title, '_') + ".png"
  }

  /**
   * The PNG name ends in `.png`, keeps every non-whitespace character of the title in place and
   * has no whitespace before the extension.
   */
  lemma PngFileNameShape(title: string)
    ensures var f := PngFileName(title);
      && |f| == |title| + 4 && EndsWith(f, ".png")
      && (forall i :: 0 <= i < |title| ==> !IsWhitespace(f[i]))
      && (forall i :: 0 <= i < |title| && !IsWhitespace(title[i]) ==> f[i] == title[i])
  {
    var f := PngFileName(title);
    assert f[|f| - 4..] == ".png";
  }

  /** A title with no whitespace is kept as it is. */
  lemma PngFileNameKeepsPlainTitle(title: string)
    requires forall i :: 0 <= i < |title| ==> !IsWhitespace(title[i])
    ensures PngFileName(title) == title + ".png"
  {
    assert ReplaceWhitespace(title, '_') == title;
  }

  datatype Orientation = Landscape | Portrait

  /** The PDF page orientation for a rendered canvas. */
  function PdfOrientation(width: nat, height: nat): Orientation
  {
    if width > height then Landscape else Portrait
  }

  /** Landscape exactly for a wider-than-tall canvas; a square canvas is portrait; turning a non-square canvas flips it. */
  lemma OrientationRule(width: nat, height: nat)
    ensures PdfOrientation(width, height) == Landscape <==> width > height
    ensures width == height ==> PdfOrientation(width, height) == Portrait
    ensures width != height ==> PdfOrientation(width, height) != PdfOrientation(height, width)
  {
  }

  const ChooseTypeMessage := "Пожалуйста, выберите тип дизайна."
  const EnterPromptMessage := "Пожалуйста, введите промпт или загрузите изображение."
  const UnexpectedErrorMessage := "An unexpected error occurred."
  const ViewerMissingMessage := "Ошибка: Не удалось найти элемент для скачивания."
  const PngFailedMessage := "Произошла ошибка при создании PNG файла."
  const PdfLibrariesMessage := "Ошибка: Не удалось загрузить библиотеки для создания PDF."
  const PdfFailedMessage := "Произошла ошибка при создании PDF файла."
  const PdfFileName := "hrash-designer-website.pdf"
  const AssetBackground := "#111827"

  /** The uploaded reference image. */
  datatype ReferenceImage = ReferenceImage(b64: string, mimeType: string, previewUrl: string)

  /** The image part the generator is sent: bytes and type, without the preview URL. */
  datatype ImagePart = ImagePart(b64: string, mimeType: string)

  /** One call of the generator. */
  datatype GenerateCall = GenerateCall(designTypeId: string, prompt: string, image: Option<ImagePart>)

  /** A value the generator throws: an `Error` with its message, or anything else. */
  datatype Thrown = ErrorObject(message: string) | NonError

  /** How the generator's promise settles. */
  datatype GenerateResult = Generated(output: Output) | Failed(thrown: Thrown)

  /** The generate button's input check: the message it shows, or None when the generator is called. */
  function GenerateCheck(selectedDesignType: Option<string>, prompt: string, referenceImage: Option<ReferenceImage>)
    : Option<string>
  {
    if selectedDesignType.None? || selectedDesignType.value == "" then Some(ChooseTypeMessage)
    else if Trim(prompt) == "" && referenceImage.None? then Some(EnterPromptMessage)
    else None
  }

  /**
   * The generator is called exactly when a design type is selected and there is a prompt with a
   * non-whitespace character or a reference image; a missing type is reported before a missing prompt.
   */
  lemma GenerateCheckIff(selectedDesignType: Option<string>, prompt: string, referenceImage: Option<ReferenceImage>)
    ensures GenerateCheck(selectedDesignType, prompt, referenceImage).None? <==>
              && selectedDesignType.Some? && selectedDesignType.value != ""
              && (!AllWhitespace(prompt) || referenceImage.Some?)
    ensures (selectedDesignType.None? || selectedDesignType.value == "") ==>
              GenerateCheck(selectedDesignType, prompt, referenceImage) == Some(ChooseTypeMessage)
    ensures selectedDesignType.Some? && selectedDesignType.value != "" && AllWhitespace(prompt) && referenceImage.None? ==>
              GenerateCheck(selectedDesignType, prompt, referenceImage) == Some(EnterPromptMessage)
  {
    TrimEmptyIff(prompt);
  }

  /** `err instanceof Error ? err.message : 'An unexpected error occurred.'`. */
  function FailureMessage(thrown: Thrown): string
  {
    match thrown
    case ErrorObject(m) => m
    case NonError => UnexpectedErrorMessage
  }

  /** The element a canvas is rendered from. */
  datatype Element = AssetViewer | Prototype

  /** A rendered canvas. */
  datatype Canvas = Canvas(width: nat, height: nat)

  /**
   * The browser around a download: whether each element is mounted, whether the PDF libraries
   * are loaded, and what rendering an element with a background colour gives (None when
   * rendering or saving throws).
   */
  datatype Browser = Browser(
    viewerMounted: bool, prototypeMounted: bool, pdfLibrariesLoaded: bool,
    render: (Element, Option<Json>) -> Option<Canvas>)

  /** What a download did. */
  datatype Download =
    | NothingToDownload
    | Alerted(message: string)
    | SavedPng(fileName: string)
    | SavedPdf(fileName: string, orientation: Orientation, width: nat, height: nat)
    | DownloadFailed

  /**
   * The background colour handed to the PDF rendering: the site theme's `backgroundColor`
   * (reading it throws when `theme` is missing or null), or the fixed asset background.
   */
  function PdfBackground(output: Output): Option<Option<Json>>
  {
    if IsWebsiteData(output) then
      if "theme" !in output || output["theme"] == Null then None
      else Some(Get(output["theme"], "backgroundColor"))
    else Some(Some(Str(AssetBackground)))
  }

  /**
   * What `handleDownloadImage` ends with for a design: the download, and the error message it
   * stores (None when it leaves the error alone).
   */
  function PngOutcome(browser: Browser, output: Output): (Download, Option<string>)
  {
    if !browser.viewerMounted then (Alerted(ViewerMissingMessage), None)
    else if browser.render(AssetViewer, Some(Null)).Some? then (SavedPng(PngFileName(AssetTitle(output))), None)
    else (DownloadFailed, Some(PngFailedMessage))
  }

  /**
   * What `handleDownloadPdf` ends with for a design: the download, and the error message it
   * stores (None when it leaves the error alone).
   */
  function PdfOutcome(browser: Browser, output: Output): (Download, Option<string>)
  {
    if !(browser.prototypeMounted && browser.pdfLibrariesLoaded) then (Alerted(PdfLibrariesMessage), None)
    else
      var background := PdfBackground(output);
      if background.Some? && browser.render(Prototype, background.value).Some? then
        var canvas := browser.render(Prototype, background.value).value;
        (SavedPdf(PdfFileName, PdfOrientation(canvas.width, canvas.height), canvas.width, canvas.height), None)
      else (DownloadFailed, Some(PdfFailedMessage))
  }

  /**
   * The state after a download with the given outcome: an alert changes nothing; otherwise the
   * downloading flag is down again and a failure's message is stored.
   */
  function AfterDownload(s: State, outcome: (Download, Option<string>)): State
  {
    if outcome.0.Alerted? then s
    else s.(isDownloading := false, error := if outcome.1.Some? then outcome.1 else s.error)
  }

  /**
   * The two download paths: the PNG path saves under the title-derived name, alerts when the
   * viewer is missing, or fails and stores the PNG error; the PDF path saves a page oriented by
   * its canvas, alerts when the prototype or libraries are missing, or fails and stores the PDF
   * error. Neither path ever produces the other's file, and an error is stored exactly on failure.
   */
  lemma DownloadOutcomes(browser: Browser, output: Output)
    ensures var (d, e) := PngOutcome(browser, output);
      && (d.SavedPng? || d == Alerted(ViewerMissingMessage) || d == DownloadFailed)
      && (d.SavedPng? ==> d.fileName == PngFileName(AssetTitle(output)))
      && (d == Alerted(ViewerMissingMessage) <==> !browser.viewerMounted)
      && (e.Some? <==> d == DownloadFailed) && (e.Some? ==> e.value == PngFailedMessage)
    ensures var (d, e) := PdfOutcome(browser, output);
      && (d.SavedPdf? || d == Alerted(PdfLibrariesMessage) || d == DownloadFailed)
      && (d.SavedPdf? ==> d.fileName == PdfFileName && d.orientation == PdfOrientation(d.width, d.height))
      && (d == Alerted(PdfLibrariesMessage) <==> !(browser.prototypeMounted && browser.pdfLibrariesLoaded))
      && (e.Some? <==> d == DownloadFailed) && (e.Some? ==> e.value == PdfFailedMessage)
  {
  }

  /** A site whose `theme` is missing or null fails the PDF download once the libraries are there. */
  lemma MissingThemeFailsPdf(browser: Browser, output: Output)
    requires IsWebsiteData(output) && ("theme" !in output || output["theme"] == Null)
    requires browser.prototypeMounted && browser.pdfLibrariesLoaded
    ensures PdfOutcome(browser, output) == (DownloadFailed, Some(PdfFailedMessage))
  {
  }

  /** A snapshot of the page state. */
  datatype State = State(
    prompt: string, designOutput: Option<Output>, selectedDesignType: Option<string>,
    isLoading: bool, isDownloading: bool, error: Option<string>, referenceImage: Option<ReferenceImage>)

  /** The page state of the `App` component, one field per `useState`. */
  class AppState {
    var prompt: string
    var designOutput: Option<Output>
    var selectedDesignType: Option<string>
    var isLoading: bool
    var isDownloading: bool
    var error: Option<string>
    var referenceImage: Option<ReferenceImage>

    /** The state as one value. */
    function Snapshot(): State
      reads this
    {
      State(prompt, designOutput, selectedDesignType, isLoading, isDownloading, error, referenceImage)
    }

    /** While a generation is in flight no design is shown. */
    predicate Valid()
      reads this
    {
      isLoading ==> designOutput.None?
    }

    /** The initial state: nothing typed, selected, shown or pending. */
    constructor()
      ensures Snapshot() == State("", None, None, false, false, None, None)
      ensures Valid()
    {
      prompt := "";
      designOutput := None;
      selectedDesignType := None;
      isLoading := false;
      isDownloading := false;
      error := None;
      referenceImage := None;
    }

    /**
     * The synchronous part of `handleGenerate`: the input check (which only sets the error), or the
     * start of the request (loading, no design, no error) and the call it makes.
     */
    method BeginGenerate() returns (call: Option<GenerateCall>)
      modifies this
      requires Valid()
      ensures Valid()
      ensures var check := GenerateCheck(old(selectedDesignType), old(prompt), old(referenceImage));
        && (check.Some? ==> call.None? && Snapshot() == old(Snapshot()).(error := check))
        && (check.None? ==>
              && call == Some(GenerateCall(old(selectedDesignType).value, old(prompt), ImagePartOf(old(referenceImage))))
              && Snapshot() == old(Snapshot()).(isLoading := true, designOutput := None, error := None))
    {
      if selectedDesignType.None? || selectedDesignType.value == "" {
        error := Some(ChooseTypeMessage);
        return None;
      }
      if Trim(prompt) == "" && referenceImage.None? {
        error := Some(EnterPromptMessage);
        return None;
      }
      isLoading := true;
      designOutput := None;
      error := None;
      var imagePart := ImagePartOf(referenceImage);
      call := Some(GenerateCall(selectedDesignType.value, prompt, imagePart));
    }

    /** The part of `handleGenerate` after the generator settles: store the design or the error, stop loading. */
    method FinishGenerate(result: GenerateResult)
      modifies this
      ensures Valid()
      ensures result.Generated? ==> Snapshot() == old(Snapshot()).(designOutput := Some(result.output), isLoading := false)
      ensures result.Failed? ==>
        Snapshot() == old(Snapshot()).(error := Some(FailureMessage(result.thrown)), designOutput := None, isLoading := false)
    {
      match result {
        case Generated(data) =>
          designOutput := Some(data);
        case Failed(thrown) =>
          error := Some(FailureMessage(thrown));
          designOutput := None;
      }
      isLoading := false;
    }

    /** `handleGenerate` with the generator as a function of the call. */
    method HandleGenerate(generate: GenerateCall -> GenerateResult) returns (call: Option<GenerateCall>)
      modifies this
      requires Valid()
      ensures Valid()
      ensures var check := GenerateCheck(old(selectedDesignType), old(prompt), old(referenceImage));
        && (check.Some? ==> call.None? && Snapshot() == old(Snapshot()).(error := check))
        && (check.None? ==>
              && call.Some? && call.value.designTypeId == old(selectedDesignType).value
              && call.value.prompt == old(prompt) && call.value.image == ImagePartOf(old(referenceImage)))
        && (check.None? ==> match generate(call.value)
              case Generated(data) =>
                Snapshot() == old(Snapshot()).(designOutput := Some(data), error := None, isLoading := false)
              case Failed(thrown) =>
                Snapshot() == old(Snapshot()).(designOutput := None, error := Some(FailureMessage(thrown)), isLoading := false))
    {
      call := BeginGenerate();
      if call.Some? {
        var result := generate(call.value);
        FinishGenerate(result);
      }
    }

    /** `resetState`: clear the design, the selection, the prompt, the error and the image; returns the revoked preview URL. */
    method ResetState() returns (revoked: Option<string>)
      modifies this
      ensures Valid()
      ensures revoked == if old(referenceImage).Some? then Some(old(referenceImage).value.previewUrl) else None
      ensures Snapshot() == old(Snapshot()).(
        designOutput := None, selectedDesignType := None, prompt := "", error := None, referenceImage := None)
    {
      revoked := if referenceImage.Some? then Some(referenceImage.value.previewUrl) else None;
      designOutput := None;
      selectedDesignType := None;
      prompt := "";
      error := None;
      referenceImage := None;
    }

    /** `handleDownloadImage`: render the asset viewer and save it under the title-derived PNG name. */
    method DownloadImage(browser: Browser) returns (download: Download)
      modifies this
      requires designOutput.Some?
      ensures var outcome := PngOutcome(browser, old(designOutput).value);
        download == outcome.0 && Snapshot() == AfterDownload(old(Snapshot()), outcome)
    {
      if !browser.viewerMounted {
        return Alerted(ViewerMissingMessage);
      }
      isDownloading := true;
      var canvas := browser.render(AssetViewer, Some(Null));
      if canvas.Some? {
        var title := AssetTitle(designOutput.value);
        download := SavedPng(PngFileName(title));
      } else {
        error := Some(PngFailedMessage);
        download := DownloadFailed;
      }
      isDownloading := false;
    }

    /** `handleDownloadPdf`: render the prototype with its background and save a page of the canvas size. */
    method DownloadPdf(browser: Browser) returns (download: Download)
      modifies this
      requires designOutput.Some?
      ensures var outcome := PdfOutcome(browser, old(designOutput).value);
        download == outcome.0 && Snapshot() == AfterDownload(old(Snapshot()), outcome)
    {
      if !browser.prototypeMounted || !browser.pdfLibrariesLoaded {
        return Alerted(PdfLibrariesMessage);
      }
      isDownloading := true;
      var background := PdfBackground(designOutput.value);
      var canvas := if background.Some? then browser.render(Prototype, background.value) else None;
      if canvas.Some? {
        var orientation := PdfOrientation(canvas.value.width, canvas.value.height);
        download := SavedPdf(PdfFileName, orientation, canvas.value.width, canvas.value.height);
      } else {
        error := Some(PdfFailedMessage);
        download := DownloadFailed;
      }
      isDownloading := false;
    }

    /** `handleDownload`: nothing without a design, a PDF for a site, a PNG for any other asset. */
    method HandleDownload(browser: Browser) returns (download: Download)
      modifies this
      requires Valid()
      ensures Valid()
      ensures old(designOutput).None? ==> download == NothingToDownload && Snapshot() == old(Snapshot())
      ensures old(designOutput).Some? && IsWebsiteData(old(designOutput).value) ==>
        var outcome := PdfOutcome(browser, old(designOutput).value);
        download == outcome.0 && Snapshot() == AfterDownload(old(Snapshot()), outcome)
      ensures old(designOutput).Some? && !IsWebsiteData(old(designOutput).value) ==>
        var outcome := PngOutcome(browser, old(designOutput).value);
        download == outcome.0 && Snapshot() == AfterDownload(old(Snapshot()), outcome)
    {
      if designOutput.None? {
        return NothingToDownload;
      }
      if IsWebsiteData(designOutput.value) {
        download := DownloadPdf(browser);
      } else {
        download := DownloadImage(browser);
      }
    }
  }

  /** `referenceImage ? { b64, mimeType } : null`. */
  function ImagePartOf(referenceImage: Option<ReferenceImage>): Option<ImagePart>
  {
    if referenceImage.Some? then Some(ImagePart(referenceImage.value.b64, referenceImage.value.mimeType)) else None
  }
}

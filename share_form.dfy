/** The share form (frontend/src/components/Share.tsx): the client-side code generator, the
    file-size guard, the preview-kind classifier, and what "Share" sends. `Math.random` is a
    draw oracle; the network is a function from request to response. */
module ShareComponent {
  import opened Text
  import Config
  import App = Application
  import Api = ApiService

  // ---------------------------------------------------------------------------
  // Preview kind

  datatype PreviewKind = Image | Pdf | Textual | Other

  /** The name endings `/(\.png|\.jpe?g|\.gif|\.webp|\.bmp|\.svg)$/` accepts. */
  const ImageSuffixes: seq<string> := [".png", ".jpg", ".jpeg", ".gif", ".webp", ".bmp", ".svg"]

  /** The name endings `/(\.txt|\.md|...|\.js|\.ts)$/` accepts. */
  const TextSuffixes: seq<string> :=
    [".txt", ".md", ".csv", ".log", ".json", ".xml", ".yaml", ".yml", ".html", ".css", ".js", ".ts"]

  /** A regular expression of alternatives anchored at `$`: one of them ends the text. */
  predicate EndsWithAny(s: string, suffixes: seq<string>) {
    suffixes != [] && (EndsWith(s, suffixes[0]) || EndsWithAny(s, suffixes[1..]))
  }

  lemma {:induction false} EndsWithAnyMember(s: string, suffixes: seq<string>, k: nat)
    requires k < |suffixes| && EndsWith(s, suffixes[k])
    ensures EndsWithAny(s, suffixes)
  {
    if k > 0 {
      EndsWithAnyMember(s, suffixes[1..], k - 1);
    }
  }

  /** `(x || '').toLowerCase()`. */
  function LowerOr(x: Option<string>): (r: string)
    ensures !Truthy(x) ==> r == ""
    ensures Truthy(x) ==> r == Lower(x.value)
  {
    Lower(OrElse(x, ""))
  }

  /** `inferPreviewKind(name, mime)`: the MIME type or the name's ending decide, image before
      pdf before text; anything else is `other`. */
  function InferPreviewKind(name: Option<string>, mime: Option<string>): (k: PreviewKind)
    ensures StartsWith(LowerOr(mime), "image/") ==> k == Image
    ensures k == Other ==> !StartsWith(LowerOr(mime), "text/") && LowerOr(mime) != "application/pdf"
  {
    var n := LowerOr(name);
    var m := LowerOr(mime);
    if StartsWith(m, "image/") || EndsWithAny(n, ImageSuffixes) then Image
    else if m == "application/pdf" || EndsWith(n, ".pdf") then Pdf
    else if StartsWith(m, "text/") || EndsWithAny(n, TextSuffixes) then Textual
    else Other
  }

  lemma {:induction false} NotEndsWithAny(s: string, suffixes: seq<string>)
    requires forall k :: 0 <= k < |suffixes| ==> !EndsWith(s, suffixes[k])
    ensures !EndsWithAny(s, suffixes)
  {
    if suffixes != [] {
      NotEndsWithAny(s, suffixes[1..]);
    }
  }

  /** A string that differs from `sfx` at some place counted from the end does not end in it. */
  lemma NotEndsWithAt(s: string, sfx: string, j: nat)
    requires 1 <= j <= |sfx| && j <= |s| && s[|s| - j] != sfx[|sfx| - j]
    ensures !EndsWith(s, sfx)
  {
    if |sfx| <= |s| {
      assert s[|s| - |sfx|..][|sfx| - j] == s[|s| - j];
    }
  }

  /** Without a name or a type the kind is `other`. */
  lemma PreviewKindOfNothing()
    ensures InferPreviewKind(None, None) == Other
  {
    var e := LowerOr(None);
    assert e == "";
    assert "" !in ImageSuffixes && "" !in TextSuffixes;
    EmptyEndsWithNone(ImageSuffixes);
    EmptyEndsWithNone(TextSuffixes);
    assert !StartsWith(e, "image/") && !StartsWith(e, "text/") && e != "application/pdf" && !EndsWith(e, ".pdf");
  }

  /** The empty name ends in none of a list of non-empty suffixes. */
  lemma {:induction false} EmptyEndsWithNone(suffixes: seq<string>)
    requires "" !in suffixes
    ensures !EndsWithAny("", suffixes)
  {
    if suffixes != [] {
      assert suffixes[0] != "";
      assert "" !in suffixes[1..];
      EmptyEndsWithNone(suffixes[1..]);
    }
  }

  /** The classifier ignores case: upper-casing the name and the type changes nothing. */
  lemma PreviewKindIgnoresCase(name: string, mime: string)
    ensures InferPreviewKind(Some(Upper(name)), Some(Upper(mime))) == InferPreviewKind(Some(name), Some(mime))
  {
    LowerOfUpper(name);
    LowerOfUpper(mime);
    assert LowerOr(Some(Upper(name))) == LowerOr(Some(name));
    assert LowerOr(Some(Upper(mime))) == LowerOr(Some(mime));
  }

  /** A name ending in one of the image suffixes is an image whatever the MIME type says. */
  lemma ImageNameWins(base: string, k: nat, mime: Option<string>)
    requires k < |ImageSuffixes|
    ensures InferPreviewKind(Some(base + ImageSuffixes[k]), mime) == Image
  {
    var name := base + ImageSuffixes[k];
    var n := Lower(name);
    assert Lower(ImageSuffixes[k]) == ImageSuffixes[k];
    assert n[|n| - |ImageSuffixes[k]|..] == Lower(name[|name| - |ImageSuffixes[k]|..]);
    assert name[|name| - |ImageSuffixes[k]|..] == ImageSuffixes[k];
    EndsWithAnyMember(n, ImageSuffixes, k);
  }

  /** Priority: a `.pdf` name with no type is a pdf, but the same name sent with an image or
      text type is an image or text. */
  lemma PdfPriority(base: string)
    ensures InferPreviewKind(Some(base + ".pdf"), None) == Pdf
    ensures InferPreviewKind(Some(base + ".pdf"), Some("image/png")) == Image
  {
    var n := Lower(base + ".pdf");
    assert n[|n| - 4..] == ".pdf";
    forall k | 0 <= k < |ImageSuffixes| ensures !EndsWith(n, ImageSuffixes[k]) {
      var sfx := ImageSuffixes[k];
      if sfx[|sfx| - 1] != 'f' {
        NotEndsWithAt(n, sfx, 1);
      } else {
        NotEndsWithAt(n, sfx, 3);
      }
    }
    NotEndsWithAny(n, ImageSuffixes);
  }

  // ---------------------------------------------------------------------------
  // The form

  /** `generateCode`: six draws from the same 36 characters as the backend's generator. */
  method GenerateCode(draw: nat -> App.Draw) returns (code: string)
    ensures code == App.GenerateCode(Config.CodeLength, draw)
    ensures |code| == 6 && forall i :: 0 <= i < 6 ==> App.IsCodeChar(code[i])
  {
    var chars := "ABCDEFGHIJKLMNOPQRSTUVWXYZ0123456789";
    assert chars == App.CodeAlphabet;
    App.AlphabetIsCodeChars();
    code := "";
    for i := 0 to 6
      invariant |code| == i
      invariant forall j :: 0 <= j < i ==> code[j] == App.CodeChar(draw(j))
    {
      code := code + [chars[draw(i)]];
    }
  }

  datatype Tab = TextTab | CodeTab | FileTab

  /** The editor's initial contents. */
  const DefaultCode: string := "// Enter your code here\n" + "// Select a language from the dropdown"

  /** The backend's reply to a created share (only its code is used here). */
  datatype Created = Created(code: string)

  /** The code buffer as the file the code tab shares. Its size is counted in characters. */
  function CodeFile(code: string, fileName: string): (f: Api.FileRef)
    ensures f.name != "" && f.mime == "text/plain" && f.content == code
    ensures fileName != "" ==> f.name == fileName
  {
    Api.FileRef(if fileName != "" then fileName else "script.js", |code|, "text/plain", code)
  }

  /** `fileToShare`: the picked file, or in the code tab without one, the code buffer. */
  function FileToShare(tab: Tab, file: Option<Api.FileRef>, code: string, fileName: string): (f: Option<Api.FileRef>)
    ensures tab == CodeTab ==> f.Some?
    ensures file.Some? ==> f == file
  {
    if tab == CodeTab && file.None? then Some(CodeFile(code, fileName)) else file
  }

  /** `contentToShare`: the text, emptied when the code buffer is promoted to a file. */
  function ContentToShare(tab: Tab, file: Option<Api.FileRef>, text: string): (c: string)
    ensures tab == CodeTab && file.None? ==> c == ""
    ensures !(tab == CodeTab && file.None?) ==> c == text
  {
    if tab == CodeTab && file.None? then "" else text
  }

  /** The metadata built for a share: code metadata only without a file in the code tab. */
  datatype Metadata = NoMetadata | CodeMetadata(language: string, fileName: string)

  function ShareMetadata(tab: Tab, file: Option<Api.FileRef>, code: string, fileName: string, language: string): Metadata {
    if tab == CodeTab && FileToShare(tab, file, code, fileName).None? then CodeMetadata(language, fileName) else NoMetadata
  }

  /** The code-editor metadata is never attached: in the code tab there is always a file. */
  lemma MetadataNeverAttached(tab: Tab, file: Option<Api.FileRef>, code: string, fileName: string, language: string)
    ensures ShareMetadata(tab, file, code, fileName, language) == NoMetadata
  {
  }

  /** The "Nothing to share" guard as written: no file, blank text and a blank code buffer. */
  predicate NothingToShare(tab: Tab, file: Option<Api.FileRef>, text: string, code: string, fileName: string) {
    FileToShare(tab, file, code, fileName).None? && Strip(JavaScript, ContentToShare(tab, file, text)) == "" && Strip(JavaScript, code) == ""
  }

  /** The initial code buffer is not blank. */
  lemma DefaultCodeNotBlank()
    ensures Strip(JavaScript, DefaultCode) == DefaultCode != ""
  {
    StrippedFixed(JavaScript, DefaultCode);
  }

  /** The guard lets an empty text share through from the text tab as long as the code
      buffer (not sent) holds anything, as it does initially: the request is JSON with
      `text: null` and the backend stores a share with neither text nor file. */
  lemma BlankTextShareSent()
    ensures !NothingToShare(TextTab, None, "", DefaultCode, "script.js")
    ensures Api.CreateRequestFor(Some(ContentToShare(TextTab, None, "")), FileToShare(TextTab, None, DefaultCode, "script.js"))
            == Api.JsonRequest(None)
    ensures App.NormalizeText(None).None?
  {
    assert ContentToShare(TextTab, None, "") == "";
    assert FileToShare(TextTab, None, DefaultCode, "script.js") == None;
    DefaultCodeNotBlank();
  }

  /** The guard as evidently intended: nothing to send is what is about to be sent. */
  predicate NothingToShareCorrected(tab: Tab, file: Option<Api.FileRef>, text: string, code: string, fileName: string) {
    FileToShare(tab, file, code, fileName).None? && Strip(JavaScript, ContentToShare(tab, file, text)) == ""
  }

  /** With the corrected guard every request that goes out carries a file, or a text that is
      not blank to JavaScript and reaches the backend as typed. */
  lemma CorrectedGuardSendsContent(tab: Tab, file: Option<Api.FileRef>, text: string, code: string, fileName: string)
    requires !NothingToShareCorrected(tab, file, text, code, fileName)
    ensures var c := ContentToShare(tab, file, text);
      var req := Api.CreateRequestFor(Some(c), FileToShare(tab, file, code, fileName));
      || req.MultipartRequest?
      || (req == Api.JsonRequest(Some(c)) && Strip(JavaScript, c) != "" &&
          App.NormalizeText(App.ClientText(Api.AsBackendBody(req))) == App.NormalizeText(Some(c)))
  {
    var c := ContentToShare(tab, file, text);
    var f := FileToShare(tab, file, code, fileName);
    if f.None? {
      StripEmpty(JavaScript);
      Api.CreateRequestKeepsText(Some(c), f);
    }
  }

  /** Whitespace to Python's `strip()` but not to JavaScript's `trim()`. */
  predicate PythonOnlySpace(ch: char) {
    IsSpace(Python, ch) && !IsSpace(JavaScript, ch)
  }

  /** The backend keeps every text the corrected guard lets through, unless the text holds
      a character that only Python counts as whitespace. */
  lemma CorrectedGuardKeepsText(tab: Tab, file: Option<Api.FileRef>, text: string, code: string, fileName: string)
    requires !NothingToShareCorrected(tab, file, text, code, fileName)
    requires forall i :: 0 <= i < |ContentToShare(tab, file, text)| ==> !PythonOnlySpace(ContentToShare(tab, file, text)[i])
    ensures var req := Api.CreateRequestFor(Some(ContentToShare(tab, file, text)), FileToShare(tab, file, code, fileName));
      req.MultipartRequest? || App.NormalizeText(App.ClientText(Api.AsBackendBody(req))).Some?
  {
    var c := ContentToShare(tab, file, text);
    var f := FileToShare(tab, file, code, fileName);
    if f.None? {
      CorrectedGuardSendsContent(tab, file, text, code, fileName);
      NotBlankToPython(c);
    }
  }

  /** A text that JavaScript does not find blank, and that holds no Python-only whitespace,
      is not blank to Python either. */
  lemma NotBlankToPython(c: string)
    requires Strip(JavaScript, c) != ""
    requires forall i :: 0 <= i < |c| ==> !PythonOnlySpace(c[i])
    ensures App.NormalizeText(Some(c)).Some?
  {
    var k := |c| - |TrimLeft(JavaScript, c)|;
    assert c[k] == Strip(JavaScript, c)[0];
    assert !IsSpace(Python, c[k]);
    if Strip(Python, c) == "" {
      BlankIsAllSpace(Python, c);
      assert false;
    }
  }

  /** Even the corrected guard lets through a text made only of an information separator:
      JavaScript's `trim()` keeps U+001C, Python's `strip()` removes it, and the backend
      stores a share without text. */
  lemma SeparatorTextDropped()
    ensures !NothingToShareCorrected(TextTab, None, "\U{1C}", "", "script.js")
    ensures Api.CreateRequestFor(Some(ContentToShare(TextTab, None, "\U{1C}")), FileToShare(TextTab, None, "", "script.js"))
            == Api.JsonRequest(Some("\U{1C}"))
    ensures App.NormalizeText(Some("\U{1C}")).None?
  {
    assert Strip(JavaScript, "\U{1C}") == "\U{1C}";
    assert Strip(Python, "\U{1C}") == "";
  }

  /** The two guards differ only when the unsent code buffer is not blank. */
  lemma GuardsDiffer(tab: Tab, file: Option<Api.FileRef>, text: string, code: string, fileName: string)
    ensures NothingToShare(tab, file, text, code, fileName) ==> NothingToShareCorrected(tab, file, text, code, fileName)
    ensures Strip(JavaScript, code) == "" ==>
      (NothingToShare(tab, file, text, code, fileName) <==> NothingToShareCorrected(tab, file, text, code, fileName))
  {
  }

  /** The share component's state. `requests` records what was sent to the backend. */
  class ShareForm {
    var file: Option<Api.FileRef>
    var text: string
    var activeTab: Tab
    var code: string
    var fileName: string
    var language: string
    var generatedCode: string
    var isGenerating: bool
    var lastToast: string
    var requests: seq<Api.CreateRequest>

    constructor()
      ensures file.None? && text == "" && activeTab == TextTab && code == DefaultCode
      ensures fileName == "script.js" && language == "javascript"
      ensures generatedCode == "" && !isGenerating && requests == []
    {
      file, text, activeTab, code := None, "", TextTab, DefaultCode;
      fileName, language := "script.js", "javascript";
      generatedCode, isGenerating, lastToast, requests := "", false, "", [];
    }

    /** `handleFileUpload`: a file over 10 MiB is refused and nothing changes; another is
        kept and clears the text. */
    method HandleFileUpload(f: Api.FileRef)
      modifies this
      ensures f.size > Config.MaxFileSize ==>
        file == old(file) && text == old(text) && lastToast == "File too large"
      ensures f.size <= Config.MaxFileSize ==> file == Some(f) && text == "" && lastToast == "File uploaded"
      ensures activeTab == old(activeTab) && code == old(code) && fileName == old(fileName)
      ensures generatedCode == old(generatedCode) && requests == old(requests) && isGenerating == old(isGenerating)
      ensures language == old(language)
    {
      if f.size > 10 * 1024 * 1024 {
        lastToast := "File too large";
        return;
      }
      file := Some(f);
      text := "";
      lastToast := "File uploaded";
    }

    /** `handleShare`: unless the guard stops it, one request goes out (multipart with the
        file or the promoted code buffer, else JSON), and the code shown is the server's.
        The locally generated code is drawn and dropped. */
    method HandleShare(draw: nat -> App.Draw, send: Api.CreateRequest -> Api.Response<Created>)
      modifies this
      ensures file == old(file) && text == old(text) && code == old(code) && fileName == old(fileName)
      ensures activeTab == old(activeTab) && language == old(language)
      ensures NothingToShare(old(activeTab), old(file), old(text), old(code), old(fileName)) ==>
        && requests == old(requests) && generatedCode == old(generatedCode) && isGenerating == old(isGenerating)
        && lastToast == "Nothing to share"
      ensures !NothingToShare(old(activeTab), old(file), old(text), old(code), old(fileName)) ==>
        var req := Api.CreateRequestFor(Some(ContentToShare(old(activeTab), old(file), old(text))),
                                        FileToShare(old(activeTab), old(file), old(code), old(fileName)));
        var out := Api.HandleResponse(send(req));
        && requests == old(requests) + [req]
        && !isGenerating
        && (out.Ok? ==> generatedCode == out.value.code && lastToast == "Content uploaded!")
        && (out.Err? ==> generatedCode == old(generatedCode) && lastToast == "Upload failed")
    {
      var contentToShare := text;
      var fileToShare := file;
      if activeTab == CodeTab && file.None? {
        fileToShare := Some(CodeFile(code, fileName));
        contentToShare := "";
      }
      if fileToShare.None? && Strip(JavaScript, contentToShare) == "" && Strip(JavaScript, code) == "" {
        lastToast := "Nothing to share";
        return;
      }
      isGenerating := true;
      var shareCode := GenerateCode(draw);
      var metadata := if activeTab == CodeTab && fileToShare.None? then CodeMetadata(language, fileName) else NoMetadata;
      var req := Api.BuildCreateRequest(Some(contentToShare), fileToShare);
      requests := requests + [req];
      var out := Api.HandleResponse(send(req));
      match out {
        case Ok(res) =>
          generatedCode := res.code;
          lastToast := "Content uploaded!";
        case Err(_) =>
          lastToast := "Upload failed";
      }
      isGenerating := false;
    }

    /** `reset`: back to an empty form; the tab, editor and options stay. */
    method Reset()
      modifies this
      ensures file.None? && text == "" && generatedCode == ""
      ensures activeTab == old(activeTab) && code == old(code) && fileName == old(fileName)
      ensures language == old(language) && requests == old(requests) && isGenerating == old(isGenerating)
    {
      file := None;
      text := "";
      generatedCode := "";
    }
  }
}

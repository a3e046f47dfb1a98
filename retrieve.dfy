/** The retrieve panel (frontend/src/components/Retrieve.tsx): a small state machine over the
    looked-up share, the password prompt, the error text and the preview object URL. The lookup
    is an abstract outcome, because the client library it calls never produces the
    password-required outcome this component handles. */
module RetrieveComponent {
  import opened Text
  import Api = ApiService
  import SF = ShareComponent

  // ---------------------------------------------------------------------------
  // Preview kind, written with one dot before a group of extensions

  /** The extensions `/\.(png|jpe?g|gif|webp|bmp|svg)$/` accepts after the dot. */
  const ImageExts: seq<string> := ["png", "jpg", "jpeg", "gif", "webp", "bmp", "svg"]

  /** The extensions `/\.(txt|md|...|js|ts)$/` accepts after the dot. */
  const TextExts: seq<string> := ["txt", "md", "csv", "log", "json", "xml", "yaml", "yml", "html", "css", "js", "ts"]

  /** `/\.(e1|e2|...)$/`: a dot and one of the extensions end the text. */
  predicate EndsWithExt(s: string, exts: seq<string>) {
    exts != [] && (EndsWith(s, "." + exts[0]) || EndsWithExt(s, exts[1..]))
  }

  /** Each extension with its dot in front. */
  function Dotted(exts: seq<string>): (r: seq<string>)
    ensures |r| == |exts| && forall i :: 0 <= i < |exts| ==> r[i] == "." + exts[i]
  {
    seq(|exts|, i requires 0 <= i < |exts| => "." + exts[i])
  }

  /** Factoring the dot out of the alternatives changes nothing. */
  lemma {:induction false} EndsWithExtDotted(s: string, exts: seq<string>)
    ensures EndsWithExt(s, exts) == SF.EndsWithAny(s, Dotted(exts))
  {
    if exts != [] {
      EndsWithExtDotted(s, exts[1..]);
      assert Dotted(exts)[1..] == Dotted(exts[1..]);
    }
  }

  lemma ExtListsMatch()
    ensures Dotted(ImageExts) == SF.ImageSuffixes
    ensures Dotted(TextExts) == SF.TextSuffixes
  {
    forall i | 0 <= i < |ImageExts| ensures Dotted(ImageExts)[i] == SF.ImageSuffixes[i] {
      assert ("." + ImageExts[i])[1..] == ImageExts[i];
    }
    forall i | 0 <= i < |TextExts| ensures Dotted(TextExts)[i] == SF.TextSuffixes[i] {
      assert ("." + TextExts[i])[1..] == TextExts[i];
    }
  }

  /** `inferPreviewKind(name, mime)` as this component writes it. */
  function InferPreviewKind(name: Option<string>, mime: Option<string>): (k: SF.PreviewKind)
    ensures StartsWith(SF.LowerOr(mime), "image/") ==> k == SF.Image
  {
    var n := SF.LowerOr(name);
    var m := SF.LowerOr(mime);
    if StartsWith(m, "image/") || EndsWithExt(n, ImageExts) then SF.Image
    else if m == "application/pdf" || EndsWith(n, ".pdf") then SF.Pdf
    else if StartsWith(m, "text/") || EndsWithExt(n, TextExts) then SF.Textual
    else SF.Other
  }

  /** This copy of the classifier agrees with the share form's on every name and type. */
  lemma PreviewKindsAgree(name: Option<string>, mime: Option<string>)
    ensures InferPreviewKind(name, mime) == SF.InferPreviewKind(name, mime)
  {
    var n := SF.LowerOr(name);
    EndsWithExtDotted(n, ImageExts);
    EndsWithExtDotted(n, TextExts);
    ExtListsMatch();
  }

  // ---------------------------------------------------------------------------
  // Lookup

  /** A lookup as `handleRetrieve` issues it: the code, and the password when one is asked for. */
  datatype Lookup = Lookup(code: string, password: Option<string>)

  /** What a lookup can end in, as `handleRetrieve` tells them apart. */
  datatype RetrieveOutcome = Found(share: Api.ShareInfo) | PasswordRequired | Failed(message: string)

  /** The lookup `handleRetrieve` sends for the trimmed code and the prompt's state. */
  function LookupFor(trimmed: string, isPasswordRequired: bool, password: string): (l: Lookup)
    ensures l.code == Upper(trimmed)
    ensures l.password.Some? <==> isPasswordRequired
    ensures isPasswordRequired ==> l.password == Some(password)
  {
    Lookup(Upper(trimmed), if isPasswordRequired then Some(password) else None)
  }

  /** The outcomes the client library's `getShareByCode` actually produces: it drops the
      password and throws only plain errors, so a password is never asked for. */
  function ApiLookup(send: Api.Request -> Api.Response<Api.ShareInfo>, req: Lookup): (r: RetrieveOutcome)
    ensures !r.PasswordRequired?
    ensures r.Found? <==> Api.GetShareByCode(req.code, send).Ok?
  {
    match Api.GetShareByCode(req.code, send)
    case Ok(s) => Found(s)
    case Err(m) => Failed(m)
  }

  /** The password has no effect on what the client library returns. */
  lemma PasswordIgnored(send: Api.Request -> Api.Response<Api.ShareInfo>, code: string, p: Option<string>, q: Option<string>)
    ensures ApiLookup(send, Lookup(code, p)) == ApiLookup(send, Lookup(code, q))
  {
  }

  /** The retrieve panel's state. `lookups` records the lookups sent and `revoked` the object
      URLs released, in order. */
  class Retrieve {
    var code: string
    var share: Option<Api.ShareInfo>
    var isRetrieving: bool
    var error: string
    var previewUrl: Option<string>
    var previewKind: SF.PreviewKind
    var isPasswordRequired: bool
    var password: string
    var lastToast: string
    var lookups: seq<Lookup>
    var revoked: seq<string>

    constructor()
      ensures code == "" && share.None? && !isRetrieving && error == "" && previewUrl.None?
      ensures previewKind == SF.Other && !isPasswordRequired && password == ""
      ensures lookups == [] && revoked == []
    {
      code, share, isRetrieving, error := "", None, false, "";
      previewUrl, previewKind := None, SF.Other;
      isPasswordRequired, password := false, "";
      lastToast, lookups, revoked := "", [], [];
    }

    /** `handleRetrieve`. A blank code only raises a toast. Otherwise the error and the preview
        are cleared, one lookup goes out with the trimmed upper-cased code (and the password
        when the prompt is up), and its outcome decides the rest; `isRetrieving` ends false. */
    method HandleRetrieve(fetch: Lookup -> RetrieveOutcome)
      modifies this
      ensures code == old(code) && revoked == old(revoked) && previewKind == old(previewKind)
      ensures Strip(JavaScript, old(code)) == "" ==>
        && share == old(share) && error == old(error) && previewUrl == old(previewUrl)
        && isPasswordRequired == old(isPasswordRequired) && password == old(password)
        && isRetrieving == old(isRetrieving) && lookups == old(lookups) && lastToast == "Enter a code"
      ensures Strip(JavaScript, old(code)) != "" ==>
        var req := LookupFor(Strip(JavaScript, old(code)), old(isPasswordRequired), old(password));
        var o := fetch(req);
        && lookups == old(lookups) + [req]
        && previewUrl.None? && !isRetrieving
        && (o.Found? ==>
              share == Some(o.share) && !isPasswordRequired && password == "" && error == ""
              && lastToast == "Content retrieved!")
        && (o.PasswordRequired? ==>
              isPasswordRequired && error == "" && share == old(share) && password == old(password)
              && lastToast == old(lastToast))
        && (o.Failed? ==>
              error == o.message && share.None? && isPasswordRequired == old(isPasswordRequired)
              && password == old(password) && lastToast == "Retrieval failed")
    {
      var trimmed := Strip(JavaScript, code);
      if trimmed == "" {
        lastToast := "Enter a code";
        return;
      }
      Submit(trimmed, fetch);
    }

    /** The part of `handleRetrieve` after the blank-code check, for the trimmed code. */
    method Submit(trimmed: string, fetch: Lookup -> RetrieveOutcome)
      modifies this
      ensures code == old(code) && revoked == old(revoked) && previewKind == old(previewKind)
      ensures
        var req := LookupFor(trimmed, old(isPasswordRequired), old(password));
        var o := fetch(req);
        && lookups == old(lookups) + [req]
        && previewUrl.None? && !isRetrieving
        && (o.Found? ==>
              share == Some(o.share) && !isPasswordRequired && password == "" && error == ""
              && lastToast == "Content retrieved!")
        && (o.PasswordRequired? ==>
              isPasswordRequired && error == "" && share == old(share) && password == old(password)
              && lastToast == old(lastToast))
        && (o.Failed? ==>
              error == o.message && share.None? && isPasswordRequired == old(isPasswordRequired)
              && password == old(password) && lastToast == "Retrieval failed")
    {
      isRetrieving := true;
      error := "";
      previewUrl := None;
      var req := LookupFor(trimmed, isPasswordRequired, password);
      lookups := lookups + [req];
      ApplyOutcome(fetch(req));
      isRetrieving := false;
    }

    /** How `handleRetrieve` takes a lookup's outcome: a share is shown and the prompt
        closed, a password demand opens the prompt, a failure is shown as the error. */
    method ApplyOutcome(o: RetrieveOutcome)
      modifies this
      ensures code == old(code) && revoked == old(revoked) && previewKind == old(previewKind)
      ensures lookups == old(lookups) && previewUrl == old(previewUrl) && isRetrieving == old(isRetrieving)
      ensures o.Found? ==>
        share == Some(o.share) && !isPasswordRequired && password == "" && error == old(error)
        && lastToast == "Content retrieved!"
      ensures o.PasswordRequired? ==>
        isPasswordRequired && error == "" && share == old(share) && password == old(password)
        && lastToast == old(lastToast)
      ensures o.Failed? ==>
        error == o.message && share.None? && isPasswordRequired == old(isPasswordRequired)
        && password == old(password) && lastToast == "Retrieval failed"
    {
      match o {
        case Found(s) =>
          share := Some(s);
          isPasswordRequired := false;
          password := "";
          lastToast := "Content retrieved!";
        case PasswordRequired =>
          isPasswordRequired := true;
          error := "";
        case Failed(msg) =>
          error := msg;
          share := None;
          lastToast := "Retrieval failed";
      }
    }

    /** The Cancel button of the password prompt. */
    method Cancel()
      modifies this
      ensures !isPasswordRequired && password == "" && error == ""
      ensures code == old(code) && share == old(share) && previewUrl == old(previewUrl)
      ensures isRetrieving == old(isRetrieving) && lookups == old(lookups) && revoked == old(revoked)
    {
      isPasswordRequired := false;
      password := "";
      error := "";
    }

    /** `reset`: clears the code, the share and the error, and releases the preview URL. The
        password prompt is left as it was. */
    method Reset()
      modifies this
      ensures code == "" && share.None? && error == "" && previewUrl.None?
      ensures revoked == old(revoked) + (if old(previewUrl).Some? then [old(previewUrl).value] else [])
      ensures isPasswordRequired == old(isPasswordRequired) && password == old(password)
      ensures isRetrieving == old(isRetrieving) && lookups == old(lookups)
    {
      code := "";
      share := None;
      error := "";
      if previewUrl.Some? {
        revoked := revoked + [previewUrl.value];
      }
      previewUrl := None;
    }

    /** `handlePreview`: only for a file share with a URL. The file is fetched through the
        proxy; on success the old object URL is released before the new one (`objectUrl`)
        replaces it, and the kind is inferred from the name and the blob's type. */
    method HandlePreview(send: Api.Request -> (nat, seq<int>), blobType: string, objectUrl: string)
      modifies this
      ensures share == old(share) && code == old(code) && error == old(error) && lookups == old(lookups)
      ensures isPasswordRequired == old(isPasswordRequired) && password == old(password)
      ensures !(old(share).Some? && old(share).value.contentType == "file" && Truthy(old(share).value.fileUrl)) ==>
        previewUrl == old(previewUrl) && revoked == old(revoked) && previewKind == old(previewKind)
      ensures old(share).Some? && old(share).value.contentType == "file" && Truthy(old(share).value.fileUrl) ==>
        var out := Api.DownloadFile(old(share).value.fileUrl.value, send);
        && (out.Ok? ==>
              && previewUrl == Some(objectUrl)
              && revoked == old(revoked) + (if old(previewUrl).Some? then [old(previewUrl).value] else [])
              && previewKind == InferPreviewKind(old(share).value.fileName, if blobType != "" then Some(blobType) else None)
              && lastToast == "Preview ready")
        && (out.Err? ==>
              previewUrl == old(previewUrl) && revoked == old(revoked) && previewKind == old(previewKind)
              && lastToast == "Preview failed")
    {
      if share.None? || share.value.contentType != "file" || !Truthy(share.value.fileUrl) {
        return;
      }
      var out := Api.DownloadFile(share.value.fileUrl.value, send);
      match out {
        case Ok(_) =>
          if previewUrl.Some? {
            revoked := revoked + [previewUrl.value];
          }
          previewUrl := Some(objectUrl);
          previewKind := InferPreviewKind(share.value.fileName, if blobType != "" then Some(blobType) else None);
          lastToast := "Preview ready";
        case Err(_) =>
          lastToast := "Preview failed";
      }
    }
  }
}

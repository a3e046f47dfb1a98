/** The "Your uploads" list (frontend/src/components/UserShares.tsx): the size column, the
    name-only preview classifier, the copied link, and the open/preview/close handlers. */
module UserSharesPanel {
  import opened Text
  import Api = ApiService
  import SF = ShareComponent
  import RC = RetrieveComponent

  // ---------------------------------------------------------------------------
  // Size column

  const KiB: int := 1024
  const MiB: int := 1024 * 1024

  /** The branch `formatSize` takes. The kilobyte and megabyte texts (`toFixed(1)`) are
      floating point and are kept as the size they are computed from. */
  datatype SizeLabel = Dash | InBytes(text: string) | InKB(size: int) | InMB(size: int)

  /** Rank of a branch, smallest sizes first. */
  function Rank(l: SizeLabel): nat {
    match l
    case Dash => 0
    case InBytes(_) => 1
    case InKB(_) => 2
    case InMB(_) => 3
  }

  /** `formatSize`: `-` for a missing or non-positive size, then bytes under 1024, kilobytes
      under 1024·1024, and megabytes above. In the last two the whole number of units is at
      least 1 and, for kilobytes, under 1024; the one-decimal text printed from it is not
      modelled. */
  function FormatSize(size: Option<int>): (l: SizeLabel)
    ensures l.Dash? <==> size.None? || size.value <= 0
    ensures l.InBytes? ==> 0 < size.value < KiB && l.text == Decimal(size.value) + " B"
    ensures l.InKB? ==> l.size == size.value && 1 <= size.value / KiB < KiB
    ensures l.InMB? ==> l.size == size.value && 1 <= size.value / MiB
  {
    if size.None? || size.value <= 0 then Dash
    else if size.value < KiB then InBytes(Decimal(size.value) + " B")
    else if size.value < MiB then InKB(size.value)
    else InMB(size.value)
  }

  /** The branches are ordered by size: a larger size never takes an earlier branch. */
  lemma FormatSizeMonotone(a: int, b: int)
    requires a <= b
    ensures Rank(FormatSize(Some(a))) <= Rank(FormatSize(Some(b)))
  {
  }

  /** Each positive size takes exactly the branch its range names. */
  lemma FormatSizeBranch(size: int)
    requires size > 0
    ensures FormatSize(Some(size)).InBytes? <==> size < KiB
    ensures FormatSize(Some(size)).InKB? <==> KiB <= size < MiB
    ensures FormatSize(Some(size)).InMB? <==> MiB <= size
  {
  }

  // ---------------------------------------------------------------------------
  // Name-only preview kind

  /** `inferPreviewKind(name)`: the same extension tests without a MIME type. */
  function NameOnlyKind(name: Option<string>): SF.PreviewKind {
    var n := SF.LowerOr(name);
    if RC.EndsWithExt(n, RC.ImageExts) then SF.Image
    else if EndsWith(n, ".pdf") then SF.Pdf
    else if RC.EndsWithExt(n, RC.TextExts) then SF.Textual
    else SF.Other
  }

  /** The name-only classifier is the share form's classifier with no MIME type. */
  lemma NameOnlyAgrees(name: Option<string>)
    ensures NameOnlyKind(name) == SF.InferPreviewKind(name, None)
  {
    RC.PreviewKindsAgree(name, None);
  }

  /** `handleCopyLink`: the link to the share page for the code. */
  function CopyLinkUrl(origin: string, code: string): (url: string)
    ensures StartsWith(url, origin) && url[|origin|..] == "/share/" + code
  {
    origin + "/share/" + code
  }

  /** The panel's preview state. `downloads` records the locators fetched, `tabs` the
      object URLs opened in a new tab and `revoked` the object URLs released. */
  class UserShares {
    var previewUrl: Option<string>
    var previewShare: Option<Api.ShareInfo>
    var downloads: seq<string>
    var tabs: seq<string>
    var revoked: seq<string>
    var lastToast: string

    constructor()
      ensures previewUrl.None? && previewShare.None? && downloads == [] && tabs == [] && revoked == []
    {
      previewUrl, previewShare := None, None;
      downloads, tabs, revoked, lastToast := [], [], [], "";
    }

    /** `handleOpen`: nothing without a file URL; otherwise the file is fetched through the
        proxy and, when that succeeds, opened in a new tab. */
    method HandleOpen(share: Api.ShareInfo, send: Api.Request -> (nat, seq<int>), objectUrl: string)
      modifies this
      ensures previewUrl == old(previewUrl) && previewShare == old(previewShare) && revoked == old(revoked)
      ensures lastToast == old(lastToast)
      ensures !Truthy(share.fileUrl) ==> downloads == old(downloads) && tabs == old(tabs)
      ensures Truthy(share.fileUrl) ==>
        && downloads == old(downloads) + [share.fileUrl.value]
        && tabs == old(tabs) + (if Api.DownloadFile(share.fileUrl.value, send).Ok? then [objectUrl] else [])
    {
      if !Truthy(share.fileUrl) {
        return;
      }
      downloads := downloads + [share.fileUrl.value];
      var out := Api.DownloadFile(share.fileUrl.value, send);
      if out.Ok? {
        tabs := tabs + [objectUrl];
      }
    }

    /** `handlePreview`: nothing without a file URL; otherwise, when the download succeeds,
        the new object URL and the share replace the preview. The previous URL is not released. */
    method HandlePreview(share: Api.ShareInfo, send: Api.Request -> (nat, seq<int>), objectUrl: string)
      modifies this
      ensures revoked == old(revoked) && tabs == old(tabs)
      ensures !Truthy(share.fileUrl) ==>
        downloads == old(downloads) && previewUrl == old(previewUrl) && previewShare == old(previewShare)
        && lastToast == old(lastToast)
      ensures Truthy(share.fileUrl) ==>
        var out := Api.DownloadFile(share.fileUrl.value, send);
        && downloads == old(downloads) + [share.fileUrl.value]
        && (out.Ok? ==> previewUrl == Some(objectUrl) && previewShare == Some(share) && lastToast == old(lastToast))
        && (out.Err? ==> previewUrl == old(previewUrl) && previewShare == old(previewShare) && lastToast == "Preview failed")
    {
      if !Truthy(share.fileUrl) {
        return;
      }
      downloads := downloads + [share.fileUrl.value];
      var out := Api.DownloadFile(share.fileUrl.value, send);
      match out {
        case Ok(_) =>
          previewUrl := Some(objectUrl);
          previewShare := Some(share);
        case Err(_) =>
          lastToast := "Preview failed";
      }
    }

    /** `closePreview`: the preview URL, if any, is released and the preview is cleared. */
    method ClosePreview()
      modifies this
      ensures previewUrl.None? && previewShare.None?
      ensures revoked == old(revoked) + (if old(previewUrl).Some? then [old(previewUrl).value] else [])
      ensures downloads == old(downloads) && tabs == old(tabs)
    {
      if previewUrl.Some? {
        revoked := revoked + [previewUrl.value];
      }
      previewUrl := None;
      previewShare := None;
    }
  }
}

/** The public share page (frontend/src/pages/ShareView.tsx): the locator it falls back to
    for a file without a URL, the expiry countdown, and when it fetches and previews. The
    clock is a parameter in milliseconds; the network is a function from request to response. */
module ShareViewPage {
  import opened Text
  import App = Application
  import Api = ApiService
  import SF = ShareComponent

  /** The object path the page guesses for a file: the name itself when it already starts
      with the share code, otherwise the code, a dash and the name. */
  function FallbackPath(code: string, fileName: string): (p: string)
    ensures StartsWith(p, code)
    ensures EndsWith(p, fileName)
    ensures StartsWith(fileName, code) ==> p == fileName
    ensures !StartsWith(fileName, code) ==> p == code + "-" + fileName
  {
    if StartsWith(fileName, code) then fileName else code + "-" + fileName
  }

  /** The locator the page downloads a file share from: the record's URL when it has one,
      else `proxy:shared-files/<guessed path>` when it has a name, else none. */
  function FileLocator(share: Api.ShareInfo): (r: Option<string>)
    ensures Truthy(share.fileUrl) ==> r == share.fileUrl
    ensures r.None? <==> !Truthy(share.fileUrl) && !Truthy(share.fileName)
  {
    if Truthy(share.fileUrl) then share.fileUrl
    else if Truthy(share.fileName) then Some("proxy:shared-files/" + FallbackPath(share.code, share.fileName.value))
    else None
  }

  /** The guessed locator is the backend's own proxy form for the shared-files bucket, so the
      file proxy splits it back into that bucket and the guessed path. */
  lemma FallbackReachesProxy(share: Api.ShareInfo)
    requires !Truthy(share.fileUrl) && Truthy(share.fileName)
    ensures var path := FallbackPath(share.code, share.fileName.value);
      && FileLocator(share) == Some(App.ProxyLocator(App.Bucket, path))
      && App.SplitBucketPath(FileLocator(share).value[6..]) == Some((App.Bucket, path))
  {
    var path := FallbackPath(share.code, share.fileName.value);
    SharedFilesLocator(path);
    App.ProxyLocatorRoundTrip(App.Bucket, path);
  }

  lemma SharedFilesLocator(path: string)
    ensures "proxy:shared-files/" + path == App.ProxyLocator(App.Bucket, path)
  {
    assert "proxy:shared-files/" == "proxy:" + App.Bucket + "/";
  }

  // ---------------------------------------------------------------------------
  // Countdown

  const HourMs: int := 1000 * 60 * 60
  const MinuteMs: int := 1000 * 60

  /** What `getTimeRemaining` decides: nothing loaded, expired, or whole hours and minutes left. */
  datatype Countdown = NoShare | Expired | Remaining(hours: nat, minutes: nat)

  /** The countdown for a share expiring at `expires`, `now` being the current time. */
  function CountdownFor(expires: Option<int>, now: int): (c: Countdown)
    ensures expires.None? <==> c.NoShare?
    ensures c.Expired? <==> expires.Some? && expires.value - now <= 0
    ensures c.Remaining? ==> c.minutes < 60
    ensures c.Remaining? ==>
      && c.hours * HourMs + c.minutes * MinuteMs <= expires.value - now
      && expires.value - now < c.hours * HourMs + (c.minutes + 1) * MinuteMs
  {
    if expires.None? then NoShare
    else
      var diff := expires.value - now;
      if diff <= 0 then Expired
      else Remaining(diff / HourMs, (diff % HourMs) / MinuteMs)
  }

  /** The countdown as the page prints it: nothing before a share is loaded, `Expired`, or
      `<h>h <m>m remaining`, the hours left out when there are none. */
  function Render(c: Countdown): (s: string)
    ensures c.NoShare? ==> s == ""
    ensures c.Expired? ==> s == "Expired"
    ensures c.Remaining? && c.hours > 0 ==> s == Decimal(c.hours) + "h " + Decimal(c.minutes) + "m remaining"
    ensures c.Remaining? && c.hours == 0 ==> s == Decimal(c.minutes) + "m remaining"
    ensures c.Remaining? ==> EndsWith(s, "m remaining")
  {
    match c
    case NoShare => ""
    case Expired => "Expired"
    case Remaining(h, m) =>
      if h > 0 then Decimal(h) + "h " + Decimal(m) + "m remaining" else Decimal(m) + "m remaining"
  }

  /** `getTimeRemaining`. */
  function TimeRemaining(expires: Option<int>, now: int): string {
    Render(CountdownFor(expires, now))
  }

  /** The page says `Expired` exactly when the expiry time has been reached. */
  lemma ExpiredExactly(expires: Option<int>, now: int)
    ensures TimeRemaining(expires, now) == "Expired" <==> expires.Some? && expires.value - now <= 0
  {
    var c := CountdownFor(expires, now);
    if c.Remaining? {
      var s := Render(c);
      assert s[|s| - 1] == 'g';
    }
  }

  /** Under an hour left, only minutes are shown. */
  lemma UnderAnHour(expires: int, now: int)
    requires 0 < expires - now < HourMs
    ensures TimeRemaining(Some(expires), now) == Decimal((expires - now) / MinuteMs) + "m remaining"
  {
  }

  // ---------------------------------------------------------------------------
  // The page

  /** The page's state. `fetched` records the codes looked up and `downloads` the locators
      requested through the file proxy. */
  class ShareView {
    var shareData: Option<Api.ShareInfo>
    var loading: bool
    var error: Option<string>
    var previewUrl: Option<string>
    var previewKind: SF.PreviewKind
    var previewLoading: bool
    var previewError: Option<string>
    var fetched: seq<string>
    var downloads: seq<string>

    constructor()
      ensures shareData.None? && loading && error.None?
      ensures previewUrl.None? && previewKind == SF.Other && !previewLoading && previewError.None?
      ensures fetched == [] && downloads == []
    {
      shareData, loading, error := None, true, None;
      previewUrl, previewKind, previewLoading, previewError := None, SF.Other, false, None;
      fetched, downloads := [], [];
    }

    /** The loading effect. Without a route code the page shows `Invalid share code` and
        fetches nothing; otherwise one lookup goes out and a failure shows
        `Failed to load share`. Loading ends either way. */
    method FetchShareData(code: Option<string>, send: Api.Request -> Api.Response<Api.ShareInfo>)
      modifies this
      ensures !loading && downloads == old(downloads) && previewUrl == old(previewUrl)
      ensures !Truthy(code) ==>
        error == Some("Invalid share code") && fetched == old(fetched) && shareData == old(shareData)
      ensures Truthy(code) ==>
        var out := Api.GetShareByCode(code.value, send);
        && fetched == old(fetched) + [code.value]
        && (out.Ok? ==> shareData == Some(out.value) && error == old(error))
        && (out.Err? ==> error == Some("Failed to load share") && shareData == old(shareData))
    {
      if !Truthy(code) {
        error := Some("Invalid share code");
        loading := false;
        return;
      }
      fetched := fetched + [code.value];
      var out := Api.GetShareByCode(code.value, send);
      match out {
        case Ok(data) =>
          shareData := Some(data);
          loading := false;
        case Err(_) =>
          error := Some("Failed to load share");
          loading := false;
      }
    }

    /** The auto-preview effect: the preview state is cleared, and only a file share with a
        name is fetched, from `FileLocator`; the kind comes from the name and the blob's type. */
    method AutoPreview(send: Api.Request -> (nat, seq<int>), blobType: string, objectUrl: string)
      modifies this
      ensures shareData == old(shareData) && loading == old(loading) && error == old(error)
      ensures fetched == old(fetched) && !previewLoading
      ensures !(old(shareData).Some? && old(shareData).value.contentType == "file" && Truthy(old(shareData).value.fileName)) ==>
        previewUrl.None? && previewError.None? && downloads == old(downloads) && previewKind == old(previewKind)
      ensures old(shareData).Some? && old(shareData).value.contentType == "file" && Truthy(old(shareData).value.fileName) ==>
        var loc := FileLocator(old(shareData).value);
        var out := Api.DownloadFile(loc.value, send);
        && loc.Some?
        && downloads == old(downloads) + [loc.value]
        && (out.Ok? ==>
              previewUrl == Some(objectUrl) && previewError.None?
              && previewKind == SF.InferPreviewKind(old(shareData).value.fileName, Some(blobType)))
        && (out.Err? ==>
              previewUrl.None? && previewError == Some("Preview not available") && previewKind == old(previewKind))
    {
      previewUrl := None;
      previewError := None;
      previewLoading := false;
      if shareData.None? || shareData.value.contentType != "file" || !Truthy(shareData.value.fileName) {
        return;
      }
      previewLoading := true;
      var loc := FileLocator(shareData.value);
      downloads := downloads + [loc.value];
      var out := Api.DownloadFile(loc.value, send);
      match out {
        case Ok(_) =>
          previewUrl := Some(objectUrl);
          previewKind := SF.InferPreviewKind(shareData.value.fileName, Some(blobType));
        case Err(_) =>
          previewError := Some("Preview not available");
      }
      previewLoading := false;
    }
  }
}

/** The admin's media upload screen (src/screens/Admin/UploadMediaScreen.tsx):
    the guards around the media picker, the names and URL derived from the
    picked asset, and the `loading`/`uploadProgress`/`uploadedAsset` state.
    The picker, the signature request, the upload and the metadata save are
    outcomes passed in. */
module UploadMedia {
  import opened Types
  import opened JsText

  const NoUserAlert := Alert("Error", "User ID not found. Please login again.")
  const PickFailedText := "Failed to pick media"
  const UnexpectedAlert := Alert("Error", "An unexpected error occurred")
  const UploadFailedAlert := Alert("Error", "Failed to upload media. Please try again.")
  const UploadedAlert := Alert("Success", "Media uploaded successfully!")
  const DefaultExtension := "jpg"
  const CloudinaryBase := "https://api.cloudinary.com/v1_1/"

  datatype PlatformOS = Android | IOS | Web | Windows | MacOS

  /** The fields of a picked asset the screen reads. */
  datatype PickedAsset = PickedAsset(uri: Option<string>, mimeType: Option<string>, fileName: Option<string>)

  /** The picker's answer. */
  datatype PickerResult = PickerResult(
    didCancel: bool,
    errorCode: Option<string>,
    errorMessage: Option<string>,
    assets: Option<seq<PickedAsset>>)

  datatype PickOutcome = PickerReturned(result: PickerResult) | PickerThrew

  // ---------------------------------------------------------------------------
  // guards around the picker

  datatype PickStep = Ignore | ShowAlert(alert: Alert) | UploadFirst(asset: PickedAsset)

  /** What happens once the picker returns: a cancel is ignored, an error is
      reported, and otherwise the first picked asset (if any) is uploaded. */
  function AfterPick(outcome: PickOutcome): (r: PickStep)
    ensures outcome.PickerThrew? ==> r == ShowAlert(UnexpectedAlert)
    ensures outcome.PickerReturned? && outcome.result.didCancel ==> r == Ignore
    ensures outcome.PickerReturned? && !outcome.result.didCancel && Truthy(outcome.result.errorCode) ==>
      r == ShowAlert(Alert("Error",
        if Truthy(outcome.result.errorMessage) then outcome.result.errorMessage.value else PickFailedText))
    ensures r.UploadFirst? <==>
      outcome.PickerReturned? && !outcome.result.didCancel && !Truthy(outcome.result.errorCode)
      && outcome.result.assets.Some? && |outcome.result.assets.value| > 0
    ensures r.UploadFirst? ==> r.asset == outcome.result.assets.value[0]
    ensures (outcome.PickerReturned? && !outcome.result.didCancel && !Truthy(outcome.result.errorCode)
             && (outcome.result.assets.None? || |outcome.result.assets.value| == 0)) ==> r == Ignore
  {
    match outcome
    case PickerThrew => ShowAlert(UnexpectedAlert)
    case PickerReturned(result) =>
      if result.didCancel then Ignore
      else if Truthy(result.errorCode) then
        ShowAlert(Alert("Error", if Truthy(result.errorMessage) then result.errorMessage.value else PickFailedText))
      else if result.assets.Some? && |result.assets.value| > 0 then UploadFirst(result.assets.value[0])
      else Ignore
  }

  // ---------------------------------------------------------------------------
  // names and URL derived from the asset

  /** `type.split('/')[1] || 'jpg'`: the text between the first "/" of the
      MIME type and the next one, or "jpg" when that text is missing or empty. */
  function Extension(mimeType: string): (ext: string)
    ensures ext != "" && '/' !in ext
    ensures '/' !in mimeType ==> ext == DefaultExtension
  {
    var parts := Split(mimeType, '/');
    SplitJoin(mimeType, '/');
    if '/' !in mimeType then
      SplitNoSeparator(mimeType, '/');
      DefaultExtension
    else if |parts| > 1 && parts[1] != "" then
      assert parts[1] in parts;
      parts[1]
    else DefaultExtension
  }

  lemma ExtensionOfMimeType(top: string, sub: string, rest: string)
    requires '/' !in top && '/' !in sub
    ensures Extension(top + "/" + sub) == if sub == "" then DefaultExtension else sub
    ensures Extension(top + "/" + sub + "/" + rest) == if sub == "" then DefaultExtension else sub
  {
    SplitAtFirst(top, '/', sub);
    SplitNoSeparator(sub, '/');
    assert top + "/" + sub == top + ['/'] + sub;
    SplitAtFirst(top, '/', sub + "/" + rest);
    SplitAtFirst(sub, '/', rest);
    assert top + "/" + sub + "/" + rest == top + ['/'] + (sub + ['/'] + rest);
  }

  /** The asset's own file name when it has one, otherwise
      `upload_<timestamp>.<extension>`. */
  function FileName(assetName: Option<string>, nowMs: nat, extension: string): (name: string)
    ensures Truthy(assetName) ==> name == assetName.value
    ensures !Truthy(assetName) ==>
      |name| > |extension| + 7 && StartsWith(name, "upload_") && name[|name| - |extension| - 1..] == "." + extension
  {
    if Truthy(assetName) then assetName.value else "upload_" + Decimal(nowMs) + "." + extension
  }

  /** The generated name carries the timestamp in decimal, which reads back
      to the same number. */
  lemma GeneratedNameHoldsTimestamp(nowMs: nat, extension: string)
    ensures var name := FileName(None, nowMs, extension);
      var d := Decimal(nowMs);
      name == "upload_" + d + "." + extension && DigitsValue(d) == nowMs
  {
    DecimalRoundTrip(nowMs);
  }

  /** On Android the URI is kept; elsewhere the first "file://" is removed. */
  function CleanUri(uri: string, os: PlatformOS): (clean: string)
    ensures os == Android ==> clean == uri
    ensures os != Android ==> clean == ReplaceFirst(uri, "file://", "")
  {
    if os == Android then uri else ReplaceFirst(uri, "file://", "")
  }

  /** A leading scheme is dropped off the platform, and only that occurrence. */
  lemma CleanUriDropsLeadingScheme(rest: string, os: PlatformOS)
    requires os != Android
    ensures CleanUri("file://" + rest, os) == rest
  {
    var s := "file://" + rest;
    assert OccursAt(s, "file://", 0) by {
      assert s[0..7] == "file://";
    }
    assert s[7..] == rest;
  }

  /** "video" exactly when the MIME type starts with "video". */
  function ResourceType(mimeType: string): (kind: string)
    ensures kind == "video" <==> StartsWith(mimeType, "video")
    ensures kind == "video" || kind == "image"
  {
    if StartsWith(mimeType, "video") then "video" else "image"
  }

  function UploadUrl(cloudName: string, resourceType: string): (url: string)
    ensures StartsWith(url, CloudinaryBase)
  {
    CloudinaryBase + cloudName + "/" + resourceType + "/upload"
  }

  /** The URL is its path segments joined with "/". */
  lemma UploadUrlJoins(cloudName: string, resourceType: string)
    ensures UploadUrl(cloudName, resourceType) ==
      Join(["https:", "", "api.cloudinary.com", "v1_1", cloudName, resourceType, "upload"], '/')
  {
    var parts := ["https:", "", "api.cloudinary.com", "v1_1", cloudName, resourceType, "upload"];
    assert Join(parts[6..], '/') == "upload";
    assert Join(parts[5..], '/') == resourceType + "/upload";
    assert Join(parts[4..], '/') == cloudName + "/" + resourceType + "/upload";
    assert Join(parts[3..], '/') == "v1_1/" + cloudName + "/" + resourceType + "/upload";
    assert Join(parts[2..], '/') == "api.cloudinary.com/v1_1/" + cloudName + "/" + resourceType + "/upload";
  }

  /** The URL's path segments are fixed except for the cloud name and the
      resource type, which are recovered from it. */
  lemma UploadUrlSegments(cloudName: string, resourceType: string)
    requires '/' !in cloudName && '/' !in resourceType
    ensures Split(UploadUrl(cloudName, resourceType), '/') ==
      ["https:", "", "api.cloudinary.com", "v1_1", cloudName, resourceType, "upload"]
  {
    UploadUrlJoins(cloudName, resourceType);
    JoinSplit(["https:", "", "api.cloudinary.com", "v1_1", cloudName, resourceType, "upload"], '/');
  }

  /** The values `uploadFile` derives before any request (the metadata's
      original file name included). */
  datatype UploadPlan = UploadPlan(
    cleanUri: string,
    extension: string,
    fileName: string,
    resourceType: string,
    originalFilename: string)

  /** An asset without a URI or a type is rejected before any request;
      otherwise every name is derived from it. */
  function PlanUpload(asset: PickedAsset, os: PlatformOS, nowMs: nat): (r: Option<UploadPlan>)
    ensures r.None? <==> !Truthy(asset.uri) || !Truthy(asset.mimeType)
    ensures r.Some? ==> r.value.cleanUri == CleanUri(asset.uri.value, os)
    ensures r.Some? ==> r.value.extension == Extension(asset.mimeType.value)
    ensures r.Some? ==> r.value.fileName == FileName(asset.fileName, nowMs, r.value.extension)
    ensures r.Some? ==> r.value.resourceType == ResourceType(asset.mimeType.value)
    ensures r.Some? ==> r.value.originalFilename == OriginalFilename(asset)
  {
    if !Truthy(asset.uri) || !Truthy(asset.mimeType) then None
    else
      var extension := Extension(asset.mimeType.value);
      Some(UploadPlan(
        CleanUri(asset.uri.value, os),
        extension,
        FileName(asset.fileName, nowMs, extension),
        ResourceType(asset.mimeType.value),
        OriginalFilename(asset)))
  }

  /** The metadata's `original_filename`: the asset's own name or "unknown". */
  function OriginalFilename(asset: PickedAsset): (name: string)
    ensures Truthy(asset.fileName) ==> name == asset.fileName.value
    ensures !Truthy(asset.fileName) ==> name == "unknown"
  {
    if Truthy(asset.fileName) then asset.fileName.value else "unknown"
  }

  /** The metadata's original file name is the uploaded file's name exactly
      when the asset has a name of its own; otherwise it reads "unknown" while
      the file is sent as `upload_<timestamp>.<extension>`. */
  lemma NamesAgreeIffAssetNamed(asset: PickedAsset, nowMs: nat, extension: string)
    ensures OriginalFilename(asset) == FileName(asset.fileName, nowMs, extension) <==> Truthy(asset.fileName)
  {
    if !Truthy(asset.fileName) {
      assert FileName(asset.fileName, nowMs, extension)[1] == 'p';
    }
  }

  /** `Math.round(loaded / total * 100)`: the percentage rounded to the
      nearest whole number, halves upwards. */
  function ProgressPercent(loaded: nat, total: nat): (p: nat)
    requires total > 0
    ensures 2 * total * p <= 200 * loaded + total < 2 * total * (p + 1)
  {
    var q := (200 * loaded + total) / (2 * total);
    assert q * (2 * total) <= 200 * loaded + total < (q + 1) * (2 * total);
    q
  }

  /** No bytes sent reads 0%, all of them 100%, and never more in between. */
  lemma ProgressBounds(loaded: nat, total: nat)
    requires total > 0
    ensures loaded == 0 ==> ProgressPercent(loaded, total) == 0
    ensures loaded == total ==> ProgressPercent(loaded, total) == 100
    ensures loaded <= total ==> ProgressPercent(loaded, total) <= 100
  {
    var p := ProgressPercent(loaded, total);
    var d := 2 * total;
    if loaded <= total {
      assert d * p < d * 101;
      ScaleLess(d, p, 101);
    }
    if loaded == total {
      assert d * 99 < d * (p + 1);
      ScaleLess(d, 99, p + 1);
    }
    if loaded == 0 {
      assert d * p < d * 1;
      ScaleLess(d, p, 1);
    }
  }

  /** Multiplying both sides by a positive factor keeps a strict order. */
  lemma ScaleLess(d: nat, x: nat, y: nat)
    requires d > 0 && d * x < d * y
    ensures x < y
  {
  }

  // ---------------------------------------------------------------------------
  // the screen

  class UploadMediaScreen {
    var loading: bool
    var uploadProgress: nat
    var uploadedAsset: Option<PickedAsset>

    constructor ()
      ensures !loading && uploadProgress == 0 && uploadedAsset == None
    {
      loading := false;
      uploadProgress := 0;
      uploadedAsset := None;
    }

    /** `handleUpload`'s first guard: without a user an alert is shown and the
        picker is not opened. Nothing on the screen changes. */
    method HandleUpload(userId: Option<string>) returns (opensPicker: bool, alert: Option<Alert>)
      ensures opensPicker <==> Truthy(userId)
      ensures alert == if opensPicker then None else Some(NoUserAlert)
    {
      opensPicker := Truthy(userId);
      alert := if opensPicker then None else Some(NoUserAlert);
    }

    /** The synchronous start of `uploadFile`: `loading` on and progress 0;
        an invalid asset fails at once, so the upload-failed alert is shown
        and the state is reset. */
    method BeginUpload(asset: PickedAsset, os: PlatformOS, nowMs: nat) returns (plan: Option<UploadPlan>, alert: Option<Alert>)
      modifies this
      ensures plan == PlanUpload(asset, os, nowMs)
      ensures uploadProgress == 0 && uploadedAsset == old(uploadedAsset)
      ensures loading <==> plan.Some?
      ensures alert == if plan.Some? then None else Some(UploadFailedAlert)
    {
      loading := true;
      uploadProgress := 0;
      plan := PlanUpload(asset, os, nowMs);
      alert := None;
      if plan.None? {
        alert := Some(UploadFailedAlert);
        loading := false;
        uploadProgress := 0;
      }
    }

    /** The upload's progress event: only an event whose length is known
        moves the percentage. */
    method OnProgress(lengthComputable: bool, loaded: nat, total: nat)
      requires lengthComputable ==> total > 0
      modifies this
      ensures uploadProgress == if lengthComputable then ProgressPercent(loaded, total) else old(uploadProgress)
      ensures loading == old(loading) && uploadedAsset == old(uploadedAsset)
    {
      if lengthComputable {
        uploadProgress := ProgressPercent(loaded, total);
      }
    }

    /** The signature request, the upload and the metadata save settled:
        on success the asset is kept for display; in every case `loading` is
        off and the progress is back to 0. */
    method UploadSettled(asset: PickedAsset, succeeded: bool) returns (alert: Alert)
      modifies this
      ensures !loading && uploadProgress == 0
      ensures uploadedAsset == if succeeded then Some(asset) else old(uploadedAsset)
      ensures alert == if succeeded then UploadedAlert else UploadFailedAlert
    {
      if succeeded {
        uploadedAsset := Some(asset);
        alert := UploadedAlert;
      } else {
        alert := UploadFailedAlert;
      }
      loading := false;
      uploadProgress := 0;
    }

    /** The "Upload Another" button. */
    method UploadAnother()
      modifies this
      ensures uploadedAsset == None && loading == old(loading) && uploadProgress == old(uploadProgress)
    {
      uploadedAsset := None;
    }
  }
}

/** The client side of the upload pipeline (src/utils/r2Upload.js): naming a file for the
    bucket, sending it to the relay, turning a stored name back into a public URL, the
    MIME-type filter and the delete request.

    Time, randomness and the environment are parameters: the calendar fields of `new Date()`,
    the string `Math.random().toString(36)`, and the two configured URLs
    (`VITE_R2_UPLOAD_URL`, `VITE_R2_PUBLIC_URL`). A `fetch` is an abstract `FetchResult`. */
module R2Upload {
  import opened Common

  /** A browser `File`: its name, its declared MIME type (`file.type`) and its size in bytes. */
  datatype File = File(name: string, mimeType: string, size: nat)

  /** The local-time fields of a `Date`; `monthIndex` is `getMonth()`, so January is 0. */
  datatype DateFields = DateFields(year: nat, monthIndex: nat, day: nat, hours: nat, minutes: nat, seconds: nat)

  predicate ValidDate(d: DateFields) {
    d.monthIndex < 12 && 1 <= d.day <= 31 && d.hours < 24 && d.minutes < 60 && d.seconds < 60
  }

  /** What a `fetch` to the relay produced: a response (its `ok` flag, status, status text and
      the body text, `None` when reading the body failed) or a rejected promise. */
  datatype FetchResult =
    | Responded(ok: bool, status: nat, statusText: string, text: Option<string>)
    | NetworkFailure(message: string)

  /** The one request `uploadFileToR2` sends: a POST of the file to `url` with `Content-Type: contentType`. */
  datatype UploadRequest = UploadRequest(url: string, contentType: string, file: File)

  datatype R2Error =
    | NoFile
    | FileTooLarge
    | UploadUrlMissing
    | UploadRejected(status: nat, statusText: string, detail: string)
    | NoFilename
    | DeleteUrlMissing
    | DeleteRejected(status: nat, statusText: string)
    | FetchFailed(message: string)

  /** The `message` of the `Error` each failure throws. */
  function Message(e: R2Error): string {
    match e
    case NoFile => "No file provided"
    case FileTooLarge => "File size exceeds 10MB limit"
    case UploadUrlMissing => "R2 upload URL not configured. Please set VITE_R2_UPLOAD_URL in your .env file"
    case UploadRejected(status, statusText, detail) =>
      "Failed to upload file: " + NatToString(status) + " " + statusText + " - " + detail
    case NoFilename => "No filename provided"
    case DeleteUrlMissing => "R2 upload URL not configured"
    case DeleteRejected(status, statusText) =>
      "Failed to delete file: " + NatToString(status) + " " + statusText
    case FetchFailed(message) => message
  }

  /** The request an upload sent, if any, and what it resolved to: the stored filename or the error. */
  datatype UploadAttempt = UploadAttempt(sent: Option<UploadRequest>, result: Result<string, R2Error>)

  /** The DELETE request a delete sent (its URL), if any, and whether it succeeded. */
  datatype DeleteAttempt = DeleteAttempt(sent: Option<string>, result: Result<(), R2Error>)

  const MaxUploadBytes: nat := 10 * 1024 * 1024

  /** The namespace every object key of the bucket lives in. */
  const Namespace: string := "uploads/"

  // ---------------------------------------------------------------------------
  // Naming
  // ---------------------------------------------------------------------------

  /** The `YYYYMMDD_HHmmss` timestamp: the year as `String` renders it, then zero-padded
      two-digit month, day, hours, minutes and seconds. */
  function Timestamp(d: DateFields): string {
    NatToString(d.year) + Pad2(d.monthIndex + 1) + Pad2(d.day) + "_"
      + Pad2(d.hours) + Pad2(d.minutes) + Pad2(d.seconds)
  }

  predicate AllDigits(s: string) {
    forall i :: 0 <= i < |s| ==> IsDigit(s[i])
  }

  /** Reads a 15-character `YYYYMMDD_HHmmss` timestamp back into date fields. */
  function ParseTimestamp(ts: string): (r: Option<DateFields>)
    ensures r.Some? ==> |ts| == 15 && ts[8] == '_'
  {
    if |ts| == 15 && ts[8] == '_' && AllDigits(ts[..4]) && AllDigits(ts[4..6]) && AllDigits(ts[6..8])
       && AllDigits(ts[9..11]) && AllDigits(ts[11..13]) && AllDigits(ts[13..])
    then
      var month := DecimalValue(ts[4..6]);
      if month == 0 then None
      else Some(DateFields(DecimalValue(ts[..4]), month - 1, DecimalValue(ts[6..8]),
                           DecimalValue(ts[9..11]), DecimalValue(ts[11..13]), DecimalValue(ts[13..])))
    else None
  }

  /** Where each field sits in `y + mo + dd + "_" + h + mi + s` when the pieces have the
      timestamp's widths. */
  lemma TimestampLayout(y: string, mo: string, dd: string, h: string, mi: string, s: string)
    requires |y| == 4 && |mo| == 2 && |dd| == 2 && |h| == 2 && |mi| == 2 && |s| == 2
    ensures var ts := y + mo + dd + "_" + h + mi + s;
      && |ts| == 15 && ts[8] == '_'
      && ts[..4] == y && ts[4..6] == mo && ts[6..8] == dd
      && ts[9..11] == h && ts[11..13] == mi && ts[13..] == s
  {
  }

  /** A 15-character string with `_` at index 8 and digit fields is read field by field. */
  lemma ParseFields(ts: string)
    requires |ts| == 15 && ts[8] == '_'
    requires AllDigits(ts[..4]) && AllDigits(ts[4..6]) && AllDigits(ts[6..8])
    requires AllDigits(ts[9..11]) && AllDigits(ts[11..13]) && AllDigits(ts[13..])
    requires DecimalValue(ts[4..6]) != 0
    ensures ParseTimestamp(ts)
         == Some(DateFields(DecimalValue(ts[..4]), DecimalValue(ts[4..6]) - 1, DecimalValue(ts[6..8]),
                            DecimalValue(ts[9..11]), DecimalValue(ts[11..13]), DecimalValue(ts[13..])))
  {
  }

  /** Every character of the joined pieces except the `_` at index 8 is a digit. */
  lemma PiecesDigits(y: string, mo: string, dd: string, h: string, mi: string, s: string)
    requires |y| == 4 && |mo| == 2 && |dd| == 2 && |h| == 2 && |mi| == 2 && |s| == 2
    requires AllDigits(y) && AllDigits(mo) && AllDigits(dd) && AllDigits(h) && AllDigits(mi) && AllDigits(s)
    ensures var ts := y + mo + dd + "_" + h + mi + s;
      forall i :: 0 <= i < 15 && i != 8 ==> IsDigit(ts[i])
  {
    var ts := y + mo + dd + "_" + h + mi + s;
    forall i | 0 <= i < 15 && i != 8 ensures IsDigit(ts[i]) {
      if i < 4 { assert ts[i] == y[i]; }
      else if i < 6 { assert ts[i] == mo[i - 4]; }
      else if i < 8 { assert ts[i] == dd[i - 6]; }
      else if i < 11 { assert ts[i] == h[i - 9]; }
      else if i < 13 { assert ts[i] == mi[i - 11]; }
      else { assert ts[i] == s[i - 13]; }
    }
  }

  /** The timestamp of a date with a four-digit year is its pieces joined: four year digits,
      then two digits each for month, day, hours, minutes and seconds. */
  lemma TimestampPieces(d: DateFields)
    requires ValidDate(d) && 1000 <= d.year <= 9999
    ensures var y, mo, dd, h, mi, s := NatToString(d.year), Pad2(d.monthIndex + 1), Pad2(d.day),
                                       Pad2(d.hours), Pad2(d.minutes), Pad2(d.seconds);
      && Timestamp(d) == y + mo + dd + "_" + h + mi + s
      && |y| == 4 && |mo| == 2 && |dd| == 2 && |h| == 2 && |mi| == 2 && |s| == 2
      && AllDigits(y) && AllDigits(mo) && AllDigits(dd) && AllDigits(h) && AllDigits(mi) && AllDigits(s)
      && DecimalValue(y) == d.year && DecimalValue(mo) == d.monthIndex + 1 && DecimalValue(dd) == d.day
      && DecimalValue(h) == d.hours && DecimalValue(mi) == d.minutes && DecimalValue(s) == d.seconds
  {
    NatToStringLength(d.year);
    DecimalRoundTrip(d.year);
    Pad2Digits(d.monthIndex + 1);
    Pad2Digits(d.day);
    Pad2Digits(d.hours);
    Pad2Digits(d.minutes);
    Pad2Digits(d.seconds);
  }

  /** For a four-digit year the timestamp is 15 characters, `_` at index 8 and digits
      elsewhere. */
  lemma TimestampShape(d: DateFields)
    requires ValidDate(d) && 1000 <= d.year <= 9999
    ensures |Timestamp(d)| == 15 && Timestamp(d)[8] == '_'
    ensures forall i :: 0 <= i < 15 && i != 8 ==> IsDigit(Timestamp(d)[i])
  {
    TimestampPieces(d);
    var y, mo, dd, h, mi, s := NatToString(d.year), Pad2(d.monthIndex + 1), Pad2(d.day),
                               Pad2(d.hours), Pad2(d.minutes), Pad2(d.seconds);
    TimestampLayout(y, mo, dd, h, mi, s);
    PiecesDigits(y, mo, dd, h, mi, s);
  }

  /** For a four-digit year the timestamp reads back to the same date. */
  lemma TimestampRoundTrip(d: DateFields)
    requires ValidDate(d) && 1000 <= d.year <= 9999
    ensures ParseTimestamp(Timestamp(d)) == Some(d)
  {
    TimestampPieces(d);
    var y, mo, dd, h, mi, s := NatToString(d.year), Pad2(d.monthIndex + 1), Pad2(d.day),
                               Pad2(d.hours), Pad2(d.minutes), Pad2(d.seconds);
    TimestampLayout(y, mo, dd, h, mi, s);
    ParseFields(Timestamp(d));
  }

  /** The index of the last `.` in `s`, if there is one. */
  function LastDot(s: string): (r: Option<nat>)
    ensures r.Some? ==> r.value < |s| && s[r.value] == '.'
                        && forall j :: r.value < j < |s| ==> s[j] != '.'
    ensures r.None? ==> forall j :: 0 <= j < |s| ==> s[j] != '.'
  {
    if s == [] then None
    else if s[|s| - 1] == '.' then Some(|s| - 1)
    else LastDot(s[..|s| - 1])
  }

  /** `name.split('.').pop().toLowerCase()` */
  function Extension(name: string): string {
    match LastDot(name)
    case Some(k) => Lower(name[k + 1..])
    case None => Lower(name)
  }

  /** The extension is the lower-cased text after the last `.`, or the whole lower-cased name.
      It never contains a `.`. */
  lemma ExtensionAfterLastDot(x: string, y: string)
    requires forall j :: 0 <= j < |y| ==> y[j] != '.'
    ensures Extension(x + "." + y) == Lower(y)
    ensures (forall j :: 0 <= j < |x| ==> x[j] != '.') ==> Extension(x) == Lower(x)
    ensures forall j :: 0 <= j < |Extension(x)| ==> Extension(x)[j] != '.'
  {
    var s := x + "." + y;
    assert s[|x|] == '.';
    forall j | |x| < j < |s| ensures s[j] != '.' {
      assert s[j] == y[j - |x| - 1];
    }
    match LastDot(s)
    case Some(k) =>
      assert k == |x|;
      assert s[k + 1..] == y;
    case None =>
  }

  predicate IsBase36Digit(c: char) {
    IsDigit(c) || IsLowerLetter(c)
  }

  /** The shape of `Math.random().toString(36)`: `"0"`, or `"0."` followed by base-36 digits. */
  predicate Base36Fraction(s: string) {
    s == "0" || (StartsWith(s, "0.") && forall i :: 2 <= i < |s| ==> IsBase36Digit(s[i]))
  }

  /** `random36.substring(2, 10)`: at most eight characters, all base-36 digits when the input
      has the shape `Math.random().toString(36)` produces; it can be shorter than eight. */
  function RandomSuffix(random36: string): (r: string)
    ensures |r| <= 8
    ensures Base36Fraction(random36) ==> forall i :: 0 <= i < |r| ==> IsBase36Digit(r[i])
  {
    var start := if |random36| < 2 then |random36| else 2;
    var end := if |random36| < 10 then |random36| else 10;
    random36[start..end]
  }

  /** `${prefix}_${timestamp}_${randomStr}.${fileExtension}` */
  function StorageFilename(prefix: string, timestamp: string, random: string, ext: string): string {
    prefix + "_" + timestamp + "_" + random + "." + ext
  }

  // ---------------------------------------------------------------------------
  // Upload
  // ---------------------------------------------------------------------------

  /** `base` with a `/` appended only when it does not already end in one. */
  function WithTrailingSlash(base: string): (r: string)
    ensures EndsWith(r, "/")
    ensures StartsWith(r, base)
    ensures EndsWith(base, "/") ==> r == base
    ensures |r| <= |base| + 1
  {
    if EndsWith(base, "/") then base else base + "/"
  }

  /** `${baseUrl}upload?key=${filePath}` */
  function UploadUrl(base: string, path: string): string {
    WithTrailingSlash(base) + "upload?key=" + path
  }

  /** `uploadFileToR2(file, prefix)`: guards, naming, the relay request, and its outcome. */
  function UploadFileToR2(file: Option<File>, prefix: string, now: DateFields, random36: string,
                          uploadBase: Option<string>, fetch: FetchResult): UploadAttempt
  {
    if file.None? then UploadAttempt(None, Err(NoFile))
    else if file.value.size > MaxUploadBytes then UploadAttempt(None, Err(FileTooLarge))
    else
      var filename := StorageFilename(prefix, Timestamp(now), RandomSuffix(random36), Extension(file.value.name));
      var path := Namespace + filename;
      if !Truthy(uploadBase) then UploadAttempt(None, Err(UploadUrlMissing))
      else
        var request := UploadRequest(UploadUrl(uploadBase.value, path), file.value.mimeType, file.value);
        match fetch
        case NetworkFailure(m) => UploadAttempt(Some(request), Err(FetchFailed(m)))
        case Responded(ok, status, statusText, text) =>
          if ok then UploadAttempt(Some(request), Ok(filename))
          else
            var detail := if text.Some? then text.value else "Unknown error";
            UploadAttempt(Some(request), Err(UploadRejected(status, statusText, detail)))
  }

  /** A request is sent exactly when there is a file of at most 10 MiB and an upload URL is
      configured: a missing file, an oversized file or a missing URL fails with no request.
      The size guard is `>`, so a file of exactly 10 MiB is sent. */
  lemma UploadSendsIffGuardsPass(file: Option<File>, prefix: string, now: DateFields, random36: string,
                                 uploadBase: Option<string>, fetch: FetchResult)
    ensures var a := UploadFileToR2(file, prefix, now, random36, uploadBase, fetch);
      && (a.sent.Some? <==> file.Some? && file.value.size <= MaxUploadBytes && Truthy(uploadBase))
      && (a.sent.None? ==> a.result.Err?)
      && (file.None? ==> a.result == Err(NoFile))
      && (file.Some? && file.value.size > MaxUploadBytes ==> a.result == Err(FileTooLarge))
      && (file.Some? && file.value.size <= MaxUploadBytes && !Truthy(uploadBase) ==> a.result == Err(UploadUrlMissing))
  {
  }

  /** On success the result is `prefix_timestamp_random.ext`, and the one request carried the
      file's own MIME type and the key `uploads/` + that filename in the configured URL.
      The upload succeeds exactly when the request was sent and the relay answered `ok`. */
  lemma UploadNaming(file: Option<File>, prefix: string, now: DateFields, random36: string,
                     uploadBase: Option<string>, fetch: FetchResult)
    ensures var a := UploadFileToR2(file, prefix, now, random36, uploadBase, fetch);
      && (a.result.Ok? <==> a.sent.Some? && fetch.Responded? && fetch.ok)
      && (a.result.Ok? ==>
            && a.result.value == StorageFilename(prefix, Timestamp(now), RandomSuffix(random36), Extension(file.value.name))
            && a.sent.value.url == UploadUrl(uploadBase.value, Namespace + a.result.value)
            && a.sent.value.contentType == file.value.mimeType
            && a.sent.value.file == file.value)
  {
  }

  /** The upload URL is the configured base, exactly one `/`, then `upload?key=` and the path. */
  lemma UploadUrlShape(base: string, path: string)
    ensures EndsWith(base, "/") ==> UploadUrl(base, path) == base + "upload?key=" + path
    ensures !EndsWith(base, "/") ==> UploadUrl(base, path) == base + "/upload?key=" + path
  {
  }

  // ---------------------------------------------------------------------------
  // Resolving a stored filename
  // ---------------------------------------------------------------------------

  predicate IsAbsoluteUrl(s: string) {
    StartsWith(s, "http://") || StartsWith(s, "https://")
  }

  /** `filename.replace(/^uploads\//, '')`: removes one leading `uploads/`, no more. */
  function StripNamespace(s: string): string {
    if StartsWith(s, Namespace) then s[|Namespace|..] else s
  }

  /** `getR2FileUrl(filename)` with `VITE_R2_PUBLIC_URL` given as `publicUrl`. */
  function GetR2FileUrl(filename: Option<string>, publicUrl: Option<string>): Option<string> {
    if !Truthy(filename) then None
    else if !Truthy(publicUrl) then Some(filename.value)
    else if IsAbsoluteUrl(filename.value) then Some(filename.value)
    else Some(publicUrl.value + "/uploads/" + StripNamespace(filename.value))
  }

  /** What resolution does in each case: no name gives null; without a public URL, or for an
      absolute `http(s)` URL, the name comes back unchanged; otherwise the result is
      `public/uploads/` followed by the name with one leading `uploads/` removed. */
  lemma ResolveCases(filename: Option<string>, publicUrl: Option<string>)
    ensures var r := GetR2FileUrl(filename, publicUrl);
      && (r.None? <==> !Truthy(filename))
      && (Truthy(filename) && (!Truthy(publicUrl) || IsAbsoluteUrl(filename.value)) ==> r == filename)
      && (Truthy(filename) && Truthy(publicUrl) && !IsAbsoluteUrl(filename.value) ==>
            && StartsWith(r.value, publicUrl.value + "/uploads/")
            && (StartsWith(filename.value, Namespace) ==> r.value == publicUrl.value + "/" + filename.value)
            && (!StartsWith(filename.value, Namespace) ==> r.value == publicUrl.value + "/uploads/" + filename.value))
  {
    if Truthy(filename) && Truthy(publicUrl) && !IsAbsoluteUrl(filename.value) {
      var f, p := filename.value, publicUrl.value;
      StartsWithConcat(p + "/uploads/", StripNamespace(f));
      if StartsWith(f, Namespace) {
        assert f == Namespace + f[|Namespace|..];
      }
    }
  }

  /** A name with a redundant `uploads/` resolves like the bare name, when the bare name is a
      non-empty, relative name without that prefix. */
  lemma ResolveIgnoresOneNamespace(f: string, publicUrl: Option<string>)
    requires f != "" && !StartsWith(f, Namespace) && !IsAbsoluteUrl(f)
    requires Truthy(publicUrl)
    ensures GetR2FileUrl(Some(Namespace + f), publicUrl) == GetR2FileUrl(Some(f), publicUrl)
  {
    var g := Namespace + f;
    assert g[..|Namespace|] == Namespace;
    assert g[|Namespace|..] == f;
    assert !IsAbsoluteUrl(g) by {
      NotStartsWithAt(g, "http://", 0);
      NotStartsWithAt(g, "https://", 0);
    }
  }

  /** Only one leading `uploads/` is removed: a doubled prefix keeps its second copy. */
  lemma ResolveStripsOnlyOnce(f: string, publicUrl: Option<string>)
    requires Truthy(publicUrl)
    ensures GetR2FileUrl(Some("uploads/uploads/" + f), publicUrl)
         == Some(publicUrl.value + "/uploads/uploads/" + f)
  {
    var g := "uploads/uploads/" + f;
    assert g[..|Namespace|] == Namespace;
    assert g[|Namespace|..] == "uploads/" + f;
    assert !IsAbsoluteUrl(g) by {
      NotStartsWithAt(g, "http://", 0);
      NotStartsWithAt(g, "https://", 0);
    }
    assert publicUrl.value + "/uploads/" + ("uploads/" + f) == publicUrl.value + "/uploads/uploads/" + f;
  }

  predicate NoSlash(s: string) {
    forall i :: 0 <= i < |s| ==> s[i] != '/'
  }

  /** A relative name without the namespace prefix resolves to `public/uploads/name`. */
  lemma ResolveRelative(f: string, publicUrl: Option<string>)
    requires f != "" && !StartsWith(f, Namespace) && !IsAbsoluteUrl(f) && Truthy(publicUrl)
    ensures GetR2FileUrl(Some(f), publicUrl) == Some(publicUrl.value + "/" + Namespace + f)
  {
    assert publicUrl.value + "/uploads/" + f == publicUrl.value + "/" + Namespace + f;
  }

  /** Resolving a name the client generated gives the public URL of the key the relay was
      sent: `public/` + `uploads/` + filename (`UploadNaming` says an upload returns exactly
      such a name). The prefix must contain no `/`: the client's prefixes are user ids and
      the literal `post`. */
  lemma ResolveUploadedFilename(prefix: string, timestamp: string, random: string, ext: string,
                                publicUrl: Option<string>)
    requires NoSlash(prefix) && Truthy(publicUrl)
    ensures var f := StorageFilename(prefix, timestamp, random, ext);
      GetR2FileUrl(Some(f), publicUrl) == Some(publicUrl.value + "/" + Namespace + f)
  {
    var f := StorageFilename(prefix, timestamp, random, ext);
    var rest := timestamp + "_" + random + "." + ext;
    assert f == prefix + "_" + rest;
    SlashFreePrefixBlocks(prefix, rest, Namespace, 7);
    SlashFreePrefixBlocks(prefix, rest, "http://", 5);
    SlashFreePrefixBlocks(prefix, rest, "https://", 6);
    ResolveRelative(f, publicUrl);
  }

  // ---------------------------------------------------------------------------
  // Type filter
  // ---------------------------------------------------------------------------

  /** `type.split('/')[0]` */
  function FirstSegment(s: string): (r: string)
    ensures StartsWith(s, r)
    ensures NoSlash(r)
    ensures |r| < |s| ==> s[|r|] == '/'
  {
    if s == [] || s[0] == '/' then [] else [s[0]] + FirstSegment(s[1..])
  }

  /** One entry of the allow-list: a wildcard entry `x/` + `*` matches every type that starts
      `x/`; any other entry
      matches the exact type, or a suffix of the lower-cased file name. */
  predicate EntryMatches(file: File, entry: string) {
    if EndsWith(entry, "/*") then StartsWith(file.mimeType, FirstSegment(entry) + "/")
    else file.mimeType == entry || EndsWith(Lower(file.name), entry)
  }

  /** `allowedTypes.some(...)` */
  function AnyEntryMatches(file: File, allowed: seq<string>): (r: bool)
    ensures r <==> exists i :: 0 <= i < |allowed| && EntryMatches(file, allowed[i])
  {
    if allowed == [] then false
    else EntryMatches(file, allowed[0]) || AnyEntryMatches(file, allowed[1..])
  }

  /** `validateFileType(file, allowedTypes)` */
  function ValidateFileType(file: Option<File>, allowed: seq<string>): (r: bool)
    ensures r <==> file.Some? && exists i :: 0 <= i < |allowed| && EntryMatches(file.value, allowed[i])
    ensures allowed == [] ==> !r
  {
    file.Some? && AnyEntryMatches(file.value, allowed)
  }

  /** The segment before the first `/` of `seg + "/" + rest` is `seg` when `seg` has no `/`. */
  lemma FirstSegmentOf(seg: string, rest: string)
    requires NoSlash(seg)
    ensures FirstSegment(seg + "/" + rest) == seg
  {
    var s := seg + "/" + rest;
    var r := FirstSegment(s);
    if |r| > |seg| {
      StartsWithAt(s, r, |seg|);
    }
    assert |r| == |seg|;
    assert s[..|seg|] == seg;
  }

  /** A wildcard entry `seg/` + `*` accepts exactly the types that start `seg/`. */
  lemma WildcardEntry(file: File, seg: string)
    requires NoSlash(seg)
    ensures EntryMatches(file, seg + "/*") <==> StartsWith(file.mimeType, seg + "/")
  {
    var entry := seg + "/*";
    assert entry == seg + "/" + "*";
    FirstSegmentOf(seg, "*");
    assert entry[|entry| - 2..] == "/*";
  }

  /** A two-entry list accepts what either entry accepts. */
  lemma AnyOfTwo(file: File, a: string, b: string)
    ensures AnyEntryMatches(file, [a, b]) <==> EntryMatches(file, a) || EntryMatches(file, b)
  {
    assert [a, b][1..] == [b];
    assert [b][1..] == [];
  }

  /** With the default list of the two wildcards for `image/` and `video/` a file passes exactly when its declared
      type starts `image/` or `video/`; the name plays no part. */
  lemma ValidateDefaultMediaTypes(file: File)
    ensures ValidateFileType(Some(file), ["image/*", "video/*"])
        <==> StartsWith(file.mimeType, "image/") || StartsWith(file.mimeType, "video/")
  {
    WildcardEntry(file, "image");
    WildcardEntry(file, "video");
    AnyOfTwo(file, "image" + "/*", "video" + "/*");
    assert "image" + "/*" == "image/*" && "video" + "/*" == "video/*";
    assert "image" + "/" == "image/" && "video" + "/" == "video/";
  }

  // ---------------------------------------------------------------------------
  // Delete
  // ---------------------------------------------------------------------------

  /** The key a delete names: `uploads/` is added only when absent. */
  function DeleteKey(filename: string): (k: string)
    ensures StartsWith(k, Namespace)
    ensures StartsWith(filename, Namespace) ==> k == filename
    ensures !StartsWith(filename, Namespace) ==> k == Namespace + filename
  {
    if StartsWith(filename, Namespace) then filename
    else
      StartsWithConcat(Namespace, filename);
      Namespace + filename
  }

  /** Prefixing is idempotent: naming an already-prefixed key again changes nothing. */
  lemma DeleteKeyIdempotent(filename: string)
    ensures DeleteKey(DeleteKey(filename)) == DeleteKey(filename)
  {
  }

  /** `${baseUrl}delete?key=${filePath}` */
  function DeleteUrl(base: string, filename: string): string {
    WithTrailingSlash(base) + "delete?key=" + DeleteKey(filename)
  }

  /** `deleteFileFromR2(filename)` */
  function DeleteFileFromR2(filename: Option<string>, uploadBase: Option<string>, fetch: FetchResult): DeleteAttempt {
    if !Truthy(filename) then DeleteAttempt(None, Err(NoFilename))
    else if !Truthy(uploadBase) then DeleteAttempt(None, Err(DeleteUrlMissing))
    else
      var url := DeleteUrl(uploadBase.value, filename.value);
      match fetch
      case NetworkFailure(m) => DeleteAttempt(Some(url), Err(FetchFailed(m)))
      case Responded(ok, status, statusText, _) =>
        if ok then DeleteAttempt(Some(url), Ok(()))
        else DeleteAttempt(Some(url), Err(DeleteRejected(status, statusText)))
  }

  /** An empty filename or a missing upload URL fails without a request; otherwise one DELETE
      is sent to the configured base with the namespaced key, and it succeeds iff the relay
      answered `ok`. */
  lemma DeleteRequest(filename: Option<string>, uploadBase: Option<string>, fetch: FetchResult)
    ensures var a := DeleteFileFromR2(filename, uploadBase, fetch);
      && (!Truthy(filename) ==> a == DeleteAttempt(None, Err(NoFilename)))
      && (a.sent.Some? <==> Truthy(filename) && Truthy(uploadBase))
      && (a.sent.Some? ==> a.sent.value == WithTrailingSlash(uploadBase.value) + "delete?key=" + DeleteKey(filename.value))
      && (a.result.Ok? <==> a.sent.Some? && fetch.Responded? && fetch.ok)
  {
  }
}

/**
 * Export naming of `usePhotoExporter` (src/hooks/usePhotoExporter.js): the
 * username slug, the format's MIME type and extension, and the file name
 * built by export and share. Blob encoding, download links and the Web Share
 * API are platform calls; the timestamp is a parameter.
 */
module PhotoExporter {
  import opened Wrappers

  /** An ASCII capital letter. */
  predicate IsUpperAscii(c: char) {
    'A' <= c <= 'Z'
  }

  /** `toLowerCase` on ASCII letters; other characters are kept. */
  function ToLowerAscii(c: char): (d: char)
    ensures !IsUpperAscii(d)
    ensures IsUpperAscii(c) ==> d as int == c as int + 32
    ensures !IsUpperAscii(c) ==> d == c
  {
    if IsUpperAscii(c) then (c as int + 32) as char else c
  }

  /** A character matched by the regular-expression class `\s`. */
  predicate IsWhitespace(c: char) {
    || c == ' ' || c == '\t' || c == '\n' || c == '\U{000B}' || c == '\U{000C}' || c == '\r'
    || c == '\U{00A0}' || c == '\U{1680}' || ('\U{2000}' <= c <= '\U{200A}')
    || c == '\U{2028}' || c == '\U{2029}' || c == '\U{202F}' || c == '\U{205F}'
    || c == '\U{3000}' || c == '\U{FEFF}'
  }

  /** Lower-casing, then every whitespace character replaced by '-'. */
  function SlugChars(s: string): (t: string)
    ensures |t| == |s|
    ensures forall i :: 0 <= i < |s| ==>
              t[i] == (if IsWhitespace(ToLowerAscii(s[i])) then '-' else ToLowerAscii(s[i]))
    ensures forall i :: 0 <= i < |t| ==> !IsWhitespace(t[i]) && !IsUpperAscii(t[i])
  {
    if s == [] then []
    else
      var c := ToLowerAscii(s[0]);
      [if IsWhitespace(c) then '-' else c] + SlugChars(s[1..])
  }

  /** `getFormattedUsername`: empty for a missing or empty name, else '-' and the slug. */
  function FormattedUsername(username: Option<string>): (slug: string)
    ensures username.None? || username.value == "" <==> slug == ""
    ensures slug != "" ==> |slug| == |username.value| + 1 && slug[0] == '-'
                           && slug[1..] == SlugChars(username.value)
    ensures forall i :: 0 <= i < |slug| ==> !IsWhitespace(slug[i]) && !IsUpperAscii(slug[i])
  {
    if username.None? || username.value == "" then ""
    else "-" + SlugChars(username.value)
  }

  /** The MIME type and file extension of an export. */
  datatype FormatDetails = FormatDetails(mimeType: string, extension: string)

  /** `getFormatDetails`: `format` defaults to "png" when undefined. */
  function GetFormatDetails(format: Option<string>): (d: FormatDetails)
    ensures d == FormatDetails("image/jpeg", "jpg") || d == FormatDetails("image/png", "png")
  {
    var f := if format.Some? then format.value else "png";
    if f == "jpg" then FormatDetails("image/jpeg", "jpg") else FormatDetails("image/png", "png")
  }

  /** Only the exact format "jpg" exports JPEG; "jpeg", "JPG" and everything else export PNG. */
  lemma OnlyJpgIsJpeg(format: Option<string>)
    ensures GetFormatDetails(format).mimeType == "image/jpeg" <==> format == Some("jpg")
    ensures GetFormatDetails(format).extension == "jpg" <==> format == Some("jpg")
    ensures GetFormatDetails(Some("jpeg")) == FormatDetails("image/png", "png")
  {
  }

  /** The decimal digits of a natural number, as a template literal prints it. */
  function DecimalString(n: nat): (s: string)
    ensures |s| >= 1
    ensures forall i :: 0 <= i < |s| ==> '0' <= s[i] <= '9'
    ensures s[0] == '0' ==> n == 0
    decreases n
  {
    var d := ['0' + (n % 10) as char];
    if n < 10 then d else DecimalString(n / 10) + d
  }

  /** The number a string of decimal digits denotes. */
  function DecimalValue(s: string): nat
    requires forall i :: 0 <= i < |s| ==> '0' <= s[i] <= '9'
  {
    if s == [] then 0 else DecimalValue(s[..|s| - 1]) * 10 + (s[|s| - 1] - '0') as int
  }

  /** Printing a timestamp loses nothing: its digits read back as the same number. */
  lemma {:induction false} DecimalStringValue(n: nat)
    ensures DecimalValue(DecimalString(n)) == n
    decreases n
  {
    var s := DecimalString(n);
    if n >= 10 {
      DecimalStringValue(n / 10);
      assert s[..|s| - 1] == DecimalString(n / 10);
    }
  }

  /** "gbcam", the username slug, '-', the palette id, '-', the timestamp, '.', the extension. */
  function ExportFilename(username: Option<string>, paletteId: string, timestamp: nat, format: Option<string>): (name: string)
    ensures var slug := FormattedUsername(username);
            var digits := DecimalString(timestamp);
            && |name| == 5 + |slug| + 1 + |paletteId| + 1 + |digits| + 4
            && name[..5] == "gbcam"
            && name[5..5 + |slug|] == slug
            && name[5 + |slug|] == '-'
            && name[6 + |slug|..6 + |slug| + |paletteId|] == paletteId
            && name[6 + |slug| + |paletteId|] == '-'
            && name[7 + |slug| + |paletteId|..|name| - 4] == digits
            && name[|name| - 4..] == "." + GetFormatDetails(format).extension
  {
    var slug := FormattedUsername(username);
    var digits := DecimalString(timestamp);
    var suffix := "." + GetFormatDetails(format).extension;
    var head := "gbcam" + slug;
    var middle := head + "-" + paletteId;
    var name := middle + "-" + digits + suffix;
    assert |suffix| == 4;
    assert name == middle + ("-" + digits + suffix);
    assert name[..|middle|] == middle;
    assert middle[..|head|] == head;
    assert name[..|head|] == head;
    assert name[..5] == head[..5] == "gbcam";
    assert name[5..5 + |slug|] == head[5..];
    assert name[5 + |slug|] == middle[|head|] == '-';
    assert name[6 + |slug|..6 + |slug| + |paletteId|] == middle[|head| + 1..];
    assert name == (middle + "-" + digits) + suffix;
    name
  }

  /** A file name that starts "gbcam" and ends with a dot and one of the two extensions. */
  lemma ExportFilenameShape(username: Option<string>, paletteId: string, timestamp: nat, format: Option<string>)
    ensures var name := ExportFilename(username, paletteId, timestamp, format);
            && name[..5] == "gbcam"
            && (name[|name| - 4..] == ".jpg" <==> format == Some("jpg"))
            && (format != Some("jpg") ==> name[|name| - 4..] == ".png")
  {
    var name := ExportFilename(username, paletteId, timestamp, format);
    var ext := GetFormatDetails(format).extension;
    var stem := "gbcam" + FormattedUsername(username) + "-" + paletteId + "-" + DecimalString(timestamp);
    assert name == stem + ("." + ext);
    assert name[|name| - 4..] == "." + ext;
    OnlyJpgIsJpeg(format);
    if format != Some("jpg") {
      assert ext == "png" && (name[|name| - 4..])[1] == 'p';
    }
  }

  /** What `handleExport` hands to the download link. */
  datatype Download = Download(filename: string, mimeType: string, quality: real)

  /** What `handleShare` hands to the share sheet. */
  datatype SharedFile = SharedFile(filename: string, mimeType: string, quality: real)

  /** `handleExport`: nothing without a save canvas, else a download of the encoded canvas. */
  function HandleExport(hasSaveCanvas: bool, username: Option<string>, paletteId: string,
                        format: Option<string>, quality: real, timestamp: nat): (r: Option<Download>)
    ensures r.Some? <==> hasSaveCanvas
    ensures r.Some? ==> r.value.filename == ExportFilename(username, paletteId, timestamp, format)
                        && r.value.mimeType == GetFormatDetails(format).mimeType
                        && r.value.quality == quality
  {
    if !hasSaveCanvas then None
    else
      var d := GetFormatDetails(format);
      Some(Download(ExportFilename(username, paletteId, timestamp, format), d.mimeType, quality))
  }

  /**
   * `handleShare`: nothing without a save canvas or when the browser cannot
   * share the file, else the file handed to the share sheet.
   */
  function HandleShare(hasSaveCanvas: bool, canShare: bool, username: Option<string>, paletteId: string,
                       format: Option<string>, quality: real, timestamp: nat): (r: Option<SharedFile>)
    ensures r.Some? <==> hasSaveCanvas && canShare
    ensures r.Some? ==> r.value.filename == ExportFilename(username, paletteId, timestamp, format)
                        && r.value.mimeType == GetFormatDetails(format).mimeType
                        && r.value.quality == quality
  {
    if !hasSaveCanvas then None
    else
      var d := GetFormatDetails(format);
      var file := SharedFile(ExportFilename(username, paletteId, timestamp, format), d.mimeType, quality);
      if canShare then Some(file) else None
  }

  /** Export and share at the same instant name and type the file identically. */
  lemma ExportAndShareAgree(username: Option<string>, paletteId: string, format: Option<string>,
                            quality: real, timestamp: nat)
    ensures var e := HandleExport(true, username, paletteId, format, quality, timestamp);
            var s := HandleShare(true, true, username, paletteId, format, quality, timestamp);
            e.Some? && s.Some? && e.value.filename == s.value.filename && e.value.mimeType == s.value.mimeType
  {
  }
}

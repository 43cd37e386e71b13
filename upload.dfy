/**
 * The validation prologue of `generate` (app.py:79-89): the file name,
 * then the API key, then the size, each rejected with its own status.
 */
module Upload {
  import opened Types

  /**
   * Python's `str.isspace`, the set `str.strip()` removes: the ASCII
   * controls 9-13 and 28-31, the space, NEL, NO-BREAK SPACE and the
   * Unicode space separators and line/paragraph separators.
   */
  predicate IsPySpace(c: char) {
    var n := c as int;
    (9 <= n <= 13) || (28 <= n <= 32) || n == 0x85 || n == 0xA0 || n == 0x1680 ||
    (0x2000 <= n <= 0x200A) || n == 0x2028 || n == 0x2029 || n == 0x202F ||
    n == 0x205F || n == 0x3000
  }

  /** `s.lstrip()`: the longest whitespace prefix is removed. */
  function TrimStart(s: string): (r: string)
    ensures |r| <= |s| && r == s[|s| - |r|..]
    ensures forall k :: 0 <= k < |s| - |r| ==> IsPySpace(s[k])
    ensures r != [] ==> !IsPySpace(r[0])
    decreases |s|
  {
    if s != [] && IsPySpace(s[0]) then TrimStart(s[1..]) else s
  }

  /** `s.rstrip()`: the longest whitespace suffix is removed. */
  function TrimEnd(s: string): (r: string)
    ensures |r| <= |s| && r == s[..|r|]
    ensures forall k :: |r| <= k < |s| ==> IsPySpace(s[k])
    ensures r != [] ==> !IsPySpace(r[|r| - 1])
    decreases |s|
  {
    if s != [] && IsPySpace(s[|s| - 1]) then TrimEnd(s[..|s| - 1]) else s
  }

  /** `s.strip()` (app.py:82). */
  function Strip(s: string): string {
    TrimEnd(TrimStart(s))
  }

  /** `strip` leaves nothing exactly when the key is all whitespace (app.py:82-83). */
  lemma StripEmptyIff(s: string)
    ensures Strip(s) == [] <==> forall c :: c in s ==> IsPySpace(c)
  {
    var t := TrimStart(s);
    if Strip(s) != [] {
      var r := Strip(s);
      assert r[0] == t[0] == s[|s| - |t|];
    }
  }

  /** `str.lower` on one character, restricted to ASCII. */
  function LowerAscii(c: char): char {
    if 'A' <= c <= 'Z' then (c as int + 32) as char else c
  }

  /** `s.lower()`, restricted to ASCII. */
  function Lower(s: string): (r: string)
    ensures |r| == |s|
  {
    seq(|s|, i requires 0 <= i < |s| => LowerAscii(s[i]))
  }

  predicate EndsWith(s: string, suffix: string) {
    |suffix| <= |s| && s[|s| - |suffix|..] == suffix
  }

  /** `file.filename and file.filename.lower().endswith(".pdf")` (app.py:79). */
  predicate IsPdfName(filename: Option<string>) {
    filename.Some? && filename.value != [] && EndsWith(Lower(filename.value), ".pdf")
  }

  /**
   * The extension test read out: the name ends in a dot followed by
   * `p`, `d`, `f` in either case; nothing else about the name matters.
   */
  lemma IsPdfNameIff(name: string)
    ensures IsPdfName(Some(name)) <==>
      |name| >= 4 && name[|name| - 4] == '.' &&
      name[|name| - 3] in "pP" && name[|name| - 2] in "dD" && name[|name| - 1] in "fF"
  {
    if |name| >= 4 {
      var n := |name|;
      var low := Lower(name);
      assert low[n - 4..] == [low[n - 4], low[n - 3], low[n - 2], low[n - 1]];
    }
  }

  /** The ceiling's unit: `size_mb` is `len(pdf_bytes) / (1024 * 1024)` (app.py:87). */
  const BytesPerMb: nat := 1024 * 1024

  /** Why an upload was turned away before any job existed. */
  datatype Rejection =
    | NotPdf                                   // app.py:79-80
    | MissingKey                               // app.py:83-84
    | TooLarge(sizeBytes: nat, maxUploadMb: int) // app.py:88-89

  /** The HTTP status each rejection is raised with. */
  function Status(r: Rejection): int {
    match r
    case NotPdf => 400
    case MissingKey => 400
    case TooLarge(_, _) => 413
  }

  /** The `detail` of the first two rejections; the 413 text is formatted from a float. */
  function Detail(r: Rejection): string
    requires !r.TooLarge?
  {
    if r.NotPdf? then "File must be a PDF" else "Gemini API key is required"
  }

  /** What validation hands on: the stripped key, or the reason for refusal. */
  datatype Verdict = Admitted(apiKey: string) | Rejected(reason: Rejection)

  /** The three checks of app.py:79-89, in the order the code makes them. */
  function ValidateUpload(filename: Option<string>, apiKey: string, sizeBytes: nat, maxUploadMb: int): Verdict {
    if !IsPdfName(filename) then Rejected(NotPdf)
    else if Strip(apiKey) == [] then Rejected(MissingKey)
    else if sizeBytes > maxUploadMb * BytesPerMb then Rejected(TooLarge(sizeBytes, maxUploadMb))
    else Admitted(Strip(apiKey))
  }

  /**
   * Validation is ordered and total: a bad name is reported first; a
   * key that is all whitespace second; an upload above the ceiling
   * third (413); only when all three pass is the upload admitted, with
   * the key stripped.
   */
  lemma ValidationOrder(filename: Option<string>, apiKey: string, sizeBytes: nat, maxUploadMb: int)
    ensures var a := ValidateUpload(filename, apiKey, sizeBytes, maxUploadMb);
      && (a == Rejected(NotPdf) <==> !IsPdfName(filename))
      && (a == Rejected(MissingKey) <==>
            IsPdfName(filename) && forall c :: c in apiKey ==> IsPySpace(c))
      && (a.Rejected? && a.reason.TooLarge? <==>
            IsPdfName(filename) && (exists c :: c in apiKey && !IsPySpace(c)) &&
            sizeBytes > maxUploadMb * BytesPerMb)
      && (a.Admitted? <==>
            IsPdfName(filename) && (exists c :: c in apiKey && !IsPySpace(c)) &&
            sizeBytes <= maxUploadMb * BytesPerMb)
      && (a.Rejected? ==> Status(a.reason) == if a.reason.TooLarge? then 413 else 400)
      && (a.Admitted? ==> a.apiKey == Strip(apiKey) && a.apiKey != [])
  {
    StripEmptyIff(apiKey);
  }
}

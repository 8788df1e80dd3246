/**
  The `POST /api/upload` handler: argument validation, the split of a
  base64 data URL by the regular expression `^data:(.+?);base64,(.+)$`, and
  the mapping of the storage upload's outcome onto the JSON response. The
  storage call is a parameter that receives the parsed pair.
 */
module Upload {
  import opened Wrappers
  import opened Js
  import opened Text

  /** The one property the handler destructures from the parsed body. */
  datatype UploadBody = UploadBody(dataUrl: JsValue)

  /** `{ url }` with status 200, or `{ error }` with a non-2xx status. */
  datatype Response = Uploaded(url: string) | Failed(status: ErrorStatus, error: string)

  /** The two capture groups of a match. */
  datatype DataUrl = DataUrl(mimeType: string, base64Data: string)

  const Prefix := "data:"
  const Separator := ";base64,"

  const MissingDataUrlMessage := "dataUrl is required"
  const InvalidFormatMessage := "Invalid data URL format"
  const DefaultFailureMessage := "Upload failed"

  // ---------------------------------------------------------------------------
  // The regular expression
  // ---------------------------------------------------------------------------

  /** `s[i..]` begins with `;base64,`. */
  predicate SeparatorAt(s: string, i: int) {
    0 <= i && i + |Separator| <= |s| && s[i..i + |Separator|] == Separator
  }

  /** `s` contains `;base64,` somewhere. */
  predicate ContainsSeparator(s: string) {
    exists i :: 0 <= i < |s| && SeparatorAt(s, i)
  }

  /**
    The pattern after `^data:` matches `rest` with the lazy group 1 taking
    exactly `k` characters: `.+?` needs `k >= 1` characters that are not line
    terminators, then the separator, then `(.+)$` needs a non-empty tail of
    such characters reaching the end.
   */
  predicate MatchesAt(rest: string, k: int) {
    && 1 <= k
    && k + |Separator| < |rest|
    && SeparatorAt(rest, k)
    && NoLineTerminator(rest[..k])
    && NoLineTerminator(rest[k + |Separator|..])
  }

  /** The first length `k' >= k` group 1 can take, as the backtracking matcher tries them in order. */
  function FirstMatch(rest: string, k: nat): (r: Option<nat>)
    ensures r.Some? ==> k <= r.value && MatchesAt(rest, r.value)
    ensures r.Some? ==> forall j :: k <= j < r.value ==> !MatchesAt(rest, j)
    ensures r.None? ==> forall j :: k <= j ==> !MatchesAt(rest, j)
    decreases |rest| - k
  {
    if |rest| <= k + |Separator| then None
    else if MatchesAt(rest, k) then Some(k)
    else FirstMatch(rest, k + 1)
  }

  /** `s.match(/^data:(.+?);base64,(.+)$/)`, returning the two groups. */
  function ParseDataUrl(s: string): (r: Option<DataUrl>)
    ensures r.Some? <==> |Prefix| <= |s| && s[..|Prefix|] == Prefix && exists k :: MatchesAt(s[|Prefix|..], k)
    ensures r.Some? ==> r.value.mimeType != "" && r.value.base64Data != ""
    ensures r.Some? ==> Prefix + r.value.mimeType + Separator + r.value.base64Data == s
    ensures r.Some? ==> NoLineTerminator(r.value.mimeType) && NoLineTerminator(r.value.base64Data)
    ensures r.Some? ==> forall j :: 0 <= j < |r.value.mimeType| ==> !MatchesAt(s[|Prefix|..], j)
  {
    if |s| < |Prefix| || s[..|Prefix|] != Prefix then None
    else
      var rest := s[|Prefix|..];
      match FirstMatch(rest, 1)
      case None => None
      case Some(k) =>
        assert s == Prefix + rest[..k] + Separator + rest[k + |Separator|..] by {
          assert rest[k..k + |Separator|] == Separator;
          assert rest == rest[..k] + rest[k..k + |Separator|] + rest[k + |Separator|..];
        }
        Some(DataUrl(rest[..k], rest[k + |Separator|..]))
  }

  /** The separator starts with `;` and has no other `;`, so no occurrence can straddle one. */
  lemma NoSeparatorStraddles(m: string, p: string, j: int)
    requires !ContainsSeparator(m)
    requires 0 <= j < |m|
    ensures !SeparatorAt(m + Separator + p, j)
  {
    var s := m + Separator + p;
    if j + |Separator| <= |m| {
      assert s[j..j + |Separator|] == m[j..j + |Separator|];
      assert !SeparatorAt(m, j);
    } else if j + |Separator| <= |s| {
      var d := |m| - j;
      assert s[j..j + |Separator|][d] == s[|m|] == ';';
      assert Separator[d] != ';';
    }
  }

  /**
    Formatting a MIME type and payload as a data URL and parsing it back is the
    identity, provided the MIME type has no `;base64,` of its own and neither
    part has a line terminator.
   */
  lemma FormatThenParse(m: string, p: string)
    requires m != "" && p != ""
    requires !ContainsSeparator(m)
    requires NoLineTerminator(m) && NoLineTerminator(p)
    ensures ParseDataUrl(Prefix + m + Separator + p) == Some(DataUrl(m, p))
  {
    var s := Prefix + m + Separator + p;
    var rest := m + Separator + p;
    assert s[..|Prefix|] == Prefix && s[|Prefix|..] == rest;
    assert rest[..|m|] == m && rest[|m| + |Separator|..] == p;
    assert rest[|m|..|m| + |Separator|] == Separator;
    assert MatchesAt(rest, |m|);
    forall j | 1 <= j < |m|
      ensures !MatchesAt(rest, j)
    {
      NoSeparatorStraddles(m, p, j);
    }
    var k := FirstMatch(rest, 1).value;
    assert k == |m|;
  }

  /** A data URL with an empty MIME type never matches, whatever follows. */
  lemma EmptyMimeTypeRejected(p: string)
    requires !ContainsSeparator(p)
    ensures ParseDataUrl(Prefix + Separator + p).None?
  {
    var s := Prefix + Separator + p;
    var rest := Separator + p;
    assert s[|Prefix|..] == rest;
    forall k | 1 <= k && k + |Separator| <= |rest|
      ensures !SeparatorAt(rest, k)
    {
      if k < |Separator| {
        assert rest[k..k + |Separator|][0] == rest[k] == Separator[k] != ';';
      } else {
        assert rest[k..k + |Separator|] == p[k - |Separator|..k];
        assert !SeparatorAt(p, k - |Separator|);
      }
    }
  }

  // ---------------------------------------------------------------------------
  // The handler
  // ---------------------------------------------------------------------------

  /** The argument check and the parse: the 400 answers, or the pair to upload. */
  function Validate(body: UploadBody): (r: Result<DataUrl, Response>)
    ensures !(body.dataUrl.Str? && body.dataUrl.s != "") ==> r == Failure(Failed(400, MissingDataUrlMessage))
    ensures body.dataUrl.Str? && body.dataUrl.s != "" ==>
      match ParseDataUrl(body.dataUrl.s)
      case None => r == Failure(Failed(400, InvalidFormatMessage))
      case Some(d) => r == Success(d)
  {
    if !Truthy(body.dataUrl) || !body.dataUrl.Str? then Failure(Failed(400, MissingDataUrlMessage))
    else
      match ParseDataUrl(body.dataUrl.s)
      case None => Failure(Failed(400, InvalidFormatMessage))
      case Some(d) => Success(d)
  }

  /**
    The whole handler. `request` is the outcome of `req.json()`; `store`
    stands for building the blob and `fal.storage.upload(blob)`.
   */
  function Post(request: Attempt<UploadBody>, store: DataUrl -> Attempt<string>): (r: Response)
    ensures request.Threw? ==> r == Failed(500, CaughtMessage(request.thrown, DefaultFailureMessage))
    ensures request.Returned? && Validate(request.value).Success? ==>
      match store(Validate(request.value).value)
      case Threw(e) => r == Failed(500, CaughtMessage(e, DefaultFailureMessage))
      case Returned(url) => r == Uploaded(url)
    ensures request.Returned? && Validate(request.value).Failure? ==> r == Validate(request.value).error
    ensures r.Failed? && r.status == 400 <==> request.Returned? && Validate(request.value).Failure?
    ensures r.Uploaded? ==>
      && request.Returned?
      && request.value.dataUrl.Str?
      && ParseDataUrl(request.value.dataUrl.s).Some?
      && store(ParseDataUrl(request.value.dataUrl.s).value) == Returned(r.url)
  {
    match request
    case Threw(e) => Failed(500, CaughtMessage(e, DefaultFailureMessage))
    case Returned(body) =>
      match Validate(body)
      case Failure(response) => response
      case Success(d) =>
        match store(d)
        case Threw(e) => Failed(500, CaughtMessage(e, DefaultFailureMessage))
        case Returned(url) => Uploaded(url)
  }

  /** A rejected upload is answered with one of the two 400 messages, without touching storage. */
  lemma RejectedUploadsNeverReachStorage(
    request: Attempt<UploadBody>,
    store: DataUrl -> Attempt<string>,
    other: DataUrl -> Attempt<string>)
    requires request.Returned? && Validate(request.value).Failure?
    ensures Post(request, store) == Post(request, other)
    ensures Post(request, store) == Failed(400, MissingDataUrlMessage)
         || Post(request, store) == Failed(400, InvalidFormatMessage)
  {
  }

  /** A data URL formatted from a pair the pattern accepts reaches storage as exactly that pair. */
  lemma FormattedUploadIsStored(m: string, p: string, store: DataUrl -> Attempt<string>)
    requires m != "" && p != ""
    requires !ContainsSeparator(m)
    requires NoLineTerminator(m) && NoLineTerminator(p)
    ensures Validate(UploadBody(Str(Prefix + m + Separator + p))) == Success(DataUrl(m, p))
    ensures store(DataUrl(m, p)).Returned? ==>
      Post(Returned(UploadBody(Str(Prefix + m + Separator + p))), store) == Uploaded(store(DataUrl(m, p)).value)
  {
    FormatThenParse(m, p);
  }
}

/** get_api_key: validation of the Authorization header against the
    configured key. The header arrives as None when it is absent. */
module Security {
  import opened Wrappers
  import opened Text

  /** The HTTPException raised: its status code and detail text. */
  datatype AuthFailure = AuthFailure(status: nat, detail: string)

  const HTTP_401_UNAUTHORIZED: nat := 401
  const HTTP_403_FORBIDDEN: nat := 403

  const MISSING_KEY: string := "An API key is required. Please include it in the 'Authorization' header as 'Bearer <key>'."
  const BAD_FORMAT: string := "Invalid API key format. Expected 'Bearer <key>'."
  const WRONG_KEY: string := "Invalid API Key"

  /** get_api_key: split at the first space, compare the scheme without
      regard to case, then compare the key with the configured one. */
  function GetApiKey(header: Option<string>, configured: string): (r: Result<string, AuthFailure>)
    ensures r.Ok? ==> r.value == configured
    ensures r.Err? ==> r.error.status == HTTP_403_FORBIDDEN || r.error.status == HTTP_401_UNAUTHORIZED
    ensures header.None? ==> r == Err(AuthFailure(HTTP_403_FORBIDDEN, MISSING_KEY))
  {
    if header.None? || header.value == "" then
      Err(AuthFailure(HTTP_403_FORBIDDEN, MISSING_KEY))
    else
      var (scheme, key) := Partition(header.value, ' ');
      if Lower(scheme) != "bearer" || key == "" then
        Err(AuthFailure(HTTP_403_FORBIDDEN, BAD_FORMAT))
      else if key != configured then
        Err(AuthFailure(HTTP_401_UNAUTHORIZED, WRONG_KEY))
      else
        Ok(key)
  }

  /** "Bearer <key>" with any case in the scheme, one space, and a
      non-empty key (which may itself hold spaces). */
  predicate WellFormed(h: string)
  {
    |h| > 7 && Lower(h[..6]) == "bearer" && h[6] == ' '
  }

  /** The key part of a well-formed header. */
  function BearerKey(h: string): (key: string)
    requires WellFormed(h)
    ensures |key| > 0 && h == h[..7] + key
  {
    h[7..]
  }

  /** The first space decides the split: the scheme and the key parts the
      function compares are exactly those of WellFormed and BearerKey. */
  lemma {:induction false} PartitionOfHeader(h: string)
    ensures (Lower(Partition(h, ' ').0) == "bearer" && Partition(h, ' ').1 != "") <==> WellFormed(h)
    ensures WellFormed(h) ==> Partition(h, ' ').1 == BearerKey(h)
  {
    var r := Partition(h, ' ');
    if WellFormed(h) {
      assert ' ' !in h[..6] by {
        forall i | 0 <= i < 6 ensures h[..6][i] != ' ' {
          assert LowerChar(h[..6][i]) == "bearer"[i];
        }
      }
      assert h == h[..6] + [' '] + h[7..];
      PartitionAt(h[..6], ' ', h[7..]);
    }
    if Lower(r.0) == "bearer" && r.1 != "" {
      assert ' ' in h;
      assert h == r.0 + [' '] + r.1;
      assert h[..6] == r.0;
    }
  }

  /** A missing or empty header is refused with 403 and the "key required"
      detail. */
  lemma MissingHeaderIsForbidden(header: Option<string>, configured: string)
    requires header.None? || header.value == ""
    ensures GetApiKey(header, configured) == Err(AuthFailure(HTTP_403_FORBIDDEN, MISSING_KEY))
  {
  }

  /** A present header that is not "Bearer <key>" is refused with 403 and the
      format detail, whatever key is configured: never with 401. */
  lemma MalformedHeaderIsForbidden(h: string, configured: string)
    requires h != "" && !WellFormed(h)
    ensures GetApiKey(Some(h), configured) == Err(AuthFailure(HTTP_403_FORBIDDEN, BAD_FORMAT))
  {
    PartitionOfHeader(h);
  }

  /** A well-formed header carrying another key is refused with 401. */
  lemma WrongKeyIsUnauthorized(h: string, configured: string)
    requires WellFormed(h) && BearerKey(h) != configured
    ensures GetApiKey(Some(h), configured) == Err(AuthFailure(HTTP_401_UNAUTHORIZED, WRONG_KEY))
  {
    PartitionOfHeader(h);
  }

  /** Acceptance: exactly the well-formed headers carrying the configured key
      pass, and what is returned is the configured key. */
  lemma AcceptsExactlyTheConfiguredKey(header: Option<string>, configured: string)
    ensures GetApiKey(header, configured).Ok? <==>
      header.Some? && WellFormed(header.value) && BearerKey(header.value) == configured
    ensures GetApiKey(header, configured).Ok? ==> GetApiKey(header, configured).value == configured
  {
    if header.Some? && header.value != "" {
      PartitionOfHeader(header.value);
    }
  }

  /** Every refusal is a 403 or a 401, and a 401 only for a well-formed header. */
  lemma RefusalStatus(header: Option<string>, configured: string)
    requires GetApiKey(header, configured).Err?
    ensures GetApiKey(header, configured).error.status in {HTTP_401_UNAUTHORIZED, HTTP_403_FORBIDDEN}
    ensures GetApiKey(header, configured).error.status == HTTP_401_UNAUTHORIZED <==>
      header.Some? && WellFormed(header.value) && BearerKey(header.value) != configured
  {
    if header.Some? && header.value != "" {
      PartitionOfHeader(header.value);
    }
  }
}

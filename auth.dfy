/**
 * The claims builder of the launcher: how posted or URL form values, the
 * metadata a questionnaire schema declares, the JWT time claims and the
 * schema's own identity are overlaid, in a fixed order, into the claim set
 * that is then signed and encrypted into a token.  The HTTP fetches, the
 * generated UUIDs, the clock and the token issuance itself are inputs.
 */
module Authentication {
  import opened Wrappers
  import opened Surveys

  // ---------------------------------------------------------------------
  // Data
  // ---------------------------------------------------------------------

  /** Go's url.Values: each form key with the list of its submitted values. */
  type Values = map<string, seq<string>>

  /** Every listed key has at least one value, as a parsed form has; the
      claim builders read value[0] and would panic on an empty list. */
  predicate WellFormed(values: Values) {
    forall k :: k in values ==> |values[k]| > 0
  }

  /** The dynamic values a claim can hold (Go's interface{} in the claim map). */
  datatype ClaimValue =
    | Text(text: string)
    | TextList(items: seq<string>)
    | Flag(flag: bool)
    | NumericDate(seconds: int)

  type Claims = map<string, ClaimValue>

  /** One metadata entry of a questionnaire schema, plus the default the
      launcher attaches to it. */
  datatype Metadata = Metadata(name: string, validator: string, defaultValue: string)

  /** The part of a questionnaire schema the launcher decodes. */
  datatype QuestionnaireSchema = QuestionnaireSchema(eqId: string, formType: string, metadata: seq<Metadata>)

  /** What reading and decoding a response body gave. */
  datatype Body =
    | Unreadable(reason: string)
    | Malformed(reason: string)
    | Decoded(schema: QuestionnaireSchema)

  /** The outcome of one HTTP GET. */
  datatype HttpResult =
    | TransportError(reason: string)
    | Reply(status: int, body: Body)

  // ---------------------------------------------------------------------
  // Error texts
  // ---------------------------------------------------------------------

  /** A key-loading failure: the operation ("read", "parse", "cast",
      "marshal") and what went wrong. */
  datatype KeyLoadError = KeyLoadError(op: string, err: string)

  /** KeyLoadError.Error on a possibly nil receiver. */
  function KeyLoadErrorText(e: Option<KeyLoadError>): (s: string)
    ensures e.None? ==> s == "<nil>"
    ensures e.Some? ==> s == e.value.op + ": " + e.value.err
  {
    match e
    case None => "<nil>"
    case Some(k) => k.op + ": " + k.err
  }

  /** A non-nil key error never prints as a nil one: its text holds the
      ": " separator right after the operation, which "<nil>" lacks. */
  lemma KeyLoadErrorTextNeverNil(k: KeyLoadError)
    ensures KeyLoadErrorText(Some(k)) != KeyLoadErrorText(None)
    ensures KeyLoadErrorText(Some(k))[..|k.op|] == k.op
  {
    var s := KeyLoadErrorText(Some(k));
    assert s[|k.op|] == ':';
    if |s| == 5 {
      assert "<nil>"[0] != ':' && "<nil>"[1] != ':' && "<nil>"[2] != ':' && "<nil>"[3] != ':' && "<nil>"[4] != ':';
    }
  }

  /** The error a TokenError wraps: a key-loading error or one from the JOSE
      library, known only by its text. */
  datatype Cause =
    | KeyCause(keyError: KeyLoadError)
    | LibraryCause(message: string)

  /** The cause's Error(): a key error prints as "<op>: <err>", a library
      error as its own text. */
  function CauseText(c: Cause): (s: string)
    ensures c.KeyCause? ==> s == c.keyError.op + ": " + c.keyError.err
    ensures c.LibraryCause? ==> s == c.message
  {
    match c
    case KeyCause(k) => KeyLoadErrorText(Some(k))
    case LibraryCause(m) => m
  }

  /** A token-generation failure: a description and, optionally, its cause. */
  datatype TokenError = TokenError(desc: string, from: Option<Cause>)

  /** TokenError.Error on a possibly nil receiver: the description, followed
      by the cause in parentheses only when there is one. */
  function TokenErrorText(e: Option<TokenError>): (s: string)
    ensures e.None? ==> s == "<nil>"
    ensures e.Some? && e.value.from.None? ==> s == e.value.desc
    ensures e.Some? && e.value.from.Some? ==> s == e.value.desc + " (" + CauseText(e.value.from.value) + ")"
  {
    match e
    case None => "<nil>"
    case Some(t) =>
      if t.from.Some? then t.desc + " (" + CauseText(t.from.value) + ")" else t.desc
  }

  /** The description always leads the text, and a cause adds exactly the
      parenthesised cause text after it. */
  lemma TokenErrorTextShape(t: TokenError)
    ensures TokenErrorText(Some(t))[..|t.desc|] == t.desc
    ensures t.from.Some? ==> |TokenErrorText(Some(t))| == |t.desc| + 3 + |CauseText(t.from.value)|
    ensures t.from.Some? ==> TokenErrorText(Some(t))[|t.desc|..|t.desc| + 2] == " ("
    ensures t.from.Some? ==> TokenErrorText(Some(t))[|TokenErrorText(Some(t))| - 1] == ')'
  {
    var s := TokenErrorText(Some(t));
    if t.from.Some? {
      var c := CauseText(t.from.value);
      assert s == t.desc + " (" + c + ")";
      assert s[..|t.desc|] == t.desc;
      assert s[|t.desc|..|t.desc| + 2] == " (";
    }
  }

  // ---------------------------------------------------------------------
  // Form field access
  // ---------------------------------------------------------------------

  /** url.Values.Get: the first value of key, or "" when it has none. */
  function FormGet(values: Values, key: string): (v: string)
    ensures key !in values || values[key] == [] ==> v == ""
    ensures key in values && values[key] != [] ==> v == values[key][0]
  {
    if key in values && values[key] != [] then values[key][0] else ""
  }

  /** strconv.ParseBool: the accepted spellings of true and of false; any
      other text is a syntax error (None). */
  function ParseBool(s: string): (r: Option<bool>)
    ensures r == Some(true) <==> s in {"1", "t", "T", "TRUE", "true", "True"}
    ensures r == Some(false) <==> s in {"0", "f", "F", "FALSE", "false", "False"}
  {
    if s in {"1", "t", "T", "TRUE", "true", "True"} then Some(true)
    else if s in {"0", "f", "F", "FALSE", "false", "False"} then Some(false)
    else None
  }

  /** getBooleanOrDefault: absent key gives the default; a present key gives
      the parse of its first value, where a parse error gives false and not
      the default. */
  function GetBooleanOrDefault(key: string, values: Values, defaultValue: bool): (b: bool)
    requires key in values ==> |values[key]| > 0
    ensures key !in values ==> b == defaultValue
    ensures key in values ==> (b <==> ParseBool(values[key][0]) == Some(true))
  {
    if key in values then ParseBool(values[key][0]) == Some(true) else defaultValue
  }

  /** getStringOrDefault: the first value of a present key, else the default. */
  function GetStringOrDefault(key: string, values: Values, defaultValue: string): (s: string)
    requires key in values ==> |values[key]| > 0
    ensures key in values ==> s == values[key][0]
    ensures key !in values ==> s == defaultValue
  {
    if key in values then values[key][0] else defaultValue
  }

  /** A present key whose first value does not parse reads as false whatever
      the default; "yes" is such a value. */
  lemma UnparsableBooleanIsFalse(key: string, values: Values, defaultValue: bool)
    requires key in values && |values[key]| > 0 && values[key][0] == "yes"
    ensures !GetBooleanOrDefault(key, values, defaultValue)
  {
    assert ParseBool("yes") == None by {
      assert "yes" != "1" && "yes" != "t" && "yes" != "T" && "yes" != "TRUE" && "yes" != "true" && "yes" != "True";
      assert "yes" != "0" && "yes" != "f" && "yes" != "F" && "yes" != "FALSE" && "yes" != "false" && "yes" != "False";
    }
  }

  // ---------------------------------------------------------------------
  // Claim sources
  // ---------------------------------------------------------------------

  /** The claims generateClaims builds from form values: every form key with
      its first value, plus "roles" (["dumper"] unless the form has roles) and
      "tx_id" (the fresh UUID unless the form has one).  A posted roles list
      thus ends as its first value only, a scalar. */
  function GeneratedClaims(values: Values, txId: string): (c: Claims)
    requires WellFormed(values)
    ensures c.Keys == values.Keys + {"roles", "tx_id"}
    ensures forall k :: k in values ==> c[k] == Text(values[k][0])
    ensures "roles" !in values ==> c["roles"] == TextList(["dumper"])
    ensures "tx_id" !in values ==> c["tx_id"] == Text(txId)
  {
    map k | k in values.Keys + {"roles", "tx_id"} ::
      if k in values then Text(values[k][0])
      else if k == "roles" then TextList(["dumper"])
      else Text(txId)
  }

  /** generateClaims: roles and tx_id first, then one insertion per form key
      in map order; the order does not matter as the keys are distinct. */
  method GenerateClaims(claimValues: Values, txId: string) returns (claims: Claims)
    requires WellFormed(claimValues)
    ensures claims == GeneratedClaims(claimValues, txId)
  {
    var roles: seq<string>;
    if "roles" in claimValues {
      roles := claimValues["roles"];
    } else {
      roles := ["dumper"];
    }
    claims := map[];
    claims := claims["roles" := TextList(roles)];
    claims := claims["tx_id" := Text(txId)];
    var remaining := claimValues.Keys;
    while remaining != {}
      invariant remaining <= claimValues.Keys
      invariant claims.Keys == (claimValues.Keys - remaining) + {"roles", "tx_id"}
      invariant forall k :: k in claims && k in claimValues && k !in remaining ==> claims[k] == Text(claimValues[k][0])
      invariant "roles" !in claimValues || "roles" in remaining ==> claims["roles"] == TextList(roles)
      invariant "tx_id" !in claimValues || "tx_id" in remaining ==> claims["tx_id"] == Text(txId)
      decreases remaining
    {
      var key :| key in remaining;
      claims := claims[key := Text(claimValues[key][0])];
      remaining := remaining - {key};
    }
    GeneratedClaimsUnique(claimValues, txId, claims);
  }

  /** A map with the generated keys, every form key holding its first value,
      and roles and tx_id defaulted when the form lacks them, is the
      generated claim set. */
  lemma GeneratedClaimsUnique(values: Values, txId: string, claims: Claims)
    requires WellFormed(values)
    requires claims.Keys == values.Keys + {"roles", "tx_id"}
    requires forall k :: k in claims && k in values ==> claims[k] == Text(values[k][0])
    requires "roles" !in values ==> claims["roles"] == TextList(["dumper"])
    requires "tx_id" !in values ==> claims["tx_id"] == Text(txId)
    ensures claims == GeneratedClaims(values, txId)
  {
    var spec := GeneratedClaims(values, txId);
    assert forall k :: k in claims ==> claims[k] == spec[k];
  }

  /** GenerateJwtClaims with the clock read as issuedAt (seconds since the
      epoch) and the fresh UUID as jti: exactly iat, exp and jti, the token
      expiring ten minutes after issue. */
  function GenerateJwtClaims(issuedAt: int, jti: string): (c: Claims)
    ensures c.Keys == {"iat", "exp", "jti"}
    ensures c["iat"] == NumericDate(issuedAt)
    ensures c["exp"] == NumericDate(issuedAt + 600)
    ensures c["exp"].seconds - c["iat"].seconds == 10 * 60
    ensures c["jti"] == Text(jti)
  {
    map["iat" := NumericDate(issuedAt), "exp" := NumericDate(issuedAt + 10 * 60), "jti" := Text(jti)]
  }

  /** getSchemaClaims: the schema's eq_id, form_type and URL, and nothing else. */
  function GetSchemaClaims(ls: LauncherSchema): (c: Claims)
    ensures c.Keys == {"eq_id", "form_type", "survey_url"}
    ensures c["eq_id"] == Text(ls.eqId)
    ensures c["form_type"] == Text(ls.formType)
    ensures c["survey_url"] == Text(ls.url)
  {
    map["eq_id" := Text(ls.eqId), "form_type" := Text(ls.formType), "survey_url" := Text(ls.url)]
  }

  /** The time and schema claims share no key, so their overlay order does
      not matter, and neither contains the generated claim keys. */
  lemma JwtAndSchemaKeysDisjoint(issuedAt: int, jti: string, ls: LauncherSchema)
    ensures GenerateJwtClaims(issuedAt, jti).Keys !! GetSchemaClaims(ls).Keys
    ensures "roles" !in GenerateJwtClaims(issuedAt, jti) + GetSchemaClaims(ls)
    ensures "tx_id" !in GenerateJwtClaims(issuedAt, jti) + GetSchemaClaims(ls)
    ensures "account_url" !in GenerateJwtClaims(issuedAt, jti) + GetSchemaClaims(ls)
  {
    assert "iat"[0] == 'i' && "exp"[0] == 'e' && "jti"[0] == 'j';
    assert "eq_id"[0] == 'e' && "form_type"[0] == 'f' && "survey_url"[0] == 's';
    assert "eq_id"[1] == 'q' && "exp"[1] == 'x';
  }

  /** GetDefaultValues with its fresh UUID and today's date as inputs: the
      seventeen default metadata values (the keys are distinct, so the order
      of the source's insertions does not matter). */
  function GetDefaultValues(collectionExerciseSid: string, startedAt: string): (d: map<string, string>)
    ensures "collection_exercise_sid" in d && d["collection_exercise_sid"] == collectionExerciseSid
    ensures "started_at" in d && d["started_at"] == startedAt
    ensures "user_id" in d && d["user_id"] == "UNKNOWN"
    ensures "ru_ref" in d && d["ru_ref"] == "12346789012A"
  {
    map[
      "period_id" := "201605",
      "period_str" := "May 2017",
      "ru_name" := "ESSENTIAL ENTERPRISE LTD.",
      "ref_p_start_date" := "2016-05-01",
      "ref_p_end_date" := "2016-05-31",
      "return_by" := "2016-06-12",
      "trad_as" := "ESSENTIAL ENTERPRISE LTD.",
      "employmentDate" := "2016-06-10",
      "region_code" := "GB-ENG",
      "language_code" := "en",
      "case_ref" := "1000000000000001",
      "display_address" := "68 Abingdon Road, Goathill, PE12 5EH",
      "country_code" := "E",
      "user_id" := "UNKNOWN",
      "ru_ref" := "12346789012A",
      "collection_exercise_sid" := collectionExerciseSid,
      "started_at" := startedAt]
  }

  // ---------------------------------------------------------------------
  // Fetching a schema
  // ---------------------------------------------------------------------

  /** The cache-bust step of launcherSchemaFromURL: a URL without a query
      gets "?bust=" and the formatted timestamp; one with a query is kept. */
  function CacheBustURL(url: string, timestamp: string): (r: string)
    ensures '?' in url ==> r == url
    ensures '?' !in url ==> r == url + "?bust=" + timestamp
  {
    if '?' in url then url else url + "?bust=" + timestamp
  }

  /** Busting a busted URL changes nothing, whatever the second timestamp:
      the first bust added a query. */
  lemma CacheBustIdempotent(url: string, timestamp: string, later: string)
    ensures '?' in CacheBustURL(url, timestamp)
    ensures CacheBustURL(CacheBustURL(url, timestamp), later) == CacheBustURL(url, timestamp)
  {
    var r := CacheBustURL(url, timestamp);
    if '?' !in url {
      assert r[|url|] == '?';
    }
  }

  /** launcherSchemaFromURL on the reply to its GET.  A transport error, an
      unreadable body or an undecodable body panics; a non-200 status and a
      validator complaint (validationError, "" when the schema is valid or no
      validator is configured) are returned as errors; otherwise the schema's
      eq_id and form_type with the cache-busted URL. */
  function LauncherSchemaFromURL(url: string, reply: HttpResult, validationError: string, bust: string)
    : (r: Outcome<LauncherSchema>)
    ensures reply.TransportError? ==> r.Panic?
    ensures reply.Reply? && reply.status != 200 ==> r == Err("Failed to load Schema from " + url)
    ensures r.Ok? <==> reply.Reply? && reply.status == 200 && reply.body.Decoded? && validationError == ""
    ensures r.Ok? ==> r.value == LauncherSchema("", reply.body.schema.eqId, reply.body.schema.formType, CacheBustURL(url, bust))
    ensures reply.Reply? && reply.status == 200 && !reply.body.Unreadable? && validationError != "" ==> r == Err(validationError)
    ensures reply.Reply? && reply.status == 200 && reply.body.Unreadable? ==> r.Panic?
    ensures reply.Reply? && reply.status == 200 && reply.body.Malformed? && validationError == "" ==> r.Panic?
  {
    match reply
    case TransportError(reason) => Panic(reason)
    case Reply(status, body) =>
      if status != 200 then Err("Failed to load Schema from " + url)
      else if body.Unreadable? then Panic(body.reason)
      else if validationError != "" then Err(validationError)
      else if body.Malformed? then Panic(body.reason)
      else Ok(LauncherSchema("", body.schema.eqId, body.schema.formType, CacheBustURL(url, bust)))
  }

  /** The URL GetRequiredMetadata fetches: the schema's own URL when it has
      one, else the schema host's /schemas/<eq_id>/<form_type>. */
  function MetadataURL(ls: LauncherSchema, schemaHost: string): (url: string)
    ensures ls.url != "" ==> url == ls.url
    ensures ls.url == "" ==> url == schemaHost + "/schemas/" + ls.eqId + "/" + ls.formType
  {
    if ls.url != "" then ls.url else schemaHost + "/schemas/" + ls.eqId + "/" + ls.formType
  }

  /** The default one metadata entry gets: "false" for a boolean entry, else
      the launcher's default for its name ("" when there is none). */
  function DefaultFor(m: Metadata, defaults: map<string, string>): (d: string)
    ensures m.validator == "boolean" ==> d == "false"
    ensures m.validator != "boolean" && m.name in defaults ==> d == defaults[m.name]
    ensures m.validator != "boolean" && m.name !in defaults ==> d == ""
  {
    if m.validator == "boolean" then "false" else if m.name in defaults then defaults[m.name] else ""
  }

  /** The metadata after the default loop: same length, names and validators,
      each entry carrying its default. */
  function WithDefaults(ms: seq<Metadata>, defaults: map<string, string>): (r: seq<Metadata>)
    ensures |r| == |ms|
    ensures forall i :: 0 <= i < |r| ==> r[i].name == ms[i].name && r[i].validator == ms[i].validator
    ensures forall i :: 0 <= i < |r| ==> r[i].defaultValue == DefaultFor(ms[i], defaults)
  {
    seq(|ms|, i requires 0 <= i < |ms| => ms[i].(defaultValue := DefaultFor(ms[i], defaults)))
  }

  /** Everything GetRequiredMetadata can return: a load error for a failed
      GET, a non-200 status or an unreadable body; an unmarshal error for an
      undecodable body; else the schema's metadata with defaults. */
  function RequiredMetadata(ls: LauncherSchema, schemaHost: string, reply: HttpResult, defaults: map<string, string>)
    : (r: Outcome<seq<Metadata>>)
    ensures !r.Panic?
    ensures r.Ok? <==> reply.Reply? && reply.status == 200 && reply.body.Decoded?
    ensures r.Ok? ==> r.value == WithDefaults(reply.body.schema.metadata, defaults)
    ensures r.Err? && reply.Reply? && reply.status == 200 && reply.body.Malformed?
            ==> r.message == "Failed to unmarshal Schema from " + MetadataURL(ls, schemaHost)
    ensures r.Err? && !(reply.Reply? && reply.status == 200 && reply.body.Malformed?)
            ==> r.message == "Failed to load Schema from " + MetadataURL(ls, schemaHost)
  {
    var url := MetadataURL(ls, schemaHost);
    match reply
    case TransportError(_) => Err("Failed to load Schema from " + url)
    case Reply(status, body) =>
      if status != 200 || body.Unreadable? then Err("Failed to load Schema from " + url)
      else if body.Malformed? then Err("Failed to unmarshal Schema from " + url)
      else Ok(WithDefaults(body.schema.metadata, defaults))
  }

  /** GetRequiredMetadata: chooses the URL, fetches it through fetch, and on
      success rewrites each entry's default in place. */
  method GetRequiredMetadata(ls: LauncherSchema, schemaHost: string, fetch: string -> HttpResult,
                             defaults: map<string, string>)
    returns (metadata: seq<Metadata>, error: string)
    ensures var o := RequiredMetadata(ls, schemaHost, fetch(MetadataURL(ls, schemaHost)), defaults);
            (o.Ok? ==> metadata == o.value && error == "") && (o.Err? ==> metadata == [] && error == o.message)
  {
    var url: string;
    if ls.url != "" {
      url := ls.url;
    } else {
      url := schemaHost + "/schemas/" + ls.eqId + "/" + ls.formType;
    }
    var resp := fetch(url);
    if resp.TransportError? || resp.status != 200 || resp.body.Unreadable? {
      return [], "Failed to load Schema from " + url;
    }
    if resp.body.Malformed? {
      return [], "Failed to unmarshal Schema from " + url;
    }
    var ms := resp.body.schema.metadata;
    var a := new Metadata[|ms|](i requires 0 <= i < |ms| => ms[i]);
    AssignDefaults(a, defaults);
    return a[..], "";
  }

  /** The loop of GetRequiredMetadata: rewrites each entry's default in
      place, first to the launcher's default for its name and then, for a
      boolean entry, to "false". */
  method AssignDefaults(a: array<Metadata>, defaults: map<string, string>)
    modifies a
    ensures a[..] == WithDefaults(old(a[..]), defaults)
  {
    ghost var ms := a[..];
    for i := 0 to a.Length
      invariant a[..i] == WithDefaults(ms[..i], defaults)
      invariant a[i..] == ms[i..]
    {
      var value := a[i];
      a[i] := a[i].(defaultValue := if value.name in defaults then defaults[value.name] else "");
      if value.validator == "boolean" {
        a[i] := a[i].(defaultValue := "false");
      }
      assert a[..i + 1] == a[..i] + [a[i]];
      assert ms[..i + 1] == ms[..i] + [ms[i]];
    }
    assert a[..] == a[..a.Length];
    assert ms == ms[..|ms|];
  }

  // ---------------------------------------------------------------------
  // Overlaying claims
  // ---------------------------------------------------------------------

  /** `for key, v := range source { claims[key] = v }`: every key of source
      lands in claims, replacing a same-named claim; the rest are kept. */
  method OverlayClaims(claims: Claims, source: Claims) returns (merged: Claims)
    ensures merged == claims + source
  {
    merged := claims;
    var remaining := source.Keys;
    while remaining != {}
      invariant remaining <= source.Keys
      invariant merged.Keys == claims.Keys + (source.Keys - remaining)
      invariant forall k :: k in merged ==> merged[k] == if k in source && k !in remaining then source[k] else claims[k]
      decreases remaining
    {
      var key :| key in remaining;
      merged := merged[key := source[key]];
      remaining := remaining - {key};
    }
  }

  /** What the metadata loop of GenerateTokenFromDefaults stores for one
      entry: a boolean entry gets the parsed form value (false when absent),
      any other the form value or the entry's default. */
  function MetadataClaim(m: Metadata, values: Values): (v: ClaimValue)
    requires WellFormed(values)
    ensures m.validator == "boolean" ==> v == Flag(GetBooleanOrDefault(m.name, values, false))
    ensures m.validator != "boolean" ==> v == Text(GetStringOrDefault(m.name, values, m.defaultValue))
  {
    if m.validator == "boolean" then Flag(GetBooleanOrDefault(m.name, values, false))
    else Text(GetStringOrDefault(m.name, values, m.defaultValue))
  }

  /** The claims after that loop has run over ms, one assignment per entry
      in order (stated on the last entry so that it follows the loop). */
  function ApplyMetadata(claims: Claims, ms: seq<Metadata>, values: Values): (r: Claims)
    requires WellFormed(values)
    ensures ms != [] ==> ms[|ms| - 1].name in r && r[ms[|ms| - 1].name] == MetadataClaim(ms[|ms| - 1], values)
  {
    if ms == [] then claims
    else ApplyMetadata(claims, ms[..|ms| - 1], values)[ms[|ms| - 1].name := MetadataClaim(ms[|ms| - 1], values)]
  }

  /** The names ms declares. */
  function Names(ms: seq<Metadata>): (r: set<string>)
    ensures forall i :: 0 <= i < |ms| ==> ms[i].name in r
    ensures forall n :: n in r ==> exists i :: 0 <= i < |ms| && ms[i].name == n
  {
    set i | 0 <= i < |ms| :: ms[i].name
  }

  /** Entry i is the last entry of ms with its name. */
  predicate IsLastNamed(ms: seq<Metadata>, i: int) {
    0 <= i < |ms| && forall j :: i < j < |ms| ==> ms[j].name != ms[i].name
  }

  /** The names of ms are those of all but its last entry plus the last's. */
  lemma NamesSnoc(ms: seq<Metadata>)
    requires ms != []
    ensures Names(ms) == Names(ms[..|ms| - 1]) + {ms[|ms| - 1].name}
  {
    var init := ms[..|ms| - 1];
    forall n | n in Names(ms) ensures n in Names(init) + {ms[|ms| - 1].name} {
      var i :| 0 <= i < |ms| && ms[i].name == n;
      if i < |ms| - 1 { assert init[i] == ms[i]; }
    }
  }

  /** The metadata loop adds exactly the declared names as claim keys. */
  lemma {:induction false} ApplyMetadataKeys(claims: Claims, ms: seq<Metadata>, values: Values)
    requires WellFormed(values)
    ensures ApplyMetadata(claims, ms, values).Keys == claims.Keys + Names(ms)
  {
    if ms != [] {
      ApplyMetadataKeys(claims, ms[..|ms| - 1], values);
      NamesSnoc(ms);
    }
  }

  /** The last entry with a name decides that name's claim. */
  lemma {:induction false} ApplyMetadataLast(claims: Claims, ms: seq<Metadata>, values: Values, i: int)
    requires WellFormed(values)
    requires IsLastNamed(ms, i)
    ensures ms[i].name in ApplyMetadata(claims, ms, values)
    ensures ApplyMetadata(claims, ms, values)[ms[i].name] == MetadataClaim(ms[i], values)
  {
    var init := ms[..|ms| - 1];
    if i < |ms| - 1 {
      assert IsLastNamed(init, i);
      ApplyMetadataLast(claims, init, values, i);
    }
  }

  /** A claim no entry names is left as it was. */
  lemma {:induction false} ApplyMetadataOthers(claims: Claims, ms: seq<Metadata>, values: Values, k: string)
    requires WellFormed(values)
    requires k in claims && k !in Names(ms)
    ensures k in ApplyMetadata(claims, ms, values)
    ensures ApplyMetadata(claims, ms, values)[k] == claims[k]
  {
    if ms != [] {
      NamesSnoc(ms);
      ApplyMetadataOthers(claims, ms[..|ms| - 1], values, k);
    }
  }

  /** After the loop, a declared name holds the claim of the last entry with
      that name, and every other claim is as it was. */
  lemma ApplyMetadataLookup(claims: Claims, ms: seq<Metadata>, values: Values)
    requires WellFormed(values)
    ensures ApplyMetadata(claims, ms, values).Keys == claims.Keys + Names(ms)
    ensures forall i :: IsLastNamed(ms, i) ==> ApplyMetadata(claims, ms, values)[ms[i].name] == MetadataClaim(ms[i], values)
    ensures forall k :: k in claims && k !in Names(ms) ==> ApplyMetadata(claims, ms, values)[k] == claims[k]
  {
    ApplyMetadataKeys(claims, ms, values);
    forall i | IsLastNamed(ms, i)
      ensures ApplyMetadata(claims, ms, values)[ms[i].name] == MetadataClaim(ms[i], values)
    {
      ApplyMetadataLast(claims, ms, values, i);
    }
    forall k | k in claims && k !in Names(ms)
      ensures ApplyMetadata(claims, ms, values)[k] == claims[k]
    {
      ApplyMetadataOthers(claims, ms, values, k);
    }
  }

  /** The metadata loop of GenerateTokenFromDefaults. */
  method AssignMetadataClaims(claims: Claims, requiredMetadata: seq<Metadata>, urlValues: Values)
    returns (result: Claims)
    requires WellFormed(urlValues)
    ensures result == ApplyMetadata(claims, requiredMetadata, urlValues)
  {
    result := claims;
    for i := 0 to |requiredMetadata|
      invariant result == ApplyMetadata(claims, requiredMetadata[..i], urlValues)
    {
      var metadata := requiredMetadata[i];
      assert requiredMetadata[..i + 1][..i] == requiredMetadata[..i];
      if metadata.validator == "boolean" {
        result := result[metadata.name := Flag(GetBooleanOrDefault(metadata.name, urlValues, false))];
        continue;
      }
      result := result[metadata.name := Text(GetStringOrDefault(metadata.name, urlValues, metadata.defaultValue))];
    }
    assert requiredMetadata[..|requiredMetadata|] == requiredMetadata;
  }

  /** The boolean loop of GenerateTokenFromPost over ms: each boolean entry
      sets its name to whether the name was a claim key at that moment. */
  function MarkBooleans(claims: Claims, ms: seq<Metadata>): (r: Claims)
    ensures claims.Keys <= r.Keys
    ensures forall k :: k in r && !r[k].Flag? ==> k in claims && r[k] == claims[k]
  {
    if ms == [] then claims
    else
      var before := MarkBooleans(claims, ms[..|ms| - 1]);
      var m := ms[|ms| - 1];
      if m.validator == "boolean" then before[m.name := Flag(m.name in before)] else before
  }

  /** How many boolean entries of ms are named n. */
  function BooleanCount(ms: seq<Metadata>, n: string): (c: nat)
    ensures c <= |ms|
    ensures c == 0 <==> forall i :: 0 <= i < |ms| ==> !(ms[i].name == n && ms[i].validator == "boolean")
  {
    if ms == [] then 0
    else BooleanCount(ms[..|ms| - 1], n) + (if ms[|ms| - 1].name == n && ms[|ms| - 1].validator == "boolean" then 1 else 0)
  }

  /** The exact outcome of the boolean loop: a name some boolean entry
      declares ends as true iff it was a claim before the loop or a second
      boolean entry with the same name saw the first one's insertion;
      every other claim is untouched. */
  lemma {:induction false} MarkBooleansLookup(claims: Claims, ms: seq<Metadata>, n: string)
    ensures n in MarkBooleans(claims, ms) <==> n in claims || BooleanCount(ms, n) > 0
    ensures BooleanCount(ms, n) > 0 ==> MarkBooleans(claims, ms)[n] == Flag(n in claims || BooleanCount(ms, n) >= 2)
    ensures BooleanCount(ms, n) == 0 && n in claims ==> MarkBooleans(claims, ms)[n] == claims[n]
  {
    if ms != [] {
      MarkBooleansLookup(claims, ms[..|ms| - 1], n);
    }
  }

  /** The boolean loop of GenerateTokenFromPost. */
  method MarkBooleanMetadata(claims: Claims, requiredMetadata: seq<Metadata>) returns (result: Claims)
    ensures result == MarkBooleans(claims, requiredMetadata)
  {
    result := claims;
    for i := 0 to |requiredMetadata|
      invariant result == MarkBooleans(claims, requiredMetadata[..i])
    {
      var metadata := requiredMetadata[i];
      assert requiredMetadata[..i + 1][..i] == requiredMetadata[..i];
      if metadata.validator == "boolean" {
        var isset := metadata.name in result;
        result := result[metadata.name := Flag(isset)];
      }
    }
    assert requiredMetadata[..|requiredMetadata|] == requiredMetadata;
  }

  // ---------------------------------------------------------------------
  // The two token builders
  // ---------------------------------------------------------------------

  /** What generateTokenFromClaims gave: the compact token or its error. */
  datatype Issued = Signed(token: string) | NotSigned(error: TokenError)

  /** Everything the token builders take from outside the model: the reply
      to launcherSchemaFromURL's GET and, separately, the reply to
      GetRequiredMetadata's GET (each by URL; two requests to the same URL
      may be answered differently), the validator's verdict on a fetched
      schema, the token issuance, the fresh UUIDs, the clock readings (issue
      time in seconds, bust timestamp, start date), SURVEY_RUNNER_SCHEMA_URL
      and the register's URL and decoded entries. */
  datatype Environment = Environment(
    fetchSchema: string -> HttpResult,
    fetchMetadata: string -> HttpResult,
    validationError: string,
    issue: Claims -> Issued,
    txId: string,
    jti: string,
    collectionExerciseSid: string,
    issuedAt: int,
    bust: string,
    startedAt: string,
    schemaHost: string,
    registerURL: string,
    registered: seq<RegisterSchema>)

  /** How a token builder reports issuance: the token, or its error text
      behind the builder's name. */
  function IssueOutcome(caller: string, issued: Issued): (r: Outcome<string>)
    ensures issued.Signed? ==> r == Ok(issued.token)
    ensures issued.NotSigned? ==> r == Err(caller + " failed err: " + TokenErrorText(Some(issued.error)))
  {
    match issued
    case Signed(token) => Ok(token)
    case NotSigned(e) => Err(caller + " failed err: " + TokenErrorText(Some(e)))
  }

  /** The claims GenerateTokenFromDefaults signs: generated claims, then
      metadata, then JWT times, then schema claims, each overwriting the
      ones before. */
  function DefaultsClaims(values: Values, env: Environment, ls: LauncherSchema, metadata: seq<Metadata>): (c: Claims)
    requires WellFormed(values)
    ensures GetSchemaClaims(ls).Keys + GenerateJwtClaims(env.issuedAt, env.jti).Keys <= c.Keys
    ensures c["eq_id"] == Text(ls.eqId) && c["form_type"] == Text(ls.formType) && c["survey_url"] == Text(ls.url)
    ensures c["iat"] == NumericDate(env.issuedAt) && c["exp"] == NumericDate(env.issuedAt + 600)
    ensures c["jti"] == Text(env.jti)
  {
    JwtAndSchemaKeysDisjoint(env.issuedAt, env.jti, ls);
    ApplyMetadata(GeneratedClaims(values, env.txId), metadata, values)
      + GenerateJwtClaims(env.issuedAt, env.jti) + GetSchemaClaims(ls)
  }

  /** The claims GenerateTokenFromPost signs: generated claims, then JWT
      times, then schema claims, then the boolean marking. */
  function PostClaims(values: Values, env: Environment, ls: LauncherSchema, metadata: seq<Metadata>): (c: Claims)
    requires WellFormed(values)
    ensures values.Keys + {"roles", "tx_id", "iat", "exp", "jti", "eq_id", "form_type", "survey_url"} <= c.Keys
    ensures forall k :: k in c && !c[k].Flag? && k in GetSchemaClaims(ls) ==> c[k] == GetSchemaClaims(ls)[k]
  {
    MarkBooleans(GeneratedClaims(values, env.txId) + GenerateJwtClaims(env.issuedAt, env.jti) + GetSchemaClaims(ls), metadata)
  }

  /** One run of a token builder: the claims handed to issuance (None when
      it stopped before) and what it returned. */
  datatype TokenRun = TokenRun(claims: Option<Claims>, result: Outcome<string>)

  /** GenerateTokenFromDefaults from start to end, once account_url has been
      added to the form values. */
  function DefaultsRun(surveyURL: string, values: Values, env: Environment): (r: TokenRun)
    requires WellFormed(values)
    ensures r.claims.Some? ==> r.result == IssueOutcome("GenerateTokenFromDefaults", env.issue(r.claims.value))
    ensures var loaded := LauncherSchemaFromURL(surveyURL, env.fetchSchema(surveyURL), env.validationError, env.bust);
            && (loaded.Panic? ==> r == TokenRun(None, Panic(loaded.reason)))
            && (loaded.Err? ==> r == TokenRun(None, Err(loaded.message)))
    ensures var loaded := LauncherSchemaFromURL(surveyURL, env.fetchSchema(surveyURL), env.validationError, env.bust);
            loaded.Ok? ==>
              var md := RequiredMetadata(loaded.value, env.schemaHost, env.fetchMetadata(MetadataURL(loaded.value, env.schemaHost)),
                                         GetDefaultValues(env.collectionExerciseSid, env.startedAt));
              (md.Ok? <==> r.claims.Some?)
              && (md.Err? ==> r == TokenRun(None, Err("GetRequiredMetadata failed err: " + md.message)))
  {
    var loaded := LauncherSchemaFromURL(surveyURL, env.fetchSchema(surveyURL), env.validationError, env.bust);
    match loaded
    case Panic(reason) => TokenRun(None, Panic(reason))
    case Err(message) => TokenRun(None, Err(message))
    case Ok(ls) =>
      var md := RequiredMetadata(ls, env.schemaHost, env.fetchMetadata(MetadataURL(ls, env.schemaHost)),
                                 GetDefaultValues(env.collectionExerciseSid, env.startedAt));
      if !md.Ok? then TokenRun(None, Err("GetRequiredMetadata failed err: " + md.message))
      else
        var claims := DefaultsClaims(values, env, ls, md.value);
        TokenRun(Some(claims), IssueOutcome("GenerateTokenFromDefaults", env.issue(claims)))
  }

  /** GenerateTokenFromDefaults: adds account_url to the caller's form values
      (returned as urlValuesAfter, the map the caller then holds), builds
      the claims from them and issues the token. */
  method GenerateTokenFromDefaults(surveyURL: string, accountURL: string, urlValues: Values, env: Environment)
    returns (urlValuesAfter: Values, signed: Option<Claims>, result: Outcome<string>)
    requires WellFormed(urlValues)
    ensures urlValuesAfter == urlValues["account_url" := [accountURL]]
    ensures WellFormed(urlValuesAfter)
    ensures TokenRun(signed, result) == DefaultsRun(surveyURL, urlValuesAfter, env)
  {
    urlValuesAfter := urlValues["account_url" := [accountURL]];
    var claims := GenerateClaims(urlValuesAfter, env.txId);
    signed := None;

    var loaded := LauncherSchemaFromURL(surveyURL, env.fetchSchema(surveyURL), env.validationError, env.bust);
    if loaded.Panic? {
      return urlValuesAfter, None, Panic(loaded.reason);
    }
    if loaded.Err? {
      return urlValuesAfter, None, Err(loaded.message);
    }
    var launcherSchema := loaded.value;

    var requiredMetadata, error := GetRequiredMetadata(launcherSchema, env.schemaHost, env.fetchMetadata,
                                                       GetDefaultValues(env.collectionExerciseSid, env.startedAt));
    ghost var md := RequiredMetadata(launcherSchema, env.schemaHost, env.fetchMetadata(MetadataURL(launcherSchema, env.schemaHost)),
                                     GetDefaultValues(env.collectionExerciseSid, env.startedAt));
    if error != "" {
      return urlValuesAfter, None, Err("GetRequiredMetadata failed err: " + error);
    }
    assert md.Ok? && requiredMetadata == md.value;

    claims := AssignMetadataClaims(claims, requiredMetadata, urlValuesAfter);
    claims := OverlayClaims(claims, GenerateJwtClaims(env.issuedAt, env.jti));
    claims := OverlayClaims(claims, GetSchemaClaims(launcherSchema));

    signed := Some(claims);
    result := IssueOutcome("GenerateTokenFromDefaults", env.issue(claims));
  }

  /** GenerateTokenFromPost from start to end. */
  function PostRun(postValues: Values, env: Environment): (r: TokenRun)
    requires WellFormed(postValues)
    ensures r.claims.Some? ==> r.result == IssueOutcome("GenerateTokenFromPost", env.issue(r.claims.value))
    ensures var available := AvailableSchemas(env.registerURL, env.registered);
            r.result == Panic("Survey not found")
            <==> forall j :: 0 <= j < |available| ==> available[j].name != FormGet(postValues, "schema")
    ensures var found := FirstNamed(AvailableSchemas(env.registerURL, env.registered), FormGet(postValues, "schema"));
            found.Some? ==>
              var md := RequiredMetadata(found.value, env.schemaHost, env.fetchMetadata(MetadataURL(found.value, env.schemaHost)),
                                         GetDefaultValues(env.collectionExerciseSid, env.startedAt));
              (md.Ok? <==> r.claims.Some?)
              && (md.Err? ==> r == TokenRun(None, Err("GetRequiredMetadata failed err: " + md.message)))
  {
    var found := FirstNamed(AvailableSchemas(env.registerURL, env.registered), FormGet(postValues, "schema"));
    if found.None? then TokenRun(None, Panic("Survey not found"))
    else
      var ls := found.value;
      var md := RequiredMetadata(ls, env.schemaHost, env.fetchMetadata(MetadataURL(ls, env.schemaHost)),
                                 GetDefaultValues(env.collectionExerciseSid, env.startedAt));
      if !md.Ok? then TokenRun(None, Err("GetRequiredMetadata failed err: " + md.message))
      else
        var claims := PostClaims(postValues, env, ls, md.value);
        TokenRun(Some(claims), IssueOutcome("GenerateTokenFromPost", env.issue(claims)))
  }

  /** GenerateTokenFromPost: looks the posted schema name up (an unknown
      name panics), builds and overlays the claims, marks the boolean
      metadata and issues the token. */
  method GenerateTokenFromPost(postValues: Values, env: Environment)
    returns (signed: Option<Claims>, result: Outcome<string>)
    requires WellFormed(postValues)
    ensures TokenRun(signed, result) == PostRun(postValues, env)
  {
    var schema := FormGet(postValues, "schema");
    var found := FindSurveyByName(schema, env.registerURL, env.registered);
    if found.None? {
      return None, Panic("Survey not found");
    }
    var launcherSchema := found.value;

    var claims := GenerateClaims(postValues, env.txId);
    claims := OverlayClaims(claims, GenerateJwtClaims(env.issuedAt, env.jti));
    claims := OverlayClaims(claims, GetSchemaClaims(launcherSchema));

    var requiredMetadata, error := GetRequiredMetadata(launcherSchema, env.schemaHost, env.fetchMetadata,
                                                       GetDefaultValues(env.collectionExerciseSid, env.startedAt));
    ghost var md := RequiredMetadata(launcherSchema, env.schemaHost, env.fetchMetadata(MetadataURL(launcherSchema, env.schemaHost)),
                                     GetDefaultValues(env.collectionExerciseSid, env.startedAt));
    if error != "" {
      return None, Err("GetRequiredMetadata failed err: " + error);
    }
    assert md.Ok? && requiredMetadata == md.value;

    claims := MarkBooleanMetadata(claims, requiredMetadata);

    signed := Some(claims);
    result := IssueOutcome("GenerateTokenFromPost", env.issue(claims));
  }

  // ---------------------------------------------------------------------
  // What the signed claims hold
  // ---------------------------------------------------------------------

  /** A declared name has a last entry declaring it. */
  lemma {:induction false} LastNamedExists(ms: seq<Metadata>, n: string)
    requires n in Names(ms)
    ensures exists i :: IsLastNamed(ms, i) && ms[i].name == n
  {
    var last := |ms| - 1;
    if ms[last].name == n {
      assert IsLastNamed(ms, last);
    } else {
      var init := ms[..last];
      NamesSnoc(ms);
      LastNamedExists(init, n);
      var i :| IsLastNamed(init, i) && init[i].name == n;
      assert ms[i] == init[i];
      assert IsLastNamed(ms, i);
    }
  }

  /** In GenerateTokenFromDefaults a metadata name that is not a time or
      schema claim holds what its last entry assigns: the parsed boolean for
      a boolean entry, else the form value or the entry's default. */
  lemma DefaultsMetadataClaim(values: Values, env: Environment, ls: LauncherSchema, ms: seq<Metadata>, i: int)
    requires WellFormed(values)
    requires IsLastNamed(ms, i)
    requires ms[i].name !in GenerateJwtClaims(env.issuedAt, env.jti) + GetSchemaClaims(ls)
    ensures ms[i].name in DefaultsClaims(values, env, ls, ms)
    ensures DefaultsClaims(values, env, ls, ms)[ms[i].name] == MetadataClaim(ms[i], values)
  {
    ApplyMetadataLookup(GeneratedClaims(values, env.txId), ms, values);
  }

  /** In GenerateTokenFromDefaults a form key no metadata entry declares and
      that is not a time or schema claim keeps its first form value. */
  lemma DefaultsFormClaim(values: Values, env: Environment, ls: LauncherSchema, ms: seq<Metadata>, k: string)
    requires WellFormed(values)
    requires k in values && k !in Names(ms)
    requires k !in GenerateJwtClaims(env.issuedAt, env.jti) + GetSchemaClaims(ls)
    ensures k in DefaultsClaims(values, env, ls, ms)
    ensures DefaultsClaims(values, env, ls, ms)[k] == Text(values[k][0])
  {
    ApplyMetadataLookup(GeneratedClaims(values, env.txId), ms, values);
  }

  /** In GenerateTokenFromDefaults a form without roles or tx_id is signed
      with roles ["dumper"] and the fresh transaction id, unless a metadata
      entry declares the name. */
  lemma DefaultsGeneratedDefaults(values: Values, env: Environment, ls: LauncherSchema, ms: seq<Metadata>)
    requires WellFormed(values)
    ensures "roles" !in values && "roles" !in Names(ms)
            ==> "roles" in DefaultsClaims(values, env, ls, ms) && DefaultsClaims(values, env, ls, ms)["roles"] == TextList(["dumper"])
    ensures "tx_id" !in values && "tx_id" !in Names(ms)
            ==> "tx_id" in DefaultsClaims(values, env, ls, ms) && DefaultsClaims(values, env, ls, ms)["tx_id"] == Text(env.txId)
  {
    JwtAndSchemaKeysDisjoint(env.issuedAt, env.jti, ls);
    ApplyMetadataLookup(GeneratedClaims(values, env.txId), ms, values);
  }

  /** The account URL GenerateTokenFromDefaults adds to the form values is
      signed as account_url, unless a boolean metadata entry takes the name
      over. */
  lemma DefaultsAccountURL(values: Values, accountURL: string, env: Environment, ls: LauncherSchema, ms: seq<Metadata>)
    requires WellFormed(values)
    requires forall i :: 0 <= i < |ms| && ms[i].name == "account_url" ==> ms[i].validator != "boolean"
    ensures WellFormed(values["account_url" := [accountURL]])
    ensures "account_url" in DefaultsClaims(values["account_url" := [accountURL]], env, ls, ms)
    ensures DefaultsClaims(values["account_url" := [accountURL]], env, ls, ms)["account_url"] == Text(accountURL)
  {
    var after := values["account_url" := [accountURL]];
    JwtAndSchemaKeysDisjoint(env.issuedAt, env.jti, ls);
    ApplyMetadataLookup(GeneratedClaims(after, env.txId), ms, after);
    if "account_url" in Names(ms) {
      LastNamedExists(ms, "account_url");
    }
  }

  /** A successful GenerateTokenFromDefaults signs the fetched schema's
      eq_id and form_type and the cache-busted survey URL. */
  lemma DefaultsSignsFetchedSchema(surveyURL: string, values: Values, env: Environment)
    requires WellFormed(values)
    requires DefaultsRun(surveyURL, values, env).claims.Some?
    ensures env.fetchSchema(surveyURL).Reply? && env.fetchSchema(surveyURL).body.Decoded?
    ensures var c := DefaultsRun(surveyURL, values, env).claims.value;
            var schema := env.fetchSchema(surveyURL).body.schema;
            && c["eq_id"] == Text(schema.eqId)
            && c["form_type"] == Text(schema.formType)
            && c["survey_url"] == Text(CacheBustURL(surveyURL, env.bust))
  {
  }

  /** GenerateTokenFromDefaults asks for the metadata at the cache-busted
      survey URL, in a request of its own: when that request fails after the
      schema loaded, nothing is signed and the load error is returned. */
  lemma DefaultsMetadataFailure(surveyURL: string, values: Values, env: Environment)
    requires WellFormed(values)
    requires LauncherSchemaFromURL(surveyURL, env.fetchSchema(surveyURL), env.validationError, env.bust).Ok?
    requires env.fetchMetadata(CacheBustURL(surveyURL, env.bust)).TransportError?
    ensures DefaultsRun(surveyURL, values, env).claims.None?
    ensures DefaultsRun(surveyURL, values, env).result
         == Err("GetRequiredMetadata failed err: " + ("Failed to load Schema from " + CacheBustURL(surveyURL, env.bust)))
  {
    var busted := CacheBustURL(surveyURL, env.bust);
    assert '?' in busted by { CacheBustIdempotent(surveyURL, env.bust, env.bust); }
    var ls := LauncherSchemaFromURL(surveyURL, env.fetchSchema(surveyURL), env.validationError, env.bust).value;
    assert ls.url == busted && ls.url != "";
    var defaults := GetDefaultValues(env.collectionExerciseSid, env.startedAt);
    assert RequiredMetadata(ls, env.schemaHost, env.fetchMetadata(MetadataURL(ls, env.schemaHost)), defaults)
        == Err("Failed to load Schema from " + busted);
  }

  /** In GenerateTokenFromPost a name some boolean entry declares ends as
      true iff it was a claim before the marking (posted, generated, a time
      or schema claim) or is declared boolean twice; its posted text is
      never parsed. */
  lemma PostBooleanClaim(values: Values, env: Environment, ls: LauncherSchema, ms: seq<Metadata>, n: string)
    requires WellFormed(values)
    requires BooleanCount(ms, n) > 0
    ensures n in PostClaims(values, env, ls, ms)
    ensures PostClaims(values, env, ls, ms)[n]
         == Flag(n in values || n in {"roles", "tx_id"} || n in GenerateJwtClaims(env.issuedAt, env.jti) + GetSchemaClaims(ls)
                 || BooleanCount(ms, n) >= 2)
  {
    var base := GeneratedClaims(values, env.txId) + GenerateJwtClaims(env.issuedAt, env.jti) + GetSchemaClaims(ls);
    MarkBooleansLookup(base, ms, n);
  }

  /** A posted boolean field is signed as true whatever was posted, "false"
      included. */
  lemma PostedFalseIsTrue(values: Values, env: Environment, ls: LauncherSchema, ms: seq<Metadata>, n: string)
    requires WellFormed(values)
    requires n in values && values[n] == ["false"]
    requires BooleanCount(ms, n) > 0
    ensures n in PostClaims(values, env, ls, ms)
    ensures PostClaims(values, env, ls, ms)[n] == Flag(true)
  {
    PostBooleanClaim(values, env, ls, ms, n);
  }

  /** In GenerateTokenFromPost the time and schema claims replace posted
      fields of the same name, unless a boolean entry marks the name. */
  lemma PostTimeAndSchemaWin(values: Values, env: Environment, ls: LauncherSchema, ms: seq<Metadata>, k: string)
    requires WellFormed(values)
    requires k in GenerateJwtClaims(env.issuedAt, env.jti) + GetSchemaClaims(ls)
    requires BooleanCount(ms, k) == 0
    ensures k in PostClaims(values, env, ls, ms)
    ensures PostClaims(values, env, ls, ms)[k] == (GenerateJwtClaims(env.issuedAt, env.jti) + GetSchemaClaims(ls))[k]
  {
    var base := GeneratedClaims(values, env.txId) + GenerateJwtClaims(env.issuedAt, env.jti) + GetSchemaClaims(ls);
    MarkBooleansLookup(base, ms, k);
  }

  /** In GenerateTokenFromPost a posted field that is neither a time or
      schema claim nor declared boolean is signed with its first value. */
  lemma PostFormClaim(values: Values, env: Environment, ls: LauncherSchema, ms: seq<Metadata>, k: string)
    requires WellFormed(values)
    requires k in values && k !in GenerateJwtClaims(env.issuedAt, env.jti) + GetSchemaClaims(ls)
    requires BooleanCount(ms, k) == 0
    ensures k in PostClaims(values, env, ls, ms)
    ensures PostClaims(values, env, ls, ms)[k] == Text(values[k][0])
  {
    var base := GeneratedClaims(values, env.txId) + GenerateJwtClaims(env.issuedAt, env.jti) + GetSchemaClaims(ls);
    MarkBooleansLookup(base, ms, k);
  }

  /** In GenerateTokenFromPost a form without roles or tx_id is signed with
      roles ["dumper"] and the fresh transaction id, unless a boolean entry
      declares the name. */
  lemma PostGeneratedDefaults(values: Values, env: Environment, ls: LauncherSchema, ms: seq<Metadata>)
    requires WellFormed(values)
    ensures "roles" !in values && BooleanCount(ms, "roles") == 0
            ==> "roles" in PostClaims(values, env, ls, ms) && PostClaims(values, env, ls, ms)["roles"] == TextList(["dumper"])
    ensures "tx_id" !in values && BooleanCount(ms, "tx_id") == 0
            ==> "tx_id" in PostClaims(values, env, ls, ms) && PostClaims(values, env, ls, ms)["tx_id"] == Text(env.txId)
  {
    var base := GeneratedClaims(values, env.txId) + GenerateJwtClaims(env.issuedAt, env.jti) + GetSchemaClaims(ls);
    JwtAndSchemaKeysDisjoint(env.issuedAt, env.jti, ls);
    MarkBooleansLookup(base, ms, "roles");
    MarkBooleansLookup(base, ms, "tx_id");
  }

  /** The names ms declares with the boolean validator. */
  function BooleanNames(ms: seq<Metadata>): (r: set<string>)
    ensures forall i :: 0 <= i < |ms| && ms[i].validator == "boolean" ==> ms[i].name in r
    ensures forall n :: n in r ==> exists i :: 0 <= i < |ms| && ms[i].validator == "boolean" && ms[i].name == n
  {
    set i | 0 <= i < |ms| && ms[i].validator == "boolean" :: ms[i].name
  }

  /** GenerateTokenFromDefaults signs exactly the form keys, roles, tx_id,
      every declared metadata name, and the time and schema claims. */
  lemma DefaultsKeys(values: Values, env: Environment, ls: LauncherSchema, ms: seq<Metadata>)
    requires WellFormed(values)
    ensures DefaultsClaims(values, env, ls, ms).Keys
         == values.Keys + {"roles", "tx_id"} + Names(ms)
            + GenerateJwtClaims(env.issuedAt, env.jti).Keys + GetSchemaClaims(ls).Keys
  {
    ApplyMetadataKeys(GeneratedClaims(values, env.txId), ms, values);
  }

  /** GenerateTokenFromPost signs exactly the posted keys, roles, tx_id, the
      time and schema claims, and the names declared boolean: a non-boolean
      metadata entry adds no claim. */
  lemma PostKeys(values: Values, env: Environment, ls: LauncherSchema, ms: seq<Metadata>)
    requires WellFormed(values)
    ensures PostClaims(values, env, ls, ms).Keys
         == values.Keys + {"roles", "tx_id"}
            + GenerateJwtClaims(env.issuedAt, env.jti).Keys + GetSchemaClaims(ls).Keys + BooleanNames(ms)
  {
    var base := GeneratedClaims(values, env.txId) + GenerateJwtClaims(env.issuedAt, env.jti) + GetSchemaClaims(ls);
    var c := PostClaims(values, env, ls, ms);
    forall n ensures n in c <==> n in base.Keys + BooleanNames(ms) {
      MarkBooleansLookup(base, ms, n);
      if n in BooleanNames(ms) {
        var i :| 0 <= i < |ms| && ms[i].validator == "boolean" && ms[i].name == n;
        assert BooleanCount(ms, n) != 0;
      }
    }
    assert c.Keys == base.Keys + BooleanNames(ms);
  }

  /** In GenerateTokenFromPost a metadata field that is not posted, not
      generated, not a time or schema claim and not declared boolean is
      left out of the token: its default is never applied. */
  lemma PostNonBooleanNotDefaulted(values: Values, env: Environment, ls: LauncherSchema, ms: seq<Metadata>, n: string)
    requires WellFormed(values)
    requires n !in values && n != "roles" && n != "tx_id"
    requires n !in GenerateJwtClaims(env.issuedAt, env.jti) + GetSchemaClaims(ls)
    requires BooleanCount(ms, n) == 0
    ensures n !in PostClaims(values, env, ls, ms)
  {
    var base := GeneratedClaims(values, env.txId) + GenerateJwtClaims(env.issuedAt, env.jti) + GetSchemaClaims(ls);
    MarkBooleansLookup(base, ms, n);
  }
}

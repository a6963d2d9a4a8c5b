# go-launch-a-survey, modelled in Dafny

go-launch-a-survey is the ONS launcher for the eQ survey runner. It lets a
tester pick a questionnaire schema, fills in the metadata claims the schema
asks for (from posted form values, URL values or built-in defaults), signs
and encrypts those claims into a token, and redirects the browser to the
runner with the token. This project models the deterministic core of that
launcher:

- `settings.dfy` (module `Settings`): the settings table filled at start-up
  from the environment or built-in defaults, as a class whose `values` map
  is updated in place, and read by name with "" for an unknown name.
- `surveys.dfy` (module `Surveys`): the schema naming pattern
  `^([a-z0-9]+)_(\w+)` as an exact character-class scan with a reference
  definition of a match. Also the fixed schema list, the mapping of survey
  register entries to launcher schemas, and the first-match lookup by name.
- `auth.dfy` (module `Authentication`): the claims builder. It covers form
  defaulting with Go's `strconv.ParseBool` spellings, generated, JWT-time
  and schema claims, the metadata URL choice and the in-place default loop,
  the cache-bust rewrite, both error formatters, and the two token builders.
  Each builder overlays its claim sources in the source's order, so later
  sources overwrite earlier ones. Every loop is a method proved equal to a
  specification function, and lemmas state what the signed claims hold.
- `launch.dfy` (module `Launch`): the decision of the POST launch handler
  (error, flush redirect, session redirect or "Invalid Action") and the
  fixed list of 48 schema names the launch page offers.
- `wrappers.dfy` (module `Wrappers`): `Option`, and `Outcome`, which
  separates an error returned as a string (`Err`) from a Go panic (`Panic`).

HTTP replies, the schema validator's verdict, token issuance, UUIDs and
clock readings are parameters. In the token builders they are gathered in
`Authentication.Environment`.

Five behaviours of the code are easy to miss:
- A posted `roles` ends as its first value, a scalar. Only an absent
  `roles` gives the list `["dumper"]`.
- Boolean fields: the URL flow uses `ParseBool` with default false, so an
  unparsable value reads false. The POST flow marks a field true when its
  name is already a claim key, so a posted "false" is signed as true.
- Survey register: the code GETs SURVEY_REGISTER_URL itself and reads its
  embedded "schemas" list.
- Form fields: every form key is copied into the claims, whether or not a
  schema declares it.
- Metadata defaults: the POST flow computes them but applies none. It only
  marks boolean entries, so a declared non-boolean field that is not posted
  (such as `ru_ref`) is left out of the token. The URL flow signs every
  declared field, with its default when the URL lacks it.

## Model

| member | source | states |
|---|---|---|
| Settings.Resolve | settings/settings.go:7-13 | the stored value is the environment's whenever the variable is set, even to "", and the default only when it is unset |
| Settings.Settings.SetSetting | settings/settings.go:7-13 | after the call the key maps to its resolved value and every other key keeps its old value, so a second call on the same key overwrites the first |
| Settings.InitialSettings | settings/settings.go:15-22 | the table after start-up holds exactly the five listed keys, which are five distinct names |
| Settings.Settings.constructor | settings/settings.go:15-22 | start-up, from an empty table through the five setting calls in order, gives exactly the InitialSettings table of the environment |
| Settings.StartupValues | settings/settings.go:17-21 | each of the five keys holds its environment value when set and its literal default otherwise (e.g. SURVEY_RUNNER_URL defaults to http://localhost:5000) |
| Settings.UnlistedKeysAbsent | settings/settings.go:15-26 | SURVEY_REGISTER_URL and SURVEY_RUNNER_SCHEMA_URL are never in the table after start-up, so reading them gives "" |
| Settings.Settings.GetSetting | settings/settings.go:24-26 | a stored key reads as its value, any other name as the zero value "" |
| Surveys.ExtractEqIDFormType | surveys/surveys.go:34-43 | the two groups are empty together, and non-empty groups followed by '_' between them form a prefix of the name; its partners ExtractIsMatch, MatchIsExtracted and NoMatchIsEmpty tie it to the pattern in both directions |
| Surveys.Span | surveys/surveys.go:34 | the result is the length of the longest prefix made of one character class: every character before it is in the class and the one at it is not |
| Surveys.SpanIsRun | surveys/surveys.go:34 | a class run ended by a non-class character, or by the end of the string, is exactly the span, so greedy matching is unique |
| Surveys.ExtractIsMatch | surveys/surveys.go:34-43 | both groups are empty together, and non-empty groups form a match: a non-empty [a-z0-9] eq_id, '_', a non-empty \w form_type, together a prefix of the input, the form_type not followed by a word character |
| Surveys.MatchIsExtracted | surveys/surveys.go:34-43 | any pair that matches the pattern in a string is exactly what the extraction returns |
| Surveys.NoMatchIsEmpty | surveys/surveys.go:36-42 | the extraction gives ("", "") if and only if the pattern does not match: an empty string or a first character outside [a-z0-9], a leading run not followed by '_', or no word character after the '_' |
| Surveys.ExampleOne | surveys/surveys.go:36-43 | "1_0005.json" splits into ("1", "0005") |
| Surveys.ExampleTwo | surveys/surveys.go:36-43 | "test_big_list_naughty_strings.json" splits into ("test", "big_list_naughty_strings") |
| Surveys.LauncherSchemaFromFilename | surveys/surveys.go:46-53 | the name is the file name, the URL is empty, and eq_id and form_type are the pattern's groups, both empty exactly when the name does not match |
| Surveys.StaticSchemas | surveys/surveys.go:57-159 | the fixed list has one schema per listed file name, in the listed order, each built from its file name |
| Surveys.StaticSchemaExample | surveys/surveys.go:57-59 | the fixed list has 101 entries and its second is ("1_0005.json", eq_id "1", form_type "0005", no URL) |
| Surveys.RegisterSchemas | surveys/surveys.go:164-211 | with SURVEY_REGISTER_URL empty the register adds nothing; otherwise one schema per decoded entry, in order, each with the entry's name, self-link href and the name's groups |
| Surveys.FromRegister | surveys/surveys.go:198-207 | the schema keeps the entry's name, takes the href of its "self" link, and carries the naming pattern's groups of the name, both empty exactly when the name does not match |
| Surveys.GetAvailableSchemasFromRegister | surveys/surveys.go:164-211 | the append loop builds exactly the register's schema list |
| Surveys.AvailableSchemas | surveys/surveys.go:56-162 | the available list starts with the whole fixed list and continues with exactly the register's schemas, so its length is the sum of both |
| Surveys.GetAvailableSchemas | surveys/surveys.go:56-162 | the result is the fixed list in its order followed by the register's schemas in theirs, and it starts with the whole fixed list |
| Surveys.NoRegisterMeansStaticOnly | surveys/surveys.go:161-168 | without a register URL the available schemas are exactly the fixed list |
| Surveys.FirstIndex | surveys/surveys.go:214-221 | the position returned holds the name and no earlier position does; it is the list's length when no entry has the name |
| Surveys.FirstNamed | surveys/surveys.go:214-221 | the lookup finds nothing if and only if no entry has the name |
| Surveys.ScanForName | surveys/surveys.go:215-220 | the loop with early return yields the first entry in list order with the name, and reaches the end only when none has it |
| Surveys.FirstMatchIsFirstNamed | surveys/surveys.go:215-219 | an entry with the name that no earlier entry shares is the one the lookup returns |
| Surveys.FindSurveyByName | surveys/surveys.go:214-221 | the result is the first available schema with the name, and None (the panic "Survey not found") exactly when no available schema has it |
| Authentication.KeyLoadErrorText | authentication/auth.go:38-43 | a nil error prints "<nil>", any other prints its operation, ": " and its message |
| Authentication.KeyLoadErrorTextNeverNil | authentication/auth.go:38-43 | a real key error never prints like a nil one and its text starts with the operation |
| Authentication.TokenErrorText | authentication/auth.go:244-253 | a nil error prints "<nil>"; otherwise the description, followed by " (" cause ")" only when there is a cause |
| Authentication.CauseText | authentication/auth.go:249-251 | a wrapped key error prints as its operation, ": " and its message; a library error as its own text |
| Authentication.TokenErrorTextShape | authentication/auth.go:244-253 | the text starts with the description and, with a cause, is exactly three characters longer than description plus cause, opening " (" and ending ')' |
| Authentication.FormGet | launch.go:117-118 | a form field reads as its first value, or "" when it is absent or has no values |
| Authentication.ParseBool | authentication/auth.go:296-303 | true exactly for 1, t, T, TRUE, true, True; false exactly for 0, f, F, FALSE, false, False; any other text is a parse error |
| Authentication.GetBooleanOrDefault | authentication/auth.go:296-303 | an absent key gives the default; a present key is true if and only if its first value parses as true, so an unparsable value gives false, not the default |
| Authentication.UnparsableBooleanIsFalse | authentication/auth.go:296-303 | a present field whose first value is "yes" reads false, whatever the default |
| Authentication.GetStringOrDefault | authentication/auth.go:305-311 | a present key gives its first value, an absent one the default |
| Authentication.GeneratedClaims | authentication/auth.go:122-143 | the claim keys are exactly the form keys plus roles and tx_id; every form key maps to its first value (a posted roles list becomes a scalar); roles is ["dumper"] and tx_id the fresh UUID when the form lacks them |
| Authentication.GenerateClaims | authentication/auth.go:122-143 | the insertion loop over the form keys builds exactly the GeneratedClaims map, whatever order it visits the keys in |
| Authentication.GenerateJwtClaims | authentication/auth.go:146-157 | exactly the keys iat, exp, jti; exp is iat plus 600 seconds; jti is the fresh UUID |
| Authentication.GetSchemaClaims | authentication/auth.go:225-233 | exactly eq_id, form_type and survey_url, holding the schema's eq_id, form_type and URL |
| Authentication.JwtAndSchemaKeysDisjoint | authentication/auth.go:146-157 | the JWT-time and schema claims share no key and neither has roles, tx_id or account_url, so their overlay order is immaterial |
| Authentication.GetDefaultValues | authentication/auth.go:444-467 | the defaults carry the fresh collection_exercise_sid, the start date as started_at, user_id "UNKNOWN" and ru_ref "12346789012A" |
| Authentication.CacheBustURL | authentication/auth.go:185-194 | a URL with a '?' is kept; one without gets "?bust=" and the timestamp appended |
| Authentication.CacheBustIdempotent | authentication/auth.go:185-194 | a busted URL always has a query, so busting it again, at any later time, changes nothing |
| Authentication.LauncherSchemaFromURL | authentication/auth.go:159-197 | a transport error panics; a non-200 status returns "Failed to load Schema from " and the URL; the result is a schema if and only if the reply is 200, decodes and passes validation, and the schema then carries the fetched eq_id and form_type and the cache-busted URL; a validator complaint on a readable body is returned as the error; an unreadable body, or an undecodable one the validator accepts, panics |
| Authentication.MetadataURL | authentication/auth.go:397-405 | the schema's own URL when it has one, else host + "/schemas/" + eq_id + "/" + form_type |
| Authentication.DefaultFor | authentication/auth.go:430-438 | a boolean entry defaults to "false"; any other to the launcher default for its name, or "" when there is none |
| Authentication.WithDefaults | authentication/auth.go:430-438 | the metadata keeps its length, names and validators, and each entry gets its default |
| Authentication.RequiredMetadata | authentication/auth.go:395-441 | never panics; succeeds if and only if the reply is 200 and decodes, returning the metadata with defaults; an undecodable 200 body gives "Failed to unmarshal Schema from " + URL, and every other failure "Failed to load Schema from " + URL |
| Authentication.GetRequiredMetadata | authentication/auth.go:395-441 | it fetches the chosen URL and its in-place default loop gives exactly RequiredMetadata's metadata and error |
| Authentication.AssignDefaults | authentication/auth.go:430-438 | the in-place loop over the metadata array leaves exactly WithDefaults of the fetched metadata: each entry's default set from the launcher defaults, then "false" for a boolean entry |
| Authentication.OverlayClaims | authentication/auth.go:337-345 | copying a source into the claims gives the source's value for every source key and keeps every other claim |
| Authentication.MetadataClaim | authentication/auth.go:329-335 | a boolean entry's claim is the parsed form value with default false; any other's is the form value or the entry's default |
| Authentication.ApplyMetadata | authentication/auth.go:329-335 | after the metadata loop the last entry's name is a claim holding that entry's claim; ApplyMetadataLookup states the whole map |
| Authentication.Names | authentication/auth.go:329-335 | the names set holds exactly the names the metadata entries declare |
| Authentication.ApplyMetadataLookup | authentication/auth.go:329-335 | after the metadata loop the keys are the old keys plus the declared names; a name holds the claim of the last entry declaring it; other claims are unchanged |
| Authentication.AssignMetadataClaims | authentication/auth.go:329-335 | the metadata loop of the URL flow computes exactly ApplyMetadata |
| Authentication.BooleanCount | authentication/auth.go:379-384 | the count is zero if and only if no boolean entry has the name |
| Authentication.MarkBooleansLookup | authentication/auth.go:379-384 | after the boolean loop a name a boolean entry declares is present, true if and only if it was a claim before or is declared boolean twice; other claims are unchanged |
| Authentication.MarkBooleans | authentication/auth.go:379-384 | the boolean loop removes no claim and writes only flags, so every claim that is not a flag after it is as it was before |
| Authentication.MarkBooleanMetadata | authentication/auth.go:379-384 | the boolean loop of the POST flow computes exactly MarkBooleans |
| Authentication.IssueOutcome | authentication/auth.go:347-352 | a signed token is returned; an issuance error becomes "<builder> failed err: " and the error's text |
| Authentication.DefaultsClaims | authentication/auth.go:314-345 | the signed claims always contain the schema and time claims: eq_id, form_type, survey_url from the schema and iat, exp = iat + 600, jti from the JWT claims |
| Authentication.DefaultsRun | authentication/auth.go:314-353 | an error or panic of the schema load is returned unchanged with nothing signed; after a load, claims reach issuance if and only if the metadata request succeeds, and a failed one returns "GetRequiredMetadata failed err: " and its message; whenever claims reach issuance, the result is what issuing exactly those claims gives |
| Authentication.GenerateTokenFromDefaults | authentication/auth.go:314-353 | the caller's form values gain account_url = accountURL, and the claims signed and result returned are exactly DefaultsRun's on those values |
| Authentication.DefaultsKeys | authentication/auth.go:314-345 | the signed claims have exactly the form keys (account_url included), roles, tx_id, every declared metadata name, iat, exp, jti, eq_id, form_type and survey_url |
| Authentication.DefaultsMetadataClaim | authentication/auth.go:329-345 | a metadata name other than a time or schema claim is signed with its last entry's claim: the parsed boolean, or the form value or default |
| Authentication.DefaultsGeneratedDefaults | authentication/auth.go:314-345 | a form without roles is signed with roles ["dumper"], and one without tx_id with the fresh transaction id, unless a metadata entry declares the name |
| Authentication.DefaultsFormClaim | authentication/auth.go:317-345 | a form key no metadata declares and no time or schema claim shares is signed with its first value |
| Authentication.DefaultsAccountURL | authentication/auth.go:316-345 | the account URL is signed as account_url unless a boolean metadata entry takes the name |
| Authentication.DefaultsSignsFetchedSchema | authentication/auth.go:318-345 | a run that reaches issuance fetched a decodable schema, and signs its eq_id and form_type and the cache-busted survey URL |
| Authentication.DefaultsMetadataFailure | authentication/auth.go:319-328 | the metadata is requested from the cache-busted survey URL in a request of its own, and when that request fails after the schema loaded nothing is signed and "GetRequiredMetadata failed err: Failed to load Schema from " + that URL is returned |
| Authentication.PostRun | authentication/auth.go:356-392 | the result is the panic "Survey not found" if and only if no available schema has the posted name; for a found schema, claims reach issuance if and only if the metadata request succeeds, and a failed one returns "GetRequiredMetadata failed err: " and its message; whenever claims reach issuance, the result is what issuing exactly those claims gives |
| Authentication.GenerateTokenFromPost | authentication/auth.go:356-392 | the claims signed and result returned are exactly PostRun's: an unknown schema name panics, a metadata failure is returned, otherwise the overlaid and boolean-marked claims are issued |
| Authentication.PostClaims | authentication/auth.go:362-384 | the signed POST claims hold every posted key, roles, tx_id, the three time claims and the three schema claims, and a schema claim that is not a flag holds the schema's value; PostBooleanClaim states the flags |
| Authentication.LastNamedExists | authentication/auth.go:329-335 | every declared name has a last entry declaring it |
| Authentication.PostBooleanClaim | authentication/auth.go:362-384 | a boolean metadata name is signed true if and only if it was posted, is roles or tx_id, is a time or schema claim, or is declared boolean twice; the posted text is never parsed |
| Authentication.PostedFalseIsTrue | authentication/auth.go:362-384 | a boolean field posted as "false" is signed as true |
| Authentication.PostTimeAndSchemaWin | authentication/auth.go:364-384 | a posted field named like a time or schema claim is replaced by that claim unless a boolean entry marks the name |
| Authentication.PostFormClaim | authentication/auth.go:362-384 | a posted field that is not a time or schema claim and that no boolean entry declares is signed with its first value |
| Authentication.PostGeneratedDefaults | authentication/auth.go:356-384 | a post without roles is signed with roles ["dumper"], and one without tx_id with the fresh transaction id, unless a boolean entry declares the name |
| Authentication.BooleanNames | authentication/auth.go:379-384 | the set holds exactly the names of the entries with the boolean validator |
| Authentication.PostKeys | authentication/auth.go:356-384 | the signed claims have exactly the posted keys, roles, tx_id, iat, exp, jti, eq_id, form_type, survey_url and the names declared boolean: a non-boolean metadata entry adds no claim |
| Authentication.PostNonBooleanNotDefaulted | authentication/auth.go:356-384 | a metadata field that is not posted, generated, a time or schema claim, or declared boolean is absent from the signed claims, so its default is never applied |
| Launch.GetAvailableSchemas | launch.go:46-97 | the launch page offers 48 names, in the listed order |
| Launch.AllNamesEndInJson | launch.go:46-97 | every offered name ends in ".json" |
| Launch.AllNamesDistinct | launch.go:46-97 | the 48 offered names are pairwise distinct |
| Launch.PostLaunch | launch.go:104-130 | a form-parse error or a failed conversion gives 500 with its message, checked before any action; a redirect happens if and only if neither failed and an action is set; a set flush goes to host/flush?token= with 307 even when launch is set; launch alone goes to host/session?token= with 301; no action gives 500 "Invalid Action"; every error is a 500 |
| Launch.RedirectCarriesToken | launch.go:123-126 | every redirect comes from a converted token, starts with the runner host and ends with "?token=" and the token |
| Launch.ErrorsPrecedeActions | launch.go:111-115 | once conversion fails, the response is that error whatever the form's actions and the host |

## Left out

- Key loading (authentication/auth.go:57-106): file reads, PEM decoding per RFC 7468, x509 parsing and SHA-1 key ids are foreign calls; only the KeyLoadError type and its text are modelled.
- Token issuance (authentication/auth.go:256-294): the nested JWT (RFC 7519, signed with RS256 and encrypted with RSA-OAEP and A256GCM per RFC 7518) is a library wrapper. It is the `issue` parameter returning a token or a TokenError. The error texts it can produce, including the reused "Error creating JWT signer" for the encryptor failure, come in through that parameter.
- Schema validation (authentication/auth.go:199-223): its HTTP POST is out, and its verdict is the `validationError` parameter.
- HTTP traffic and JSON/HAL decoding: each GET becomes a function from URL to reply. The schema GET of launcherSchemaFromURL and the metadata GET of GetRequiredMetadata are two separate functions, so the two requests can be answered differently even for the same URL. The register's decoded entries are a parameter. A register request that fails at log.Fatal (surveys/surveys.go:169-178) ends the process and is not modelled, and neither is a register decoding failure, which the source only logs.
- Surveys.FromRegister: a register entry without a "self" link is given the URL "". The source reads the map entry's Href, and whether that is "" or a nil dereference depends on the HAL library's link type, which is not part of this model.
- UUIDs, `time.Now` and date formatting are parameters: txId, jti, collectionExerciseSid, issuedAt in seconds, the bust timestamp and the start date.
- Logging is left out.
- clients/http.go only returns a shared HTTP client with a timeout, so there is nothing to state about it.
- launch.go plumbing is left out: serveTemplate, main's routing and static serving, and the GET handler.
- surveys/surveys_test.go is left out. It calls functions not defined in surveys/surveys.go and expects a display-name format that no shown code produces.
- settings.Get, which auth.go, surveys.go and launch.go call, is not defined in settings/settings.go, which defines GetSetting. Values read through it (SURVEY_RUNNER_SCHEMA_URL, SURVEY_REGISTER_URL, SURVEY_RUNNER_URL) are parameters: schemaHost, registerURL, hostURL.
- authentication.ConvertPostToToken, which launch.go:111 calls, is not defined in authentication/auth.go. Its result is the opaque `Conversion` input of Launch.PostLaunch.
- Authentication.GenerateTokenFromDefaults: the source adds account_url to the caller's url.Values in place. The model returns the updated map as `urlValuesAfter` and does not model the aliasing.
- Go panics (transport, read and unmarshal errors in launcherSchemaFromURL, an unknown survey name) become a `Panic` outcome or `None`, not a program abort. An empty value list, which the source's `value[0]` would panic on, is excluded by `requires WellFormed(...)`.
- Launch.PostLaunch: the form's parse error and the conversion are inputs. Response writing and the request log line are not modelled.
- Authentication.GetDefaultValues: its contract names four of the seventeen defaults. The others are constants that the body lists.

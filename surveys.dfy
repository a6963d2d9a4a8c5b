/**
 * Schema naming and lookup of the launcher: how a schema file name is split
 * into its eq_id and form_type, the list of schemas the launcher offers (a
 * fixed list followed by whatever the survey register publishes), and the
 * first-match lookup by name used when a launch form is posted.
 */
module Surveys {
  import opened Wrappers

  /** A schema as the launcher knows it: its display name, eq_id, form_type
      and the URL it is fetched from ("" for the fixed schemas). */
  datatype LauncherSchema = LauncherSchema(name: string, eqId: string, formType: string, url: string)

  /** One entry of the register's embedded "schemas" list after HAL decoding:
      its name and its links, by relation name, to their hrefs. */
  datatype RegisterSchema = RegisterSchema(name: string, links: map<string, string>)

  // ---------------------------------------------------------------------
  // The pattern ^([a-z0-9]+)_(\w+) as a scan over character classes
  // ---------------------------------------------------------------------

  /** The class [a-z0-9] of the eq_id group. */
  predicate IsEqIdChar(c: char) {
    'a' <= c <= 'z' || '0' <= c <= '9'
  }

  /** The class \w of RE2 (ASCII word characters) of the form_type group. */
  predicate IsWordChar(c: char) {
    'a' <= c <= 'z' || 'A' <= c <= 'Z' || '0' <= c <= '9' || c == '_'
  }

  /** The two character classes of the pattern. */
  datatype CharClass = EqIdClass | WordClass

  predicate InClass(cls: CharClass, c: char) {
    match cls
    case EqIdClass => IsEqIdChar(c)
    case WordClass => IsWordChar(c)
  }

  /** Length of the longest prefix of s made only of characters of class cls. */
  function Span(s: string, cls: CharClass): (n: nat)
    ensures n <= |s|
    ensures forall i :: 0 <= i < n ==> InClass(cls, s[i])
    ensures n < |s| ==> !InClass(cls, s[n])
  {
    if s == [] || !InClass(cls, s[0]) then 0 else 1 + Span(s[1..], cls)
  }

  /** extractEqIDFormType: the two groups of the leftmost match of
      ^([a-z0-9]+)_(\w+), or ("", "") when the pattern does not match.
      Both quantifiers are greedy and the pattern is anchored, so the first
      group is the whole leading [a-z0-9] run and the second the whole
      \w run after the underscore. */
  function ExtractEqIDFormType(schema: string): (r: (string, string))
    ensures (r.0 == "") == (r.1 == "")
    ensures r.0 != "" ==> r.0 + "_" + r.1 <= schema
  {
    var n := Span(schema, EqIdClass);
    if 0 < n < |schema| && schema[n] == '_' then
      var m := Span(schema[n + 1..], WordClass);
      if 0 < m then
        assert schema[..n + 1 + m] == schema[..n] + "_" + schema[n + 1..n + 1 + m];
        (schema[..n], schema[n + 1..n + 1 + m])
      else ("", "")
    else
      ("", "")
  }

  /** Reference definition of a successful match: (eqId, formType) are the
      groups the anchored greedy pattern captures in s. */
  ghost predicate IsMatch(s: string, eqId: string, formType: string) {
    && |eqId| > 0
    && (forall i :: 0 <= i < |eqId| ==> IsEqIdChar(eqId[i]))
    && |formType| > 0
    && (forall i :: 0 <= i < |formType| ==> IsWordChar(formType[i]))
    && eqId + "_" + formType <= s
    && (|eqId| + 1 + |formType| == |s| || !IsWordChar(s[|eqId| + 1 + |formType|]))
  }

  /** The pattern matches s at all: some non-empty [a-z0-9] run at the start
      of s is followed by '_' and then by at least one word character. */
  ghost predicate PatternMatches(s: string) {
    exists k: nat :: 0 < k && k + 1 < |s| && s[k] == '_' && IsWordChar(s[k + 1]) && EqIdRun(s, k)
  }

  /** The first k characters of s are all in [a-z0-9]. */
  predicate EqIdRun(s: string, k: nat) {
    k <= |s| && forall i :: 0 <= i < k ==> IsEqIdChar(s[i])
  }

  /** A run of cls characters ended by a character outside cls is exactly
      the span of cls at the start of s. */
  lemma {:induction false} SpanIsRun(s: string, cls: CharClass, k: nat)
    requires k <= |s|
    requires forall i :: 0 <= i < k ==> InClass(cls, s[i])
    requires k == |s| || !InClass(cls, s[k])
    ensures Span(s, cls) == k
  {
    if k > 0 {
      var t := s[1..];
      forall i | 0 <= i < k - 1 ensures InClass(cls, t[i]) {
        assert t[i] == s[i + 1];
      }
      assert k - 1 < |t| ==> t[k - 1] == s[k];
      SpanIsRun(t, cls, k - 1);
    }
  }

  /** Whatever the extraction returns on a match is the match. */
  lemma ExtractIsMatch(s: string)
    ensures var r := ExtractEqIDFormType(s);
            (r.0 == "" <==> r.1 == "") && (r.0 != "" ==> IsMatch(s, r.0, r.1))
  {
    var n := Span(s, EqIdClass);
    if 0 < n < |s| && s[n] == '_' {
      var rest := s[n + 1..];
      var m := Span(rest, WordClass);
      if 0 < m {
        var eqId, formType := s[..n], s[n + 1..n + 1 + m];
        assert s[..n + 1 + m] == eqId + "_" + formType;
        assert n + 1 + m < |s| ==> s[n + 1 + m] == rest[m];
      }
    }
  }

  /** A match fixes the extraction: the groups are unique. */
  lemma MatchIsExtracted(s: string, eqId: string, formType: string)
    requires IsMatch(s, eqId, formType)
    ensures ExtractEqIDFormType(s) == (eqId, formType)
  {
    var p := eqId + "_" + formType;
    var n, m := |eqId|, |formType|;
    forall i | 0 <= i < n ensures IsEqIdChar(s[i]) {
      assert s[i] == p[i] == eqId[i];
    }
    assert s[n] == p[n] == '_';
    SpanIsRun(s, EqIdClass, n);
    var rest := s[n + 1..];
    forall i | 0 <= i < m ensures IsWordChar(rest[i]) {
      assert rest[i] == p[n + 1 + i] == formType[i];
    }
    assert m < |rest| ==> rest[m] == s[n + 1 + m];
    SpanIsRun(rest, WordClass, m);
    assert s[..n] == p[..n] == eqId;
    assert s[n + 1..n + 1 + m] == p[n + 1..] == formType;
  }

  /** The extraction yields ("", "") exactly when the pattern does not match:
      s is empty or starts outside [a-z0-9], the leading run is not followed
      by '_', or no word character follows the '_'. */
  lemma NoMatchIsEmpty(s: string)
    ensures ExtractEqIDFormType(s) == ("", "") <==> !PatternMatches(s)
  {
    var n := Span(s, EqIdClass);
    if 0 < n < |s| && s[n] == '_' && Span(s[n + 1..], WordClass) > 0 {
      assert s[n + 1..][0] == s[n + 1];
      assert EqIdRun(s, n);
    } else {
      forall k: nat | 0 < k && k + 1 < |s| && s[k] == '_' && EqIdRun(s, k)
        ensures !IsWordChar(s[k + 1])
      {
        SpanIsRun(s, EqIdClass, k);
        assert s[k + 1..][0] == s[k + 1];
      }
    }
  }

  /** Two names from the fixed list. */
  lemma ExampleOne()
    ensures ExtractEqIDFormType("1_0005.json") == ("1", "0005")
  {
    var s := "1_0005.json";
    assert s[..6] == "1" + "_" + "0005";
    assert s[6] == '.';
    MatchIsExtracted(s, "1", "0005");
  }

  lemma ExampleTwo()
    ensures ExtractEqIDFormType("test_big_list_naughty_strings.json") == ("test", "big_list_naughty_strings")
  {
    var t := "test_big_list_naughty_strings.json";
    assert t[..29] == "test" + "_" + "big_list_naughty_strings";
    assert t[29] == '.';
    MatchIsExtracted(t, "test", "big_list_naughty_strings");
  }

  // ---------------------------------------------------------------------
  // Launcher schemas
  // ---------------------------------------------------------------------

  /** LauncherSchemaFromFilename: name is the file name, no URL, and eq_id
      and form_type are the groups of the naming pattern (both "" when the
      file name does not follow it). */
  function LauncherSchemaFromFilename(filename: string): (r: LauncherSchema)
    ensures r.name == filename && r.url == ""
    ensures r.eqId != "" ==> IsMatch(filename, r.eqId, r.formType)
    ensures r.eqId == "" ==> r.formType == "" && !PatternMatches(filename)
  {
    ExtractIsMatch(filename);
    NoMatchIsEmpty(filename);
    var groups := ExtractEqIDFormType(filename);
    LauncherSchema(filename, groups.0, groups.1, "")
  }

  /** The file names of the fixed schema list, in the source's order. */
  function StaticSchemaName(i: nat): string
    requires i < 101
  {
    if i == 0 then "0_star_wars.json"
    else if i == 1 then "1_0005.json"
    else if i == 2 then "1_0102.json"
    else if i == 3 then "1_0112.json"
    else if i == 4 then "1_0203.json"
    else if i == 5 then "1_0205.json"
    else if i == 6 then "1_0213.json"
    else if i == 7 then "1_0215.json"
    else if i == 8 then "2_0001.json"
    else if i == 9 then "census_communal.json"
    else if i == 10 then "census_household.json"
    else if i == 11 then "census_individual.json"
    else if i == 12 then "e_commerce.json"
    else if i == 13 then "mbs_0111.json"
    else if i == 14 then "mbs_0117.json"
    else if i == 15 then "mbs_0123.json"
    else if i == 16 then "mbs_0167.json"
    else if i == 17 then "mbs_0173.json"
    else if i == 18 then "mbs_0205.json"
    else if i == 19 then "mbs_0216.json"
    else if i == 20 then "mbs_0255.json"
    else if i == 21 then "mbs_0817.json"
    else if i == 22 then "mbs_0867.json"
    else if i == 23 then "multiple_answers.json"
    else if i == 24 then "test_big_list_naughty_strings.json"
    else if i == 25 then "test_checkbox.json"
    else if i == 26 then "test_conditional_dates.json"
    else if i == 27 then "test_conditional_routing.json"
    else if i == 28 then "test_confirmation_question.json"
    else if i == 29 then "test_currency.json"
    else if i == 30 then "test_date_range_period_validation.json"
    else if i == 31 then "test_dates.json"
    else if i == 32 then "test_default.json"
    else if i == 33 then "test_dependencies_calculation.json"
    else if i == 34 then "test_dependencies_max_value.json"
    else if i == 35 then "test_dependencies_min_value.json"
    else if i == 36 then "test_difference_in_years.json"
    else if i == 37 then "test_difference_in_years_month_year.json"
    else if i == 38 then "test_difference_in_years_month_year_range.json"
    else if i == 39 then "test_difference_in_years_range.json"
    else if i == 40 then "test_dropdown_mandatory.json"
    else if i == 41 then "test_dropdown_mandatory_with_overridden_error.json"
    else if i == 42 then "test_dropdown_optional.json"
    else if i == 43 then "test_error_messages.json"
    else if i == 44 then "test_final_confirmation.json"
    else if i == 45 then "test_household_question.json"
    else if i == 46 then "test_interstitial_page.json"
    else if i == 47 then "test_introduction.json"
    else if i == 48 then "test_language.json"
    else if i == 49 then "test_language_cy.json"
    else if i == 50 then "test_markup.json"
    else if i == 51 then "test_metadata_routing.json"
    else if i == 52 then "test_multiple_piping.json"
    else if i == 53 then "test_navigation.json"
    else if i == 54 then "test_navigation_completeness.json"
    else if i == 55 then "test_navigation_confirmation.json"
    else if i == 56 then "test_navigation_routing.json"
    else if i == 57 then "test_numbers.json"
    else if i == 58 then "test_percentage.json"
    else if i == 59 then "test_question_guidance.json"
    else if i == 60 then "test_radio_checkbox_descriptions.json"
    else if i == 61 then "test_radio_mandatory.json"
    else if i == 62 then "test_radio_mandatory_with_mandatory_other.json"
    else if i == 63 then "test_radio_mandatory_with_mandatory_other_overridden_error.json"
    else if i == 64 then "test_radio_mandatory_with_optional_other.json"
    else if i == 65 then "test_radio_mandatory_with_overridden_error.json"
    else if i == 66 then "test_radio_optional.json"
    else if i == 67 then "test_radio_optional_with_mandatory_other.json"
    else if i == 68 then "test_radio_optional_with_mandatory_other_overridden_error.json"
    else if i == 69 then "test_radio_optional_with_optional_other.json"
    else if i == 70 then "test_relationship_household.json"
    else if i == 71 then "test_repeating_and_conditional_routing.json"
    else if i == 72 then "test_repeating_household.json"
    else if i == 73 then "test_routing_date_equals.json"
    else if i == 74 then "test_routing_date_greater_than.json"
    else if i == 75 then "test_routing_date_less_than.json"
    else if i == 76 then "test_routing_date_not_equals.json"
    else if i == 77 then "test_routing_group.json"
    else if i == 78 then "test_routing_number_equals.json"
    else if i == 79 then "test_routing_number_greater_than.json"
    else if i == 80 then "test_routing_number_greater_than_or_equal.json"
    else if i == 81 then "test_routing_number_less_than.json"
    else if i == 82 then "test_routing_number_less_than_or_equal.json"
    else if i == 83 then "test_routing_number_not_equals.json"
    else if i == 84 then "test_routing_on_multiple_select.json"
    else if i == 85 then "test_single_date_period_validation.json"
    else if i == 86 then "test_skip_condition.json"
    else if i == 87 then "test_skip_condition_block.json"
    else if i == 88 then "test_skip_condition_group.json"
    else if i == 89 then "test_summary.json"
    else if i == 90 then "test_section_summary.json"
    else if i == 91 then "test_sum_equal_validation_against_total.json"
    else if i == 92 then "test_sum_equal_or_less_validation_against_total.json"
    else if i == 93 then "test_sum_less_validation_against_total.json"
    else if i == 94 then "test_sum_multi_validation_against_total.json"
    else if i == 95 then "test_view_submitted_response.json"
    else if i == 96 then "test_textarea.json"
    else if i == 97 then "test_textfield.json"
    else if i == 98 then "test_timeout.json"
    else if i == 99 then "test_total_breakdown.json"
    else "test_unit_patterns.json"
  }

  function StaticSchemaNames(): (r: seq<string>)
    ensures |r| == 101
  {
    seq(101, i requires 0 <= i < 101 => StaticSchemaName(i))
  }

  /** The fixed part of GetAvailableSchemas: one schema per file name, in order. */
  function StaticSchemas(): (r: seq<LauncherSchema>)
    ensures |r| == |StaticSchemaNames()|
    ensures forall i :: 0 <= i < |r| ==> r[i] == LauncherSchemaFromFilename(StaticSchemaNames()[i])
  {
    var names := StaticSchemaNames();
    seq(|names|, i requires 0 <= i < |names| => LauncherSchemaFromFilename(names[i]))
  }

  /** The schema one register entry becomes: its name, the href of its
      "self" link (modelled as "" when it has none; whether the source then
      reads "" or dereferences nil depends on the HAL link type),
      and the groups of the naming pattern applied to its name. */
  function FromRegister(schema: RegisterSchema): (r: LauncherSchema)
    ensures r.name == schema.name
    ensures "self" in schema.links ==> r.url == schema.links["self"]
    ensures "self" !in schema.links ==> r.url == ""
    ensures r.eqId != "" ==> IsMatch(schema.name, r.eqId, r.formType)
    ensures r.eqId == "" ==> r.formType == "" && !PatternMatches(schema.name)
  {
    ExtractIsMatch(schema.name);
    NoMatchIsEmpty(schema.name);
    var groups := ExtractEqIDFormType(schema.name);
    LauncherSchema(schema.name, groups.0, groups.1, if "self" in schema.links then schema.links["self"] else "")
  }

  /** The schemas the register contributes: none when SURVEY_REGISTER_URL is
      empty, else one per decoded entry, in order. */
  function RegisterSchemas(registerURL: string, schemas: seq<RegisterSchema>): (r: seq<LauncherSchema>)
    ensures registerURL == "" ==> r == []
    ensures registerURL != "" ==> |r| == |schemas|
    ensures registerURL != "" ==> forall i :: 0 <= i < |r| ==> r[i] == FromRegister(schemas[i])
  {
    if registerURL == "" then [] else seq(|schemas|, i requires 0 <= i < |schemas| => FromRegister(schemas[i]))
  }

  /** Everything GetAvailableSchemas returns: the fixed list, then the register's. */
  function AvailableSchemas(registerURL: string, schemas: seq<RegisterSchema>): (r: seq<LauncherSchema>)
    ensures |r| == |StaticSchemas()| + |RegisterSchemas(registerURL, schemas)|
    ensures r[..|StaticSchemas()|] == StaticSchemas()
    ensures r[|StaticSchemas()|..] == RegisterSchemas(registerURL, schemas)
  {
    StaticSchemas() + RegisterSchemas(registerURL, schemas)
  }

  /** Position of the first schema of list named name; |list| when none is. */
  function FirstIndex(list: seq<LauncherSchema>, name: string): (i: nat)
    ensures i <= |list|
    ensures forall j :: 0 <= j < i ==> list[j].name != name
    ensures i < |list| ==> list[i].name == name
  {
    if list == [] || list[0].name == name then 0 else 1 + FirstIndex(list[1..], name)
  }

  /** The first schema of list whose name is name, if any. */
  function FirstNamed(list: seq<LauncherSchema>, name: string): (r: Option<LauncherSchema>)
    ensures r.None? <==> forall j :: 0 <= j < |list| ==> list[j].name != name
  {
    var i := FirstIndex(list, name);
    if i < |list| then Some(list[i]) else None
  }

  /** getAvailableSchemasFromRegister, after the HTTP GET and the JSON/HAL
      decoding: schemas is whatever the decoding produced for the "schemas"
      list (a decoding error is only logged). */
  method GetAvailableSchemasFromRegister(registerURL: string, schemas: seq<RegisterSchema>)
    returns (schemaList: seq<LauncherSchema>)
    ensures schemaList == RegisterSchemas(registerURL, schemas)
  {
    schemaList := [];
    if registerURL != "" {
      for i := 0 to |schemas|
        invariant |schemaList| == i
        invariant forall j :: 0 <= j < i ==> schemaList[j] == FromRegister(schemas[j])
      {
        var schema := schemas[i];
        var url := if "self" in schema.links then schema.links["self"] else "";
        var groups := ExtractEqIDFormType(schema.name);
        schemaList := schemaList + [LauncherSchema(schema.name, groups.0, groups.1, url)];
      }
    }
  }

  /** GetAvailableSchemas: the fixed list followed by the register's entries. */
  method GetAvailableSchemas(registerURL: string, schemas: seq<RegisterSchema>)
    returns (schemaList: seq<LauncherSchema>)
    ensures schemaList == AvailableSchemas(registerURL, schemas)
    ensures schemaList[..|StaticSchemas()|] == StaticSchemas()
  {
    var registered := GetAvailableSchemasFromRegister(registerURL, schemas);
    schemaList := StaticSchemas() + registered;
    assert schemaList[..|StaticSchemas()|] == StaticSchemas();
  }

  /** FindSurveyByName: the first available schema named name; None stands
      for the source's panic("Survey not found"). */
  method FindSurveyByName(name: string, registerURL: string, schemas: seq<RegisterSchema>)
    returns (survey: Option<LauncherSchema>)
    ensures survey == FirstNamed(AvailableSchemas(registerURL, schemas), name)
  {
    var available := GetAvailableSchemas(registerURL, schemas);
    survey := ScanForName(available, name);
  }

  /** The range loop of FindSurveyByName: returns at the first schema whose
      name matches, and reports None when it runs off the end. */
  method ScanForName(available: seq<LauncherSchema>, name: string)
    returns (survey: Option<LauncherSchema>)
    ensures survey == FirstNamed(available, name)
  {
    for i := 0 to |available|
      invariant forall j :: 0 <= j < i ==> available[j].name != name
    {
      if available[i].name == name {
        FirstMatchIsFirstNamed(available, name, i);
        return Some(available[i]);
      }
    }
    return None;
  }

  /** An entry with the name, preceded by none, is what FirstNamed finds. */
  lemma FirstMatchIsFirstNamed(list: seq<LauncherSchema>, name: string, i: nat)
    requires i < |list| && list[i].name == name
    requires forall j :: 0 <= j < i ==> list[j].name != name
    ensures FirstNamed(list, name) == Some(list[i])
  {
    var k := FirstIndex(list, name);
    assert !(k < i) && !(i < k);
  }

  /** The register part of the list is empty when no register is configured. */
  lemma NoRegisterMeansStaticOnly(schemas: seq<RegisterSchema>)
    ensures AvailableSchemas("", schemas) == StaticSchemas()
  {
  }

  /** The second fixed schema, as the source's naming convention splits it. */
  lemma StaticSchemaExample()
    ensures |StaticSchemas()| == 101
    ensures StaticSchemas()[1] == LauncherSchema("1_0005.json", "1", "0005", "")
  {
    assert StaticSchemaNames()[1] == StaticSchemaName(1) == "1_0005.json";
    ExampleOne();
  }
}

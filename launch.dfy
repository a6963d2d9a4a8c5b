/**
 * The launch page's request handling: the fixed list of schema file names
 * offered on the form, and the single response a launch POST gets (an
 * error, a redirect to the runner's flush endpoint, a redirect to its
 * session endpoint, or "Invalid Action").
 */
module Launch {
  import opened Wrappers
  import Authentication

  // ---------------------------------------------------------------------
  // The schema names offered on the launch form
  // ---------------------------------------------------------------------

  /** The i-th name of getAvailableSchemas, in the source's order; the list
      is looked up in four runs of twelve names. */
  function LaunchSchemaName(i: nat): string
    requires i < 48
  {
    if i < 12 then LaunchNamesFrom0(i)
    else if i < 24 then LaunchNamesFrom12(i)
    else if i < 36 then LaunchNamesFrom24(i)
    else LaunchNamesFrom36(i)
  }

  function LaunchNamesFrom0(i: nat): string
    requires 0 <= i < 12
  {
    if i == 0 then "0_rogue_one.json"
    else if i == 1 then "0_star_wars.json"
    else if i == 2 then "1_0001.json"
    else if i == 3 then "1_0005.json"
    else if i == 4 then "1_0102.json"
    else if i == 5 then "1_0102refresh.json"
    else if i == 6 then "1_0112.json"
    else if i == 7 then "1_0112refresh.json"
    else if i == 8 then "1_0203.json"
    else if i == 9 then "1_0203refresh.json"
    else if i == 10 then "1_0205.json"
    else "1_0205refresh.json"
  }

  function LaunchNamesFrom12(i: nat): string
    requires 12 <= i < 24
  {
    if i == 12 then "1_0213.json"
    else if i == 13 then "1_0213refresh.json"
    else if i == 14 then "1_0215.json"
    else if i == 15 then "2_0001.json"
    else if i == 16 then "census_communal.json"
    else if i == 17 then "census_household.json"
    else if i == 18 then "census_individual.json"
    else if i == 19 then "multiple_answers.json"
    else if i == 20 then "test_checkbox.json"
    else if i == 21 then "test_conditional_routing.json"
    else if i == 22 then "test_currency.json"
    else "test_dates.json"
  }

  function LaunchNamesFrom24(i: nat): string
    requires 24 <= i < 36
  {
    if i == 24 then "test_final_confirmation.json"
    else if i == 25 then "test_household_question.json"
    else if i == 26 then "test_interstitial_page.json"
    else if i == 27 then "test_language.json"
    else if i == 28 then "test_language_cy.json"
    else if i == 29 then "test_markup.json"
    else if i == 30 then "test_metadata_routing.json"
    else if i == 31 then "test_navigation.json"
    else if i == 32 then "test_navigation_confirmation.json"
    else if i == 33 then "test_percentage.json"
    else if i == 34 then "test_question_guidance.json"
    else "test_radio.json"
  }

  function LaunchNamesFrom36(i: nat): string
    requires 36 <= i < 48
  {
    if i == 36 then "test_radio_checkbox_descriptions.json"
    else if i == 37 then "test_relationship_household.json"
    else if i == 38 then "test_repeating_and_conditional_routing.json"
    else if i == 39 then "test_repeating_household.json"
    else if i == 40 then "test_routing_on_multiple_select.json"
    else if i == 41 then "test_skip_condition.json"
    else if i == 42 then "test_skip_condition_block.json"
    else if i == 43 then "test_skip_condition_group.json"
    else if i == 44 then "test_textarea.json"
    else if i == 45 then "test_textfield.json"
    else if i == 46 then "test_timeout.json"
    else "test_total_breakdown.json"
  }

  /** getAvailableSchemas: the 48 names, in order. */
  function GetAvailableSchemas(): (r: seq<string>)
    ensures |r| == 48
    ensures forall i :: 0 <= i < 48 ==> r[i] == LaunchSchemaName(i)
  {
    seq(48, i requires 0 <= i < 48 => LaunchSchemaName(i))
  }

  /** s ends in ".json". */
  predicate EndsInJson(s: string) {
    |s| >= 5 && s[|s| - 5] == '.' && s[|s| - 4] == 'j' && s[|s| - 3] == 's' && s[|s| - 2] == 'o' && s[|s| - 1] == 'n'
  }

  // The twelve EndsInJsonFrom lemmas below and the DistinctRow lemmas
  // further down hold no separate facts: they cut the two whole-list
  // properties into pieces small enough for the verifier, one block of four
  // names or one name against all later ones at a time.
  lemma EndsInJsonFrom0()
    ensures forall i :: 0 <= i < 4 ==> EndsInJson(LaunchSchemaName(i))
  {
  }

  lemma EndsInJsonFrom4()
    ensures forall i :: 4 <= i < 8 ==> EndsInJson(LaunchSchemaName(i))
  {
  }

  lemma EndsInJsonFrom8()
    ensures forall i :: 8 <= i < 12 ==> EndsInJson(LaunchSchemaName(i))
  {
  }

  lemma EndsInJsonFrom12()
    ensures forall i :: 12 <= i < 16 ==> EndsInJson(LaunchSchemaName(i))
  {
  }

  lemma EndsInJsonFrom16()
    ensures forall i :: 16 <= i < 20 ==> EndsInJson(LaunchSchemaName(i))
  {
  }

  lemma EndsInJsonFrom20()
    ensures forall i :: 20 <= i < 24 ==> EndsInJson(LaunchSchemaName(i))
  {
  }

  lemma EndsInJsonFrom24()
    ensures forall i :: 24 <= i < 28 ==> EndsInJson(LaunchSchemaName(i))
  {
  }

  lemma EndsInJsonFrom28()
    ensures forall i :: 28 <= i < 32 ==> EndsInJson(LaunchSchemaName(i))
  {
  }

  lemma EndsInJsonFrom32()
    ensures forall i :: 32 <= i < 36 ==> EndsInJson(LaunchSchemaName(i))
  {
  }

  lemma EndsInJsonFrom36()
    ensures forall i :: 36 <= i < 40 ==> EndsInJson(LaunchSchemaName(i))
  {
  }

  lemma EndsInJsonFrom40()
    ensures forall i :: 40 <= i < 44 ==> EndsInJson(LaunchSchemaName(i))
  {
  }

  lemma EndsInJsonFrom44()
    ensures forall i :: 44 <= i < 48 ==> EndsInJson(LaunchSchemaName(i))
  {
  }

  /** Every offered name is a JSON file name. */
  lemma AllNamesEndInJson()
    ensures forall i :: 0 <= i < |GetAvailableSchemas()| ==> EndsInJson(GetAvailableSchemas()[i])
  {
    forall i | 0 <= i < 48 ensures EndsInJson(LaunchSchemaName(i)) {
      if i < 4 { EndsInJsonFrom0(); }
      else if i < 8 { EndsInJsonFrom4(); }
      else if i < 12 { EndsInJsonFrom8(); }
      else if i < 16 { EndsInJsonFrom12(); }
      else if i < 20 { EndsInJsonFrom16(); }
      else if i < 24 { EndsInJsonFrom20(); }
      else if i < 28 { EndsInJsonFrom24(); }
      else if i < 32 { EndsInJsonFrom28(); }
      else if i < 36 { EndsInJsonFrom32(); }
      else if i < 40 { EndsInJsonFrom36(); }
      else if i < 44 { EndsInJsonFrom40(); }
      else { EndsInJsonFrom44(); }
    }
  }

  // Name k differs from every later name.
  lemma DistinctRow0() ensures forall j :: 0 < j < 48 ==> LaunchSchemaName(0) != LaunchSchemaName(j) {}
  lemma DistinctRow1() ensures forall j :: 1 < j < 48 ==> LaunchSchemaName(1) != LaunchSchemaName(j) {}
  lemma DistinctRow2() ensures forall j :: 2 < j < 48 ==> LaunchSchemaName(2) != LaunchSchemaName(j) {}
  lemma DistinctRow3() ensures forall j :: 3 < j < 48 ==> LaunchSchemaName(3) != LaunchSchemaName(j) {}
  lemma DistinctRow4() ensures forall j :: 4 < j < 48 ==> LaunchSchemaName(4) != LaunchSchemaName(j) {}
  lemma DistinctRow5() ensures forall j :: 5 < j < 48 ==> LaunchSchemaName(5) != LaunchSchemaName(j) {}
  lemma DistinctRow6() ensures forall j :: 6 < j < 48 ==> LaunchSchemaName(6) != LaunchSchemaName(j) {}
  lemma DistinctRow7() ensures forall j :: 7 < j < 48 ==> LaunchSchemaName(7) != LaunchSchemaName(j) {}
  lemma DistinctRow8() ensures forall j :: 8 < j < 48 ==> LaunchSchemaName(8) != LaunchSchemaName(j) {}
  lemma DistinctRow9() ensures forall j :: 9 < j < 48 ==> LaunchSchemaName(9) != LaunchSchemaName(j) {}
  lemma DistinctRow10() ensures forall j :: 10 < j < 48 ==> LaunchSchemaName(10) != LaunchSchemaName(j) {}
  lemma DistinctRow11() ensures forall j :: 11 < j < 48 ==> LaunchSchemaName(11) != LaunchSchemaName(j) {}
  lemma DistinctRow12() ensures forall j :: 12 < j < 48 ==> LaunchSchemaName(12) != LaunchSchemaName(j) {}
  lemma DistinctRow13() ensures forall j :: 13 < j < 48 ==> LaunchSchemaName(13) != LaunchSchemaName(j) {}
  lemma DistinctRow14() ensures forall j :: 14 < j < 48 ==> LaunchSchemaName(14) != LaunchSchemaName(j) {}
  lemma DistinctRow15() ensures forall j :: 15 < j < 48 ==> LaunchSchemaName(15) != LaunchSchemaName(j) {}
  lemma DistinctRow16() ensures forall j :: 16 < j < 48 ==> LaunchSchemaName(16) != LaunchSchemaName(j) {}
  lemma DistinctRow17() ensures forall j :: 17 < j < 48 ==> LaunchSchemaName(17) != LaunchSchemaName(j) {}
  lemma DistinctRow18() ensures forall j :: 18 < j < 48 ==> LaunchSchemaName(18) != LaunchSchemaName(j) {}
  lemma DistinctRow19() ensures forall j :: 19 < j < 48 ==> LaunchSchemaName(19) != LaunchSchemaName(j) {}
  lemma DistinctRow20() ensures forall j :: 20 < j < 48 ==> LaunchSchemaName(20) != LaunchSchemaName(j) {}
  lemma DistinctRow21() ensures forall j :: 21 < j < 48 ==> LaunchSchemaName(21) != LaunchSchemaName(j) {}
  lemma DistinctRow22() ensures forall j :: 22 < j < 48 ==> LaunchSchemaName(22) != LaunchSchemaName(j) {}
  lemma DistinctRow23() ensures forall j :: 23 < j < 48 ==> LaunchSchemaName(23) != LaunchSchemaName(j) {}
  lemma DistinctRow24() ensures forall j :: 24 < j < 48 ==> LaunchSchemaName(24) != LaunchSchemaName(j) {}
  lemma DistinctRow25() ensures forall j :: 25 < j < 48 ==> LaunchSchemaName(25) != LaunchSchemaName(j) {}
  lemma DistinctRow26() ensures forall j :: 26 < j < 48 ==> LaunchSchemaName(26) != LaunchSchemaName(j) {}
  lemma DistinctRow27() ensures forall j :: 27 < j < 48 ==> LaunchSchemaName(27) != LaunchSchemaName(j) {}
  lemma DistinctRow28() ensures forall j :: 28 < j < 48 ==> LaunchSchemaName(28) != LaunchSchemaName(j) {}
  lemma DistinctRow29() ensures forall j :: 29 < j < 48 ==> LaunchSchemaName(29) != LaunchSchemaName(j) {}
  lemma DistinctRow30() ensures forall j :: 30 < j < 48 ==> LaunchSchemaName(30) != LaunchSchemaName(j) {}
  lemma DistinctRow31() ensures forall j :: 31 < j < 48 ==> LaunchSchemaName(31) != LaunchSchemaName(j) {}
  lemma DistinctRow32() ensures forall j :: 32 < j < 48 ==> LaunchSchemaName(32) != LaunchSchemaName(j) {}
  lemma DistinctRow33() ensures forall j :: 33 < j < 48 ==> LaunchSchemaName(33) != LaunchSchemaName(j) {}
  lemma DistinctRow34() ensures forall j :: 34 < j < 48 ==> LaunchSchemaName(34) != LaunchSchemaName(j) {}
  lemma DistinctRow35() ensures forall j :: 35 < j < 48 ==> LaunchSchemaName(35) != LaunchSchemaName(j) {}
  lemma DistinctRow36() ensures forall j :: 36 < j < 48 ==> LaunchSchemaName(36) != LaunchSchemaName(j) {}
  lemma DistinctRow37() ensures forall j :: 37 < j < 48 ==> LaunchSchemaName(37) != LaunchSchemaName(j) {}
  lemma DistinctRow38() ensures forall j :: 38 < j < 48 ==> LaunchSchemaName(38) != LaunchSchemaName(j) {}
  lemma DistinctRow39() ensures forall j :: 39 < j < 48 ==> LaunchSchemaName(39) != LaunchSchemaName(j) {}
  lemma DistinctRow40() ensures forall j :: 40 < j < 48 ==> LaunchSchemaName(40) != LaunchSchemaName(j) {}
  lemma DistinctRow41() ensures forall j :: 41 < j < 48 ==> LaunchSchemaName(41) != LaunchSchemaName(j) {}
  lemma DistinctRow42() ensures forall j :: 42 < j < 48 ==> LaunchSchemaName(42) != LaunchSchemaName(j) {}
  lemma DistinctRow43() ensures forall j :: 43 < j < 48 ==> LaunchSchemaName(43) != LaunchSchemaName(j) {}
  lemma DistinctRow44() ensures forall j :: 44 < j < 48 ==> LaunchSchemaName(44) != LaunchSchemaName(j) {}
  lemma DistinctRow45() ensures forall j :: 45 < j < 48 ==> LaunchSchemaName(45) != LaunchSchemaName(j) {}
  lemma DistinctRow46() ensures forall j :: 46 < j < 48 ==> LaunchSchemaName(46) != LaunchSchemaName(j) {}

  /** No name is offered twice. */
  lemma AllNamesDistinct()
    ensures forall i, j :: 0 <= i < j < |GetAvailableSchemas()| ==> GetAvailableSchemas()[i] != GetAvailableSchemas()[j]
  {
    forall i, j | 0 <= i < j < 48 ensures LaunchSchemaName(i) != LaunchSchemaName(j) {
      if i == 0 { DistinctRow0(); }
      else if i == 1 { DistinctRow1(); }
      else if i == 2 { DistinctRow2(); }
      else if i == 3 { DistinctRow3(); }
      else if i == 4 { DistinctRow4(); }
      else if i == 5 { DistinctRow5(); }
      else if i == 6 { DistinctRow6(); }
      else if i == 7 { DistinctRow7(); }
      else if i == 8 { DistinctRow8(); }
      else if i == 9 { DistinctRow9(); }
      else if i == 10 { DistinctRow10(); }
      else if i == 11 { DistinctRow11(); }
      else if i == 12 { DistinctRow12(); }
      else if i == 13 { DistinctRow13(); }
      else if i == 14 { DistinctRow14(); }
      else if i == 15 { DistinctRow15(); }
      else if i == 16 { DistinctRow16(); }
      else if i == 17 { DistinctRow17(); }
      else if i == 18 { DistinctRow18(); }
      else if i == 19 { DistinctRow19(); }
      else if i == 20 { DistinctRow20(); }
      else if i == 21 { DistinctRow21(); }
      else if i == 22 { DistinctRow22(); }
      else if i == 23 { DistinctRow23(); }
      else if i == 24 { DistinctRow24(); }
      else if i == 25 { DistinctRow25(); }
      else if i == 26 { DistinctRow26(); }
      else if i == 27 { DistinctRow27(); }
      else if i == 28 { DistinctRow28(); }
      else if i == 29 { DistinctRow29(); }
      else if i == 30 { DistinctRow30(); }
      else if i == 31 { DistinctRow31(); }
      else if i == 32 { DistinctRow32(); }
      else if i == 33 { DistinctRow33(); }
      else if i == 34 { DistinctRow34(); }
      else if i == 35 { DistinctRow35(); }
      else if i == 36 { DistinctRow36(); }
      else if i == 37 { DistinctRow37(); }
      else if i == 38 { DistinctRow38(); }
      else if i == 39 { DistinctRow39(); }
      else if i == 40 { DistinctRow40(); }
      else if i == 41 { DistinctRow41(); }
      else if i == 42 { DistinctRow42(); }
      else if i == 43 { DistinctRow43(); }
      else if i == 44 { DistinctRow44(); }
      else if i == 45 { DistinctRow45(); }
      else if i == 46 { DistinctRow46(); }
    }
  }

  // ---------------------------------------------------------------------
  // postLaunchHandler
  // ---------------------------------------------------------------------

  /** What the handler writes: an error page with its status, or a redirect
      with its location and status. */
  datatype Response =
    | HttpError(message: string, code: int)
    | Redirect(location: string, code: int)

  /** The token conversion of the posted form: a token, or the text of the
      error it returned. */
  datatype Conversion = Converted(token: string) | ConversionFailed(message: string)

  /** postLaunchHandler's decision.  parseError is the text of the form
      parsing error, if any; conversion is what converting the posted form
      gave; hostURL is the SURVEY_RUNNER_URL setting. */
  function PostLaunch(parseError: Option<string>, form: Authentication.Values, conversion: Conversion, hostURL: string)
    : (r: Response)
    ensures parseError.Some? ==> r == HttpError("POST. r.ParseForm() err: " + parseError.value, 500)
    ensures parseError.None? && conversion.ConversionFailed?
            ==> r == HttpError("ConvertPostToToken failed err: " + conversion.message, 500)
    ensures r.Redirect? <==> (parseError.None? && conversion.Converted? &&
                              (Authentication.FormGet(form, "action_flush") != "" || Authentication.FormGet(form, "action_launch") != ""))
    ensures r.Redirect? && Authentication.FormGet(form, "action_flush") != ""
            ==> r == Redirect(hostURL + "/flush?token=" + conversion.token, 307)
    ensures r.Redirect? && Authentication.FormGet(form, "action_flush") == ""
            ==> r == Redirect(hostURL + "/session?token=" + conversion.token, 301)
    ensures (parseError.None? && conversion.Converted? && Authentication.FormGet(form, "action_flush") == "" &&
             Authentication.FormGet(form, "action_launch") == "") ==> r == HttpError("Invalid Action", 500)
    ensures r.HttpError? ==> r.code == 500
  {
    if parseError.Some? then HttpError("POST. r.ParseForm() err: " + parseError.value, 500)
    else if conversion.ConversionFailed? then HttpError("ConvertPostToToken failed err: " + conversion.message, 500)
    else
      var launchAction := Authentication.FormGet(form, "action_launch");
      var flushAction := Authentication.FormGet(form, "action_flush");
      if flushAction != "" then Redirect(hostURL + "/flush?token=" + conversion.token, 307)
      else if launchAction != "" then Redirect(hostURL + "/session?token=" + conversion.token, 301)
      else HttpError("Invalid Action", 500)
  }

  /** Every redirect goes to the runner host and carries the converted token
      as its only query value; 307 goes to /flush and 301 to /session. */
  lemma RedirectCarriesToken(parseError: Option<string>, form: Authentication.Values, conversion: Conversion, hostURL: string)
    requires PostLaunch(parseError, form, conversion, hostURL).Redirect?
    ensures var loc := PostLaunch(parseError, form, conversion, hostURL).location;
            var tail := "?token=" + conversion.token;
            && conversion.Converted?
            && |loc| >= |hostURL| + |tail|
            && loc[..|hostURL|] == hostURL
            && loc[|loc| - |tail|..] == tail
  {
    var r := PostLaunch(parseError, form, conversion, hostURL);
    var tail := "?token=" + conversion.token;
    var path := if r.code == 307 then "/flush" else "/session";
    assert r.location == hostURL + path + tail;
    assert (hostURL + path + tail)[..|hostURL|] == hostURL;
    assert (hostURL + path + tail)[|hostURL| + |path|..] == tail;
  }

  /** Once the form fails to parse or the conversion fails, neither the
      actions nor the host matter: the error is the response. */
  lemma ErrorsPrecedeActions(conversionError: string, form: Authentication.Values, other: Authentication.Values,
                             hostURL: string, otherHost: string)
    ensures PostLaunch(None, form, ConversionFailed(conversionError), hostURL)
         == PostLaunch(None, other, ConversionFailed(conversionError), otherHost)
    ensures PostLaunch(None, form, ConversionFailed(conversionError), hostURL).HttpError?
  {
  }
}

/**
 * `BudgetReportController`: the two report endpoints. Both answer 401
 * without a principal and 400 for a month `isValidYearMonth` refuses,
 * before the service is called; a service exception becomes 500.
 */
module ReportController {
  import opened Common
  import opened CategorySummary
  import opened Report
  import M = BudgetReportMapper

  /** The HTTP answers the endpoints give. */
  datatype Http<T> = Unauthorized | BadRequest | Success(body: T) | ServerError(message: Option<string>)

  /**
   * `isValidYearMonth` as written: seven characters, split on "-" into
   * exactly two pieces (trailing empty pieces dropped), both accepted by
   * `Integer.parseInt`, a year from 2020 to 2030 and a month from 1 to 12.
   */
  predicate IsValidYearMonth(yearMonth: Option<string>)
  {
    && yearMonth.Some?
    && |yearMonth.value| == 7
    && var parts := JavaSplit(yearMonth.value, '-');
       && |parts| == 2
       && ParseInt(parts[0]).Some? && ParseInt(parts[1]).Some?
       && 2020 <= ParseInt(parts[0]).value <= 2030
       && 1 <= ParseInt(parts[1]).value <= 12
  }

  /** The check the endpoints evidently intend: a "yyyy-MM" month the service can parse, in 2020 to 2030. */
  predicate IsValidYearMonthStrict(yearMonth: Option<string>)
  {
    && yearMonth.Some?
    && ParseYearMonth(yearMonth.value).Some?
    && 2020 <= ParseYearMonth(yearMonth.value).value.year <= 2030
  }

  /** A dash that ends the text leaves an empty last piece, which `split` drops. */
  lemma SplitTrailingDash()
    ensures JavaSplit("2024-1-", '-') == ["2024", "1"]
  {
    var s := "2024-1-";
    assert FirstIndex(s, '-') == 4;
    assert s[..4] == "2024" && s[5..] == "1-";
    assert FirstIndex("1-", '-') == 1 && "1-"[..1] == "1";
    assert "1-"[2..] == [];
    assert Pieces([], '-') == [[]];
    assert Pieces("1-", '-') == ["1", []];
    assert Pieces(s, '-') == ["2024", "1", []];
    assert DropTrailingEmpty(["2024", "1", []]) == ["2024", "1"];
  }

  /**
   * "2024-1-" passes the check as written, but the service's
   * `YearMonth.parse` refuses it: the request is answered 500 rather than
   * 400.
   */
  lemma TrailingDashSlipsThrough()
    ensures IsValidYearMonth(Some("2024-1-"))
    ensures ParseYearMonth("2024-1-").None?
    ensures !IsValidYearMonthStrict(Some("2024-1-"))
  {
    SplitTrailingDash();
    assert ParseInt("2024") == Some(2024) by {
      assert AllDigits("2024");
      assert DigitsValue("2024") == 2024 by {
        assert "2024"[..3] == "202" && "202"[..2] == "20" && "20"[..1] == "2" && "2"[..0] == [];
      }
    }
    assert ParseInt("1") == Some(1) by {
      assert AllDigits("1") && "1"[..0] == [];
    }
    assert "2024-1-"[4] == '-' && "2024-1-"[5..] == "1-";
    assert !IsDigit("1-"[1]);
  }

  /** A "yyyy-MM" month splits into its year and month digits. */
  lemma SplitCanonical(s: string)
    requires |s| == 7 && s[4] == '-' && AllDigits(s[..4]) && AllDigits(s[5..])
    ensures JavaSplit(s, '-') == [s[..4], s[5..]]
  {
    assert '-' in s by {
      assert s[4] == '-';
    }
    assert !IsDigit('-');
    assert forall k :: 0 <= k < 4 ==> s[k] == s[..4][k];
    assert FirstIndex(s, '-') == 4;
    assert '-' !in s[5..];
    assert Pieces(s, '-') == [s[..4], s[5..]];
    assert s[5..] != [];
  }

  /** Whatever the strict check accepts, the check as written accepts too. */
  lemma StrictIsNarrower(yearMonth: Option<string>)
    requires IsValidYearMonthStrict(yearMonth)
    ensures IsValidYearMonth(yearMonth)
  {
    var s := yearMonth.value;
    var ym := ParseYearMonth(s).value;
    assert |s| == 7 && s[4] == '-' && AllDigits(s[..4]) && AllDigits(s[5..]);
    SplitCanonical(s);
    DigitsBelow(s[..4]);
    DigitsBelow(s[5..]);
    assert Pow10(4) == 10000 && Pow10(2) == 100 by {
      assert Pow10(1) == 10 && Pow10(3) == 1000;
    }
  }

  /** `getMonthlyReport` as written. */
  function GetMonthlyReport(
    authUser: Option<int>, yearMonth: Option<string>, summaries: seq<SummaryRow>, categoryNames: map<int, string>,
    activity: MonthActivity, reports: seq<AnalysisReport>, aiAnswer: Option<string>): (r: Http<M.MonthlyReportDetailResponse>)
    ensures authUser.None? <==> r == Unauthorized
    ensures authUser.Some? && !IsValidYearMonth(yearMonth) <==> r == BadRequest
    ensures r.Success? ==> (var d := MonthlyReportDetail(authUser.value, yearMonth.value, summaries, categoryNames, activity, reports, aiAnswer);
                            d.Ok? && r.body == d.value)
    ensures r.ServerError? <==> authUser.Some? && IsValidYearMonth(yearMonth) && ParseYearMonth(yearMonth.value).None?
  {
    if authUser.None? then Unauthorized
    else if !IsValidYearMonth(yearMonth) then BadRequest
    else
      match MonthlyReportDetail(authUser.value, yearMonth.value, summaries, categoryNames, activity, reports, aiAnswer)
      case Err(_) => ServerError(None)
      case Ok(report) => Success(report)
  }

  /** `getMonthlyReport` with the strict check. */
  function GetMonthlyReportCorrected(
    authUser: Option<int>, yearMonth: Option<string>, summaries: seq<SummaryRow>, categoryNames: map<int, string>,
    activity: MonthActivity, reports: seq<AnalysisReport>, aiAnswer: Option<string>): (r: Http<M.MonthlyReportDetailResponse>)
    ensures authUser.None? <==> r == Unauthorized
    ensures authUser.Some? && !IsValidYearMonthStrict(yearMonth) <==> r == BadRequest
    ensures !r.ServerError?
  {
    if authUser.None? then Unauthorized
    else if !IsValidYearMonthStrict(yearMonth) then BadRequest
    else
      match MonthlyReportDetail(authUser.value, yearMonth.value, summaries, categoryNames, activity, reports, aiAnswer)
      case Err(_) => assert false; ServerError(None)
      case Ok(report) => Success(report)
  }

  /**
   * The corrected endpoint answers exactly as the written one, except that
   * a month the written check lets through and the service cannot parse
   * gets 400 instead of 500.
   */
  lemma CorrectedOnlyFixesServerErrors(
    authUser: Option<int>, yearMonth: Option<string>, summaries: seq<SummaryRow>, categoryNames: map<int, string>,
    activity: MonthActivity, reports: seq<AnalysisReport>, aiAnswer: Option<string>)
    ensures var written := GetMonthlyReport(authUser, yearMonth, summaries, categoryNames, activity, reports, aiAnswer);
      var corrected := GetMonthlyReportCorrected(authUser, yearMonth, summaries, categoryNames, activity, reports, aiAnswer);
      written == corrected || (written.ServerError? && corrected == BadRequest)
  {
    if IsValidYearMonthStrict(yearMonth) {
      StrictIsNarrower(yearMonth);
    } else if authUser.Some? && IsValidYearMonth(yearMonth) {
      var s := yearMonth.value;
      if ParseYearMonth(s).Some? {
        // A parseable month outside 2020 to 2030 is refused by both checks.
        SplitCanonical(s);
        assert false;
      }
    }
  }

  const AI_FAILURE_MARK: string := "AI 분석을 생성할 수 없습니다"

  /**
   * `regenerateAiSummary`: 401 and 400 leave the stored reports alone;
   * otherwise the summary is fetched or generated (and saved), and a reply
   * carrying the failure text is sent as a 500 with that body.
   */
  method RegenerateAiSummary(
    store: ReportStore, authUser: Option<int>, yearMonth: Option<string>, summaries: seq<SummaryRow>, aiAnswer: Option<string>)
    returns (r: Http<string>)
    modifies store
    ensures authUser.None? ==> r == Unauthorized && store.reports == old(store.reports)
    ensures authUser.Some? && !IsValidYearMonth(yearMonth) ==> r == BadRequest && store.reports == old(store.reports)
    ensures authUser.Some? && IsValidYearMonth(yearMonth) ==>
      var o := AiSummary(old(store.reports), authUser.value, yearMonth.value, summaries, aiAnswer);
      && store.reports == old(store.reports) + SavedRows(o)
      && (ContainsSubstring(o.content, AI_FAILURE_MARK) ==> r == ServerError(Some(o.content)))
      && (!ContainsSubstring(o.content, AI_FAILURE_MARK) ==> r == Success(o.content))
  {
    if authUser.None? {
      return Unauthorized;
    }
    if !IsValidYearMonth(yearMonth) {
      return BadRequest;
    }
    var aiSummary := store.GenerateOrGetAiSummary(authUser.value, yearMonth.value, summaries, aiAnswer);
    if ContainsSubstring(aiSummary, AI_FAILURE_MARK) {
      return ServerError(Some(aiSummary));
    }
    return Success(aiSummary);
  }

  /** When OpenAI fails on a month with summaries and nothing is stored, the endpoint answers 500 with the failure text. */
  lemma AiFailureIsServerError(reports: seq<AnalysisReport>, userId: int, yearMonth: string, summaries: seq<SummaryRow>)
    requires summaries != [] && StoredSummary(reports, userId, yearMonth).None?
    ensures AiSummary(reports, userId, yearMonth, summaries, None) == AiOutcome(AI_UNAVAILABLE, None)
    ensures ContainsSubstring(AI_UNAVAILABLE, AI_FAILURE_MARK)
  {
    assert AI_FAILURE_MARK <= AI_UNAVAILABLE[0..];
  }
}

/**
 * `RegistrationController.register`: a guest holding the JWT issued at
 * login finishes signing up. The Kakao profile, the JWT subject reader, the
 * remote address, the clock and the two JWTs issued for the new user are
 * handed in; the four stores are the objects the endpoint writes.
 *
 * The endpoint is one transaction: whenever it fails after the guards, the
 * database rows are rolled back. The onboarding store lives in memory, so
 * the consumed Kakao token stays consumed.
 */
module Registration {
  import opened Common
  import opened Accounts
  import opened Onboarding
  import opened Auth

  datatype KakaoProfile = KakaoProfile(nickname: Option<string>)

  datatype KakaoAccount = KakaoAccount(
    profile: Option<KakaoProfile>, phoneNumber: Option<string>, birthyear: Option<string>, birthday: Option<string>)

  /** The `/v2/user/me` answer. */
  datatype KakaoUser = KakaoUser(kakaoAccount: Option<KakaoAccount>)

  /** `RegisterRequest`; a missing `categories` list is `None`. */
  datatype RegisterRequest = RegisterRequest(
    categories: Option<seq<string>>,
    warnOverBudget: bool,
    gifticonExpireAlert: bool,
    eventAlert: bool,
    agreeTerms: bool,
    agreePrivacy: bool,
    agreeKakaoAlert: bool,
    agreeDataUsage: bool,
    marketingOptIn: bool,
    primaryCategory: Option<string>)

  /** An empty response with a status code, or 200 with the new user's tokens. */
  datatype Response = Refused(code: int) | Registered(result: AuthResult)

  const BEARER: string := "Bearer "
  const GUEST: string := "guest:"
  const CONSENT_VERSION: string := "v1.0"
  const MAX_CATEGORIES: int := 3

  /**
   * The Kakao id of the guest: the Authorization header must be `Bearer `
   * and a token whose subject is `guest:` followed by the id.
   */
  function GuestKakaoId(authorization: Option<string>, subjectOf: string -> Option<string>): (r: Option<string>)
    ensures r.Some? <==>
      && authorization.Some? && BEARER <= authorization.value
      && var subject := subjectOf(authorization.value[|BEARER|..]);
         subject.Some? && GUEST <= subject.value
    ensures r.Some? ==> (&& authorization.value == BEARER + authorization.value[|BEARER|..]
                         && subjectOf(authorization.value[|BEARER|..]) == Some(GUEST + r.value))
  {
    if authorization.None? || !(BEARER <= authorization.value) then None
    else
      var subject := subjectOf(authorization.value[|BEARER|..]);
      if subject.None? || !(GUEST <= subject.value) then None
      else
        assert subject.value == GUEST + subject.value[|GUEST|..];
        Some(subject.value[|GUEST|..])
  }

  /** A guest token for a Kakao id, presented as a bearer token, yields that id. */
  lemma GuestTokenReadsBack(token: string, kakaoId: string, subjectOf: string -> Option<string>)
    requires subjectOf(token) == Some(GUEST + kakaoId)
    ensures GuestKakaoId(Some(BEARER + token), subjectOf) == Some(kakaoId)
  {
    assert (BEARER + token)[|BEARER|..] == token;
    assert (GUEST + kakaoId)[|GUEST|..] == kakaoId;
  }

  /** `findByProviderAndProviderUserId(KAKAO, kakaoId).isPresent()`. */
  predicate IsRegistered(users: map<int, UserRow>, kakaoId: string)
  {
    exists k :: k in users && users[k].providerUserId == kakaoId
  }

  predicate RequiredConsents(req: RegisterRequest)
  {
    req.agreeTerms && req.agreePrivacy && req.agreeKakaoAlert && req.agreeDataUsage
  }

  /**
   * The guards of `register`, in order: 401 without a guest token, 409 for
   * a Kakao id already signed up, 400 without the four required consents
   * or with more than three categories. `Ok` carries the Kakao id.
   */
  function Admission(authorization: Option<string>, subjectOf: string -> Option<string>, users: map<int, UserRow>, req: RegisterRequest)
    : (r: Result<string, int>)
    ensures r == Err(401) <==> GuestKakaoId(authorization, subjectOf).None?
    ensures r == Err(409) <==> GuestKakaoId(authorization, subjectOf).Some? && IsRegistered(users, GuestKakaoId(authorization, subjectOf).value)
    ensures r.Ok? <==>
      && GuestKakaoId(authorization, subjectOf).Some? && !IsRegistered(users, GuestKakaoId(authorization, subjectOf).value)
      && RequiredConsents(req) && (req.categories.None? || |req.categories.value| <= MAX_CATEGORIES)
    ensures r.Ok? ==> r.value == GuestKakaoId(authorization, subjectOf).value
    ensures r.Err? ==> r.error in {400, 401, 409}
  {
    var kakaoId := GuestKakaoId(authorization, subjectOf);
    if kakaoId.None? then Err(401)
    else if IsRegistered(users, kakaoId.value) then Err(409)
    else if !RequiredConsents(req) then Err(400)
    else if req.categories.Some? && |req.categories.value| > MAX_CATEGORIES then Err(400)
    else Ok(kakaoId.value)
  }

  // ---------------------------------------------------------------------------
  // The birth date
  // ---------------------------------------------------------------------------

  /** `Year.isLeap`, the proleptic Gregorian rule. */
  predicate IsLeapYear(year: int)
  {
    year % 4 == 0 && (year % 100 != 0 || year % 400 == 0)
  }

  function DaysInMonth(year: int, month: int): (n: int)
    requires 1 <= month <= 12
    ensures 28 <= n <= 31
  {
    if month == 2 then (if IsLeapYear(year) then 29 else 28)
    else if month in {4, 6, 9, 11} then 30
    else 31
  }

  const LOCAL_DATE_MAX_YEAR: int := 999_999_999

  /** `LocalDate.of`: `None` is the `DateTimeException` of a field out of range or a day the month does not have. */
  function DateOf(year: int, month: int, day: int): (r: Option<Date>)
    ensures r.Some? ==> r.value == Date(year, month, day)
    ensures r.Some? ==> 1 <= month <= 12 && 1 <= day <= 31
  {
    if -LOCAL_DATE_MAX_YEAR <= year <= LOCAL_DATE_MAX_YEAR && 1 <= month <= 12 && 1 <= day <= DaysInMonth(year, month)
    then Some(Date(year, month, day))
    else None
  }

  /** The 29th of February exists exactly in leap years: 2000 and 2024 have one, 1900 and 2023 do not. */
  lemma LeapDay(year: int)
    requires -LOCAL_DATE_MAX_YEAR <= year <= LOCAL_DATE_MAX_YEAR
    ensures DateOf(year, 2, 29).Some? <==> IsLeapYear(year)
    ensures DateOf(2000, 2, 29).Some? && DateOf(2024, 2, 29).Some?
    ensures DateOf(1900, 2, 29).None? && DateOf(2023, 2, 29).None?
  {
  }

  /**
   * The outcomes of reading the birth date: none given, a date, a part
   * `Integer.parseInt` refuses (a `NumberFormatException`), or numbers
   * `LocalDate.of` refuses (a `DateTimeException`).
   */
  datatype BirthParse = Absent | Parsed(date: Date) | NotANumber | NoSuchDate

  /** `safe`. */
  function Safe(v: Option<string>): string
  {
    v.GetOr("")
  }

  /**
   * The birth date of step 5: only when both the year and the `MMdd` day
   * are four characters long; a part that is not a number throws
   * `NumberFormatException`, numbers naming no date `DateTimeException`.
   */
  function BirthOf(me: KakaoUser): (r: BirthParse)
    ensures r.Absent? <==> me.kakaoAccount.None? || |Safe(me.kakaoAccount.value.birthyear)| != 4 || |Safe(me.kakaoAccount.value.birthday)| != 4
    ensures r.NotANumber? <==>
      && !r.Absent?
      && var birthyear, birthday := Safe(me.kakaoAccount.value.birthyear), Safe(me.kakaoAccount.value.birthday);
         (ParseInt(birthyear).None? || ParseInt(birthday[..2]).None? || ParseInt(birthday[2..]).None?)
    ensures r.NoSuchDate? ==>
      var birthyear, birthday := Safe(me.kakaoAccount.value.birthyear), Safe(me.kakaoAccount.value.birthday);
      && |birthday| == 4
      && ParseInt(birthyear).Some? && ParseInt(birthday[..2]).Some? && ParseInt(birthday[2..]).Some?
      && DateOf(ParseInt(birthyear).value, ParseInt(birthday[..2]).value, ParseInt(birthday[2..]).value).None?
    ensures r.Parsed? ==>
      var birthyear, birthday := Safe(me.kakaoAccount.value.birthyear), Safe(me.kakaoAccount.value.birthday);
      && |birthday| == 4
      && ParseInt(birthyear) == Some(r.date.year)
      && ParseInt(birthday[..2]) == Some(r.date.month)
      && ParseInt(birthday[2..]) == Some(r.date.day)
      && 1 <= r.date.month <= 12 && 1 <= r.date.day <= DaysInMonth(r.date.year, r.date.month)
  {
    if me.kakaoAccount.None? then Absent
    else
      var birthyear, birthday := Safe(me.kakaoAccount.value.birthyear), Safe(me.kakaoAccount.value.birthday);
      if |birthyear| != 4 || |birthday| != 4 then Absent
      else
        var year, month, day := ParseInt(birthyear), ParseInt(birthday[..2]), ParseInt(birthday[2..]);
        if year.None? || month.None? || day.None? then NotANumber
        else
          var date := DateOf(year.value, month.value, day.value);
          if date.None? then NoSuchDate else Parsed(date.value)
  }

  /** A real date of years 1000 to 9999, sent as `yyyy` and `MMdd`, is read back as that date. */
  lemma BirthReadsBack(d: Date, profile: Option<KakaoProfile>, phone: Option<string>)
    requires d.Valid() && d.year >= 1000 && d.day <= DaysInMonth(d.year, d.month)
    ensures var s := FormatDate(d);
      BirthOf(KakaoUser(Some(KakaoAccount(profile, phone, Some(s[..4]), Some(s[5..7] + s[8..]))))) == Parsed(d)
  {
    var s := FormatDate(d);
    var ym := FormatYearMonth(YearMonth(d.year, d.month));
    assert s[..7] == ym;
    assert s[..4] == ym[..4] && s[5..7] == ym[5..];
    var birthday := s[5..7] + s[8..];
    assert birthday[..2] == s[5..7] && birthday[2..] == s[8..];
    DigitsBelow(s[8..]);
  }

  /**
   * A year or a birthday half that is not a number throws
   * `NumberFormatException`; numbers that name no date ("12-5" reads as
   * month 12, day -5; "0230" as 30 February) throw `DateTimeException`; a
   * three-character birthday is ignored.
   */
  lemma BirthFailures(profile: Option<KakaoProfile>, phone: Option<string>)
    ensures BirthOf(KakaoUser(Some(KakaoAccount(profile, phone, Some("19a0"), Some("0101"))))) == NotANumber
    ensures BirthOf(KakaoUser(Some(KakaoAccount(profile, phone, Some("1990"), Some("ab12"))))) == NotANumber
    ensures BirthOf(KakaoUser(Some(KakaoAccount(profile, phone, Some("1990"), Some("12-5"))))) == NoSuchDate
    ensures BirthOf(KakaoUser(Some(KakaoAccount(profile, phone, Some("1990"), Some("0230"))))) == NoSuchDate
    ensures BirthOf(KakaoUser(Some(KakaoAccount(profile, phone, Some("1990"), Some("123"))))) == Absent
  {
    assert "19a0"[1..] == "9a0" && !IsDigit("19a0"[2]);
    assert "ab12"[..2] == "ab" && !IsDigit("ab"[0]);
    assert "12-5"[..2] == "12" && "12-5"[2..] == "-5";
    assert "-5"[1..] == "5";
    assert "0230"[..2] == "02" && "0230"[2..] == "30";
    ParsesYear();
    TwoDigits("12");
    TwoDigits("02");
    TwoDigits("30");
    TwoDigits("01");
  }

  lemma TwoDigits(s: string)
    requires |s| == 2 && IsDigit(s[0]) && IsDigit(s[1])
    ensures ParseInt(s) == Some((s[0] as int - '0' as int) * 10 + (s[1] as int - '0' as int))
  {
    assert AllDigits(s) && s[..1] == [s[0]] && [s[0]][..0] == [];
    assert DigitsValue(s[..1]) == s[0] as int - '0' as int;
    assert DigitsValue(s) == (s[0] as int - '0' as int) * 10 + (s[1] as int - '0' as int);
  }

  lemma ParsesYear()
    ensures ParseInt("1990") == Some(1990)
  {
    assert "1990"[..3] == "199" && "199"[..2] == "19" && "19"[..1] == "1" && "1"[..0] == [];
    assert DigitsValue("1990") == 1990;
  }

  // ---------------------------------------------------------------------------
  // Rows written by a registration
  // ---------------------------------------------------------------------------

  function NameOf(me: KakaoUser): Option<string>
  {
    if me.kakaoAccount.Some? && me.kakaoAccount.value.profile.Some? then me.kakaoAccount.value.profile.value.nickname else None
  }

  function PhoneOf(me: KakaoUser): Option<string>
  {
    if me.kakaoAccount.Some? then me.kakaoAccount.value.phoneNumber else None
  }

  /** Step 7: the settings row copies the request's choices. */
  function SettingsOf(req: RegisterRequest): (row: SettingsRow)
    ensures row.allowKakaoAlert == Some(req.agreeKakaoAlert) && row.marketingOption == Some(req.marketingOptIn)
    ensures row.notifyBudgetAlert == Some(req.warnOverBudget) && row.notifyGifticonExpire == Some(req.gifticonExpireAlert)
    ensures row.notifyBenefitEvents == Some(req.eventAlert)
  {
    SettingsRow(Some(req.agreeKakaoAlert), Some(req.marketingOptIn), Some(req.warnOverBudget),
                Some(req.gifticonExpireAlert), Some(req.eventAlert))
  }

  /** What the request says about one consent. */
  function Agreed(req: RegisterRequest, t: ConsentType): bool
  {
    match t
    case TOS => req.agreeTerms
    case PRIVACY => req.agreePrivacy
    case KAKAO_ALERT => req.agreeKakaoAlert
    case MYDATA => req.agreeDataUsage
    case MARKETING => req.marketingOptIn
  }

  const CONSENT_TYPES: seq<ConsentType> := [TOS, PRIVACY, KAKAO_ALERT, MYDATA, MARKETING]

  /** Step 8: one consent row per type, version `v1.0`, stamped with the instant and the remote address. */
  function Consents(userId: int, req: RegisterRequest, now: int, remoteAddr: Option<string>): (rows: seq<ConsentRow>)
    ensures |rows| == |CONSENT_TYPES|
    ensures forall k :: 0 <= k < |rows| ==>
      rows[k] == ConsentRow(userId, CONSENT_TYPES[k], CONSENT_VERSION, Agreed(req, CONSENT_TYPES[k]), now, remoteAddr)
  {
    seq(|CONSENT_TYPES|, k requires 0 <= k < |CONSENT_TYPES| =>
      ConsentRow(userId, CONSENT_TYPES[k], CONSENT_VERSION, Agreed(req, CONSENT_TYPES[k]), now, remoteAddr))
  }

  /**
   * Every consent type is recorded exactly once; for a request that passed
   * the guards only marketing may be refused.
   */
  lemma ConsentsCoverTypes(userId: int, req: RegisterRequest, now: int, remoteAddr: Option<string>, t: ConsentType)
    ensures var rows := Consents(userId, req, now, remoteAddr);
      && (exists k :: 0 <= k < |rows| && rows[k].consentType == t && rows[k].agreed == Agreed(req, t))
      && (forall i, j :: 0 <= i < j < |rows| ==> rows[i].consentType != rows[j].consentType)
      && (RequiredConsents(req) ==> forall c :: c in rows && !c.agreed ==> c.consentType == MARKETING)
  {
    var rows := Consents(userId, req, now, remoteAddr);
    var k := match t case TOS => 0 case PRIVACY => 1 case KAKAO_ALERT => 2 case MYDATA => 3 case MARKETING => 4;
    assert rows[k].consentType == t;
  }

  // ---------------------------------------------------------------------------
  // The endpoint
  // ---------------------------------------------------------------------------

  /**
   * The status of what throws past the guards and rolls the transaction
   * back: a birth part that is not a number is an `IllegalArgumentException`,
   * answered 400; a birth date that does not exist, a category named twice
   * (the unique key on user and category) or a refresh token already on
   * file reach the catch-all handler, 500.
   */
  function RollbackStatus(me: KakaoUser, categories: seq<Category>, req: RegisterRequest, refreshJwt: string, tokens: map<string, RefreshTokenRow>): (r: Option<int>)
    ensures r == Some(400) <==> BirthOf(me).NotANumber?
    ensures r == Some(500) <==>
      !BirthOf(me).NotANumber? && (BirthOf(me).NoSuchDate? || !Distinct(FoundIds(categories, req.categories.GetOr([]))) || refreshJwt in tokens)
    ensures r.None? || r == Some(400) || r == Some(500)
  {
    if BirthOf(me).NotANumber? then Some(400)
    else if BirthOf(me).NoSuchDate? || !Distinct(FoundIds(categories, req.categories.GetOr([]))) || refreshJwt in tokens then Some(500)
    else None
  }

  function BirthColumn(b: BirthParse): Option<Date>
  {
    if b.Parsed? then Some(b.date) else None
  }

  method Register(
    accounts: AccountStore, onboarding: OnboardingTokenStore, auth: AuthStore,
    authorization: Option<string>, subjectOf: string -> Option<string>, req: RegisterRequest, me: KakaoUser,
    remoteAddr: Option<string>, now: int, accessJwtFor: int -> string, refreshJwtFor: int -> string)
    returns (r: Response)
    requires accounts.Valid() && auth.Valid()
    modifies accounts, onboarding, auth
    ensures accounts.Valid() && auth.Valid()
    ensures var admitted := Admission(authorization, subjectOf, old(accounts.users), req);
      admitted.Err? ==> r == Refused(admitted.error) && unchanged(accounts, onboarding, auth)
    ensures var admitted := Admission(authorization, subjectOf, old(accounts.users), req);
      admitted.Ok? ==>
        var kakaoId, id := admitted.value, old(accounts.nextUserId);
        && onboarding.entries == old(onboarding.entries) - {kakaoId}
        && (Consumed(old(onboarding.entries), kakaoId, now).None? ==> r == Refused(401) && unchanged(accounts, auth))
        && (Consumed(old(onboarding.entries), kakaoId, now).Some? ==>
              var rollback := RollbackStatus(me, accounts.categories, req, refreshJwtFor(id), old(auth.tokens));
              if rollback.Some? then
                r == Refused(rollback.value) && unchanged(accounts, auth)
              else
                && r == Registered(AuthResult(accessJwtFor(id), Some(refreshJwtFor(id)), false))
                && accounts.users == old(accounts.users)[id := UserRow(id, kakaoId, NameOf(me), PhoneOf(me), BirthColumn(BirthOf(me)))]
                && accounts.settings == old(accounts.settings)[id := SettingsOf(req)]
                && accounts.consents == old(accounts.consents) + Consents(id, req, now, remoteAddr)
                && accounts.preferences
                   == old(accounts.preferences)
                      + NewPreferences(old(accounts.nextPreferenceId), id, FoundIds(accounts.categories, req.categories.GetOr([])))
                && auth.tokens == old(auth.tokens)[refreshJwtFor(id) := Issued(old(auth.nextId), id, refreshJwtFor(id), now, auth.refreshTokenExpMs)]
                && IsRegistered(accounts.users, kakaoId))
  {
    var admitted := Admission(authorization, subjectOf, accounts.users, req);
    if admitted.Err? {
      return Refused(admitted.error);
    }
    var kakaoId := admitted.value;
    var tokens := onboarding.Consume(kakaoId, now);
    if tokens.None? {
      return Refused(401);
    }
    var birth := BirthOf(me);
    var ids := FoundIds(accounts.categories, req.categories.GetOr([]));
    var id := accounts.nextUserId;
    var rollback := RollbackStatus(me, accounts.categories, req, refreshJwtFor(id), auth.tokens);
    if rollback.Some? {
      return Refused(rollback.value);
    }
    var start := accounts.nextPreferenceId;
    id := accounts.InsertUser(kakaoId, NameOf(me), PhoneOf(me), BirthColumn(birth));
    accounts.SaveSettings(id, SettingsOf(req));
    accounts.AddConsents(Consents(id, req, now, remoteAddr));
    NoRowsOfNewUser(accounts.preferences, accounts.users.Keys, accounts.categories, start, id);
    accounts.ReplacePreferences(id, ids);
    var stored := auth.StoreRefreshToken(id, refreshJwtFor(id), now);
    assert accounts.users[id].providerUserId == kakaoId;
    return Registered(AuthResult(accessJwtFor(id), Some(refreshJwtFor(id)), false));
  }

  /** A user just inserted has no preference rows, so deleting theirs deletes nothing. */
  lemma NoRowsOfNewUser(preferences: seq<Preference>, userIds: set<int>, categories: seq<Category>, bound: int, userId: int)
    requires Attached(preferences, userIds - {userId}, categories, bound)
    ensures WithoutUser(preferences, userId) == preferences
  {
    assert forall i :: 0 <= i < |preferences| ==> preferences[i] in preferences;
    WithoutAbsent(preferences, userId);
  }

  lemma {:induction false} WithoutAbsent(preferences: seq<Preference>, userId: int)
    requires forall i :: 0 <= i < |preferences| ==> preferences[i].userId != userId
    ensures WithoutUser(preferences, userId) == preferences
    decreases |preferences|
  {
    if preferences != [] {
      var init, last := preferences[..|preferences| - 1], preferences[|preferences| - 1];
      assert forall i :: 0 <= i < |init| ==> init[i] == preferences[i];
      WithoutAbsent(init, userId);
      assert last.userId != userId;
      assert WithoutUser(preferences, userId) == WithoutUser(init, userId) + [last];
      assert init + [last] == preferences;
    }
  }

  /** A Kakao id that has signed up is turned away with 409 by every later registration that gets past the token check. */
  lemma SecondRegistrationConflicts(
    authorization: Option<string>, subjectOf: string -> Option<string>, users: map<int, UserRow>, req: RegisterRequest, id: int, row: UserRow)
    requires GuestKakaoId(authorization, subjectOf).Some? && row.providerUserId == GuestKakaoId(authorization, subjectOf).value
    ensures Admission(authorization, subjectOf, users[id := row], req) == Err(409)
  {
    assert id in users[id := row];
  }
}

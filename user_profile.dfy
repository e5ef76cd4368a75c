/**
 * `UserProfileService`: reading and updating a user's notification
 * settings and preferred categories. An update merges the flags it is
 * given into the stored ones and, when it carries a list, replaces the
 * preferred categories by it. The update is one transaction: on any error
 * nothing it wrote stays.
 */
module ProfileService {
  import opened Common
  import opened Accounts

  /** A `ResponseStatusException` with its status and reason, or a unique-key violation on insert. */
  datatype ServiceError = StatusError(status: int, reason: string) | IntegrityViolation

  const USER_NOT_FOUND: ServiceError := StatusError(404, "user not found")
  const TOO_MANY_CATEGORIES: ServiceError := StatusError(400, "max 3 categories")
  const MAX_CATEGORIES: int := 3

  /** The response for a list of names and a settings row, flags passed through as stored. */
  function ResponseOf(names: seq<string>, row: SettingsRow): (r: SettingsResponse)
    ensures r.preferredCategories == names
    ensures r.warnOverBudget == row.notifyBudgetAlert && r.gifticonExpireAlert == row.notifyGifticonExpire
    ensures r.eventAlert == row.notifyBenefitEvents && r.allowKakaoAlert == row.allowKakaoAlert
    ensures r.marketingOptIn == row.marketingOption
  {
    SettingsResponse(names, row.notifyBudgetAlert, row.notifyGifticonExpire, row.notifyBenefitEvents,
                     row.allowKakaoAlert, row.marketingOption)
  }

  /**
   * `getSettings`: 404 for an unknown user; otherwise the preferred names
   * by preference id and the stored flags, all null when the user has no
   * settings row.
   */
  function GetSettings(store: AccountStore, userId: int): (r: Result<SettingsResponse, ServiceError>)
    reads store
    ensures r.Err? <==> userId !in store.users
    ensures r.Err? ==> r.error == USER_NOT_FOUND
    ensures r.Ok? ==> r.value.preferredCategories == NamesOf(store.preferences, store.categories, userId)
    ensures r.Ok? && userId !in store.settings ==>
      r.value == SettingsResponse(NamesOf(store.preferences, store.categories, userId), None, None, None, None, None)
    ensures r.Ok? && userId in store.settings ==>
      var row := store.settings[userId];
      && r.value.warnOverBudget == row.notifyBudgetAlert && r.value.gifticonExpireAlert == row.notifyGifticonExpire
      && r.value.eventAlert == row.notifyBenefitEvents && r.value.allowKakaoAlert == row.allowKakaoAlert
      && r.value.marketingOptIn == row.marketingOption
  {
    if userId !in store.users then Err(USER_NOT_FOUND)
    else
      var row := if userId in store.settings then store.settings[userId] else BLANK_SETTINGS;
      Ok(ResponseOf(NamesOf(store.preferences, store.categories, userId), row))
  }

  /** Step 1 of `updateSettings`: a flag the request carries overwrites the stored one; a null flag keeps it. */
  function Merged(current: SettingsRow, req: UpdateRequest): (r: SettingsRow)
    ensures r.notifyBudgetAlert == (if req.warnOverBudget.Some? then req.warnOverBudget else current.notifyBudgetAlert)
    ensures r.notifyGifticonExpire == (if req.gifticonExpireAlert.Some? then req.gifticonExpireAlert else current.notifyGifticonExpire)
    ensures r.notifyBenefitEvents == (if req.eventAlert.Some? then req.eventAlert else current.notifyBenefitEvents)
    ensures r.allowKakaoAlert == (if req.allowKakaoAlert.Some? then req.allowKakaoAlert else current.allowKakaoAlert)
    ensures r.marketingOption == (if req.marketingOptIn.Some? then req.marketingOptIn else current.marketingOption)
  {
    SettingsRow(
      if req.allowKakaoAlert.Some? then req.allowKakaoAlert else current.allowKakaoAlert,
      if req.marketingOptIn.Some? then req.marketingOptIn else current.marketingOption,
      if req.warnOverBudget.Some? then req.warnOverBudget else current.notifyBudgetAlert,
      if req.gifticonExpireAlert.Some? then req.gifticonExpireAlert else current.notifyGifticonExpire,
      if req.eventAlert.Some? then req.eventAlert else current.notifyBenefitEvents)
  }

  /**
   * Sending the same flags twice is sending them once, a request with no
   * flags changes nothing, and a request with every flag fixes the row
   * whatever was stored.
   */
  lemma MergeLaws(current: SettingsRow, other: SettingsRow, req: UpdateRequest)
    ensures Merged(Merged(current, req), req) == Merged(current, req)
    ensures (&& req.warnOverBudget.None? && req.gifticonExpireAlert.None? && req.eventAlert.None?
             && req.allowKakaoAlert.None? && req.marketingOptIn.None?) ==> Merged(current, req) == current
    ensures (&& req.warnOverBudget.Some? && req.gifticonExpireAlert.Some? && req.eventAlert.Some?
             && req.allowKakaoAlert.Some? && req.marketingOptIn.Some?) ==> Merged(current, req) == Merged(other, req)
  {
  }

  /** A list "is given" when it is non-null and non-empty. */
  predicate Given<T>(list: Option<seq<T>>)
  {
    list.Some? && |list.value| > 0
  }

  /** The stored row the update starts from: the user's, or a new empty one. */
  function CurrentSettings(settings: map<int, SettingsRow>, userId: int): SettingsRow
  {
    if userId in settings then settings[userId] else BLANK_SETTINGS
  }

  /**
   * The failure of step 2, if any: more than three categories (counted on
   * the names when they are given, else on the ids), then the first name
   * or id the catalogue lacks (400) or category met twice.
   */
  function ListFault(categories: seq<Category>, req: UpdateRequest): (r: Option<ServiceError>)
    ensures Given(req.preferredCategories) && |req.preferredCategories.value| > MAX_CATEGORIES ==> r == Some(TOO_MANY_CATEGORIES)
    ensures !Given(req.preferredCategories) && Given(req.preferredCategoryIds) && |req.preferredCategoryIds.value| > MAX_CATEGORIES
            ==> r == Some(TOO_MANY_CATEGORIES)
    ensures !Given(req.preferredCategories) && !Given(req.preferredCategoryIds) ==> r.None?
    ensures Given(req.preferredCategories) && r.None? ==>
      AllNamed(categories, req.preferredCategories.value) && Distinct(FoundIds(categories, req.preferredCategories.value))
    ensures !Given(req.preferredCategories) && Given(req.preferredCategoryIds) && r.None? ==>
      InsertFault(categories, req.preferredCategoryIds.value).None?
  {
    if Given(req.preferredCategories) then
      var names := req.preferredCategories.value;
      if |names| > MAX_CATEGORIES then Some(TOO_MANY_CATEGORIES)
      else match NamesFault(categories, names)
        case None => None
        case Some(UnknownName(n)) => Some(StatusError(400, "invalid category: " + n))
        case Some(_) => Some(IntegrityViolation)
    else if Given(req.preferredCategoryIds) then
      var ids := req.preferredCategoryIds.value;
      if |ids| > MAX_CATEGORIES then Some(TOO_MANY_CATEGORIES)
      else match InsertFault(categories, ids)
        case None => None
        case Some(UnknownCategory(id)) => Some(StatusError(400, "invalid category id: " + IntToString(id)))
        case Some(_) => Some(IntegrityViolation)
    else None
  }

  /** The category ids an accepted update stores: the names' ids when names are given, else the ids. */
  function RequestedIds(categories: seq<Category>, req: UpdateRequest): seq<int>
  {
    if Given(req.preferredCategories) then FoundIds(categories, req.preferredCategories.value)
    else req.preferredCategoryIds.GetOr([])
  }

  /**
   * `updateSettings`. An unknown user is 404 and a failing list rolls back
   * the settings save as well. Otherwise the flags are merged into the
   * user's row (created if missing); a given list replaces the preferred
   * categories, names taking precedence over ids; without a list the
   * preferences stay. The answer carries the merged flags and the names
   * now stored, which a following `getSettings` returns as well.
   */
  method UpdateSettings(store: AccountStore, userId: int, req: UpdateRequest) returns (r: Result<SettingsResponse, ServiceError>)
    requires store.Valid()
    modifies store
    ensures store.Valid()
    ensures userId !in old(store.users) ==> r == Err(USER_NOT_FOUND) && unchanged(store)
    ensures userId in old(store.users) && ListFault(store.categories, req).Some? ==>
      r == Err(ListFault(store.categories, req).value) && unchanged(store)
    ensures userId in old(store.users) && ListFault(store.categories, req).None? ==>
      && store.settings == old(store.settings)[userId := Merged(CurrentSettings(old(store.settings), userId), req)]
      && store.users == old(store.users) && store.consents == old(store.consents)
      && (Given(req.preferredCategories) || Given(req.preferredCategoryIds) ==>
            store.preferences == WithoutUser(old(store.preferences), userId)
                                 + NewPreferences(old(store.nextPreferenceId), userId, RequestedIds(store.categories, req)))
      && (!Given(req.preferredCategories) && !Given(req.preferredCategoryIds) ==> store.preferences == old(store.preferences))
      && r.Ok? && GetSettings(store, userId) == r
  {
    if userId !in store.users {
      return Err(USER_NOT_FOUND);
    }
    var fault := ListFault(store.categories, req);
    if fault.Some? {
      return Err(fault.value);
    }
    var merged := Merged(CurrentSettings(store.settings, userId), req);
    store.SaveSettings(userId, merged);
    var names: seq<string>;
    if Given(req.preferredCategories) || Given(req.preferredCategoryIds) {
      var ids := RequestedIds(store.categories, req);
      UpdatedNames(store.preferences, store.categories, userId, store.nextPreferenceId, req, userId);
      store.ReplacePreferences(userId, ids);
      // each saved category's own name, in request order
      names := if Given(req.preferredCategories) then req.preferredCategories.value
               else NamesOfIds(store.categories, req.preferredCategoryIds.value);
    } else {
      names := NamesOf(store.preferences, store.categories, userId);
    }
    return Ok(ResponseOf(names, merged));
  }

  /**
   * What an accepted update with a list leaves as the user's preferred
   * categories: the requested names themselves when names are given, the
   * ids' names in request order otherwise; other users keep theirs.
   */
  lemma UpdatedNames(preferences: seq<Preference>, categories: seq<Category>, userId: int, start: int, req: UpdateRequest, other: int)
    requires Catalogue(categories)
    requires ListFault(categories, req).None? && (Given(req.preferredCategories) || Given(req.preferredCategoryIds))
    ensures var ids := RequestedIds(categories, req);
      var after := WithoutUser(preferences, userId) + NewPreferences(start, userId, ids);
      && (forall id :: id in ids ==> Known(categories, id))
      && (Given(req.preferredCategories) ==> NamesOf(after, categories, userId) == req.preferredCategories.value)
      && (!Given(req.preferredCategories) ==> NamesOf(after, categories, userId) == NamesOfIds(categories, req.preferredCategoryIds.value))
      && (other != userId ==> NamesOf(after, categories, other) == NamesOf(preferences, categories, other))
  {
    var ids := RequestedIds(categories, req);
    PreferencesReplaced(preferences, categories, userId, start, ids, other);
    if Given(req.preferredCategories) {
      FoundIdsNames(categories, req.preferredCategories.value);
      AllNamesKnown(categories, req.preferredCategories.value);
    }
  }

  /** A name or id the catalogue lacks is refused with 400, naming it, when it comes first and the list is short enough. */
  lemma UnknownCategoryRefused(categories: seq<Category>, name: string, id: int, flags: UpdateRequest)
    requires CategoryByName(categories, name).None? && !Known(categories, id)
    ensures ListFault(categories, flags.(preferredCategories := Some([name]))) == Some(StatusError(400, "invalid category: " + name))
    ensures ListFault(categories, flags.(preferredCategories := None, preferredCategoryIds := Some([id])))
         == Some(StatusError(400, "invalid category id: " + IntToString(id)))
  {
    assert [name][..0] == [] && [id][..0] == [];
  }
}

/**
 * `UserSettingsService`: the other reader and writer of the same settings.
 * Here an update overwrites every flag, null included, and always
 * replaces the preferred categories: by the ids when they are given, else
 * by the catalogue's categories among the names, else by nothing. Flags
 * are answered as plain booleans. The update is one transaction.
 */
module SettingsService {
  import opened Common
  import opened Accounts

  /** The database errors an update can meet: a row pointing at a missing user or category, or a duplicate (user, category). */
  datatype Failure = ForeignKeyViolation | UniqueViolation

  /** `bool`: null reads as false. */
  function Bool(b: Option<bool>): (r: bool)
    ensures r <==> b == Some(true)
  {
    b.Some? && b.value
  }

  /** `getSettings`: the names by preference id and every flag as a boolean, false without a settings row; no user check. */
  function GetSettings(store: AccountStore, userId: int): (r: SettingsResponse)
    reads store
    ensures r.preferredCategories == NamesOf(store.preferences, store.categories, userId)
    ensures r.warnOverBudget.Some? && r.gifticonExpireAlert.Some? && r.eventAlert.Some?
    ensures r.allowKakaoAlert.Some? && r.marketingOptIn.Some?
    ensures userId !in store.settings ==>
      !r.warnOverBudget.value && !r.gifticonExpireAlert.value && !r.eventAlert.value && !r.allowKakaoAlert.value && !r.marketingOptIn.value
    ensures userId in store.settings ==>
      && r.warnOverBudget.value == Bool(store.settings[userId].notifyBudgetAlert)
      && r.gifticonExpireAlert.value == Bool(store.settings[userId].notifyGifticonExpire)
      && r.eventAlert.value == Bool(store.settings[userId].notifyBenefitEvents)
      && r.allowKakaoAlert.value == Bool(store.settings[userId].allowKakaoAlert)
      && r.marketingOptIn.value == Bool(store.settings[userId].marketingOption)
  {
    var row := if userId in store.settings then store.settings[userId] else BLANK_SETTINGS;
    BooleanResponse(NamesOf(store.preferences, store.categories, userId), row)
  }

  function BooleanResponse(names: seq<string>, row: SettingsRow): SettingsResponse
  {
    SettingsResponse(names, Some(Bool(row.notifyBudgetAlert)), Some(Bool(row.notifyGifticonExpire)),
                     Some(Bool(row.notifyBenefitEvents)), Some(Bool(row.allowKakaoAlert)), Some(Bool(row.marketingOption)))
  }

  /** Step 1 of `updateSettings`: the request's flags replace the row's, null included. */
  function Overwritten(req: UpdateRequest): (row: SettingsRow)
    ensures row.notifyBudgetAlert == req.warnOverBudget && row.notifyGifticonExpire == req.gifticonExpireAlert
    ensures row.notifyBenefitEvents == req.eventAlert && row.allowKakaoAlert == req.allowKakaoAlert
    ensures row.marketingOption == req.marketingOptIn
  {
    SettingsRow(req.allowKakaoAlert, req.marketingOptIn, req.warnOverBudget, req.gifticonExpireAlert, req.eventAlert)
  }

  predicate Given<T>(list: Option<seq<T>>)
  {
    list.Some? && |list.value| > 0
  }

  /** The category ids step 2 saves: the ids when given, else those `findIdsByNames` selects, else none. */
  function SavedIds(categories: seq<Category>, req: UpdateRequest): seq<int>
  {
    if Given(req.preferredCategoryIds) then req.preferredCategoryIds.value
    else if Given(req.preferredCategories) then IdsByNames(categories, req.preferredCategories.value)
    else []
  }

  /** What stops the update: a missing user (the settings row's key), then the first bad id. */
  function UpdateFailure(users: map<int, UserRow>, categories: seq<Category>, userId: int, req: UpdateRequest): (r: Option<Failure>)
    requires Catalogue(categories)
    ensures userId !in users ==> r == Some(ForeignKeyViolation)
    ensures r.None? <==> userId in users && InsertFault(categories, SavedIds(categories, req)).None?
  {
    if userId !in users then Some(ForeignKeyViolation)
    else if Given(req.preferredCategoryIds) then
      match InsertFault(categories, req.preferredCategoryIds.value)
      case None => None
      case Some(DuplicatePreference) => Some(UniqueViolation)
      case Some(_) => Some(ForeignKeyViolation)
    else
      assert InsertFault(categories, SavedIds(categories, req)).None? by {
        if Given(req.preferredCategories) {
          IdsByNamesMatch(categories, req.preferredCategories.value);
        }
      }
      None
  }

  /**
   * `updateSettings`: a failure changes nothing. Otherwise the user's row
   * is the request's flags, the user's preferences are exactly the saved
   * ids, and the answer is what `getSettings` now reads.
   */
  method UpdateSettings(store: AccountStore, userId: int, req: UpdateRequest) returns (r: Result<SettingsResponse, Failure>)
    requires store.Valid()
    modifies store
    ensures store.Valid()
    ensures UpdateFailure(old(store.users), store.categories, userId, req).Some? ==>
      r == Err(UpdateFailure(old(store.users), store.categories, userId, req).value) && unchanged(store)
    ensures UpdateFailure(old(store.users), store.categories, userId, req).None? ==>
      && store.settings == old(store.settings)[userId := Overwritten(req)]
      && store.preferences == WithoutUser(old(store.preferences), userId)
                              + NewPreferences(old(store.nextPreferenceId), userId, SavedIds(store.categories, req))
      && store.users == old(store.users) && store.consents == old(store.consents)
      && r == Ok(GetSettings(store, userId))
  {
    var failure := UpdateFailure(store.users, store.categories, userId, req);
    if failure.Some? {
      return Err(failure.value);
    }
    var row := Overwritten(req);
    store.SaveSettings(userId, row);
    store.ReplacePreferences(userId, SavedIds(store.categories, req));
    return Ok(BooleanResponse(NamesOf(store.preferences, store.categories, userId), row));
  }

  /**
   * After an accepted update the user's names are: the ids' names in
   * request order; else each requested name the catalogue has, once; else
   * none. Other users keep theirs.
   */
  lemma SavedNames(preferences: seq<Preference>, categories: seq<Category>, userId: int, start: int, req: UpdateRequest, other: int)
    requires Catalogue(categories) && InsertFault(categories, SavedIds(categories, req)).None?
    ensures var after := WithoutUser(preferences, userId) + NewPreferences(start, userId, SavedIds(categories, req));
      && (Given(req.preferredCategoryIds) ==> NamesOf(after, categories, userId) == NamesOfIds(categories, req.preferredCategoryIds.value))
      && (!Given(req.preferredCategoryIds) && Given(req.preferredCategories) ==>
            && Distinct(NamesOf(after, categories, userId))
            && forall n :: n in NamesOf(after, categories, userId) <==>
                 n in req.preferredCategories.value && CategoryByName(categories, n).Some?)
      && (!Given(req.preferredCategoryIds) && !Given(req.preferredCategories) ==> NamesOf(after, categories, userId) == [])
      && (other != userId ==> NamesOf(after, categories, other) == NamesOf(preferences, categories, other))
  {
    var ids := SavedIds(categories, req);
    PreferencesReplaced(preferences, categories, userId, start, ids, other);
    if !Given(req.preferredCategoryIds) && Given(req.preferredCategories) {
      IdsByNamesMatch(categories, req.preferredCategories.value);
      NamesOfDistinctIds(categories, ids);
    }
  }

  /** In a catalogue, distinct ids have distinct names. */
  lemma NamesOfDistinctIds(categories: seq<Category>, ids: seq<int>)
    requires Catalogue(categories) && Distinct(ids) && forall id :: id in ids ==> Known(categories, id)
    ensures Distinct(NamesOfIds(categories, ids))
  {
    var names := NamesOfIds(categories, ids);
    forall i, j | 0 <= i < j < |names| ensures names[i] != names[j] {
      NamesOfIdsAt(categories, ids, i);
      NamesOfIdsAt(categories, ids, j);
      var a, b := CategoryById(categories, ids[i]).value, CategoryById(categories, ids[j]).value;
      CatalogueLookups(categories, a);
      CatalogueLookups(categories, b);
    }
  }

  /**
   * A request without flags clears them: every flag reads back false,
   * where the profile service would keep the stored ones.
   */
  lemma BlankUpdateClears(req: UpdateRequest)
    requires req.warnOverBudget.None? && req.gifticonExpireAlert.None? && req.eventAlert.None?
    requires req.allowKakaoAlert.None? && req.marketingOptIn.None?
    ensures var shown := BooleanResponse([], Overwritten(req));
      !shown.warnOverBudget.value && !shown.gifticonExpireAlert.value && !shown.eventAlert.value
      && !shown.allowKakaoAlert.value && !shown.marketingOptIn.value
  {
  }
}

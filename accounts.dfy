/**
 * The account tables the registration, profile and settings endpoints
 * share: `users`, `user_settings`, `user_preferred_categories`,
 * `user_consents`, and the read-only `categories` catalogue.
 *
 * Preferences are kept in insertion order, which is also id order, so the
 * repository's "names ordered by preference id" is a left-to-right walk.
 */
module Accounts {
  import opened Common

  datatype UserRow = UserRow(id: int, providerUserId: string, name: Option<string>, phone: Option<string>, birth: Option<Date>)

  /** A `user_settings` row; every flag is a nullable `Boolean`. */
  datatype SettingsRow = SettingsRow(
    allowKakaoAlert: Option<bool>,
    marketingOption: Option<bool>,
    notifyBudgetAlert: Option<bool>,
    notifyGifticonExpire: Option<bool>,
    notifyBenefitEvents: Option<bool>)

  /** `new UserSettings()`: every flag null. */
  const BLANK_SETTINGS: SettingsRow := SettingsRow(None, None, None, None, None)

  datatype Category = Category(id: int, name: string)

  datatype Preference = Preference(id: int, userId: int, categoryId: int)

  datatype ConsentType = TOS | PRIVACY | KAKAO_ALERT | MYDATA | MARKETING

  datatype ConsentRow = ConsentRow(
    userId: int, consentType: ConsentType, version: string, agreed: bool, agreedAt: int, sourceIp: Option<string>)

  /** `UserSettingsResponse`. */
  datatype SettingsResponse = SettingsResponse(
    preferredCategories: seq<string>,
    warnOverBudget: Option<bool>,
    gifticonExpireAlert: Option<bool>,
    eventAlert: Option<bool>,
    allowKakaoAlert: Option<bool>,
    marketingOptIn: Option<bool>)

  /** `UpdateUserSettingsRequest`: every field may be left out. */
  datatype UpdateRequest = UpdateRequest(
    preferredCategories: Option<seq<string>>,
    preferredCategoryIds: Option<seq<int>>,
    warnOverBudget: Option<bool>,
    gifticonExpireAlert: Option<bool>,
    eventAlert: Option<bool>,
    allowKakaoAlert: Option<bool>,
    marketingOptIn: Option<bool>)

  /**
   * Why writing a list of preferences fails: a category id or name the
   * catalogue does not have, or a category listed twice (the unique key
   * on user and category).
   */
  datatype PreferenceFault = UnknownCategory(id: int) | UnknownName(name: string) | DuplicatePreference

  /** `categoryRepository.findByName`. */
  function CategoryByName(categories: seq<Category>, name: string): (r: Option<Category>)
    ensures r.Some? ==> r.value in categories && r.value.name == name
    ensures r.None? <==> forall c :: c in categories ==> c.name != name
  {
    if categories == [] then None
    else if categories[0].name == name then Some(categories[0])
    else CategoryByName(categories[1..], name)
  }

  /** `categoryRepository.findById`. */
  function CategoryById(categories: seq<Category>, id: int): (r: Option<Category>)
    ensures r.Some? ==> r.value in categories && r.value.id == id
    ensures r.None? <==> forall c :: c in categories ==> c.id != id
  {
    if categories == [] then None
    else if categories[0].id == id then Some(categories[0])
    else CategoryById(categories[1..], id)
  }

  predicate Known(categories: seq<Category>, id: int)
  {
    CategoryById(categories, id).Some?
  }

  /** The `categories` table's keys: ids and names are both unique. */
  predicate Catalogue(categories: seq<Category>)
  {
    forall i, j :: 0 <= i < j < |categories| ==> categories[i].id != categories[j].id && categories[i].name != categories[j].name
  }

  /** In a catalogue a category is found by its own id and by its own name. */
  lemma CatalogueLookups(categories: seq<Category>, c: Category)
    requires Catalogue(categories) && c in categories
    ensures CategoryById(categories, c.id) == Some(c)
    ensures CategoryByName(categories, c.name) == Some(c)
  {
    var i :| 0 <= i < |categories| && categories[i] == c;
    var byId := CategoryById(categories, c.id).value;
    var j :| 0 <= j < |categories| && categories[j] == byId;
    assert i == j;
    var byName := CategoryByName(categories, c.name).value;
    var k :| 0 <= k < |categories| && categories[k] == byName;
    assert i == k;
  }

  /** The requested names the catalogue has, in request order, duplicates kept. */
  function KnownNames(categories: seq<Category>, names: seq<string>): (r: seq<string>)
    ensures |r| <= |names|
  {
    if names == [] then []
    else
      var init, last := names[..|names| - 1], names[|names| - 1];
      KnownNames(categories, init) + (if CategoryByName(categories, last).Some? then [last] else [])
  }

  /** A `findByName(...).ifPresent(...)` loop: the ids of the names found, in request order; unknown names are skipped. */
  function FoundIds(categories: seq<Category>, names: seq<string>): (r: seq<int>)
    ensures |r| <= |names|
    ensures forall id :: id in r ==> Known(categories, id)
  {
    if names == [] then []
    else
      var init, last := names[..|names| - 1], names[|names| - 1];
      var c := CategoryByName(categories, last);
      var tail := if c.Some? then [c.value.id] else [];
      assert c.Some? ==> CategoryById(categories, c.value.id).Some?;
      FoundIds(categories, init) + tail
  }

  /** The ids found for a list of names name exactly the known ones among them, in order. */
  lemma {:induction false} FoundIdsNames(categories: seq<Category>, names: seq<string>)
    requires Catalogue(categories)
    ensures NamesOfIds(categories, FoundIds(categories, names)) == KnownNames(categories, names)
    decreases |names|
  {
    if names != [] {
      var init, last := names[..|names| - 1], names[|names| - 1];
      FoundIdsNames(categories, init);
      var c := CategoryByName(categories, last);
      var ids := FoundIds(categories, names);
      if c.Some? {
        CatalogueLookups(categories, c.value);
        assert ids[..|ids| - 1] == FoundIds(categories, init);
      } else {
        assert ids == FoundIds(categories, init);
      }
    }
  }

  /**
   * `findIdsByNames` (`select c.id ... where c.name in :names`): the ids of
   * the catalogue's categories whose name is requested, in table order,
   * each once; unknown names are dropped.
   */
  function IdsByNames(categories: seq<Category>, names: seq<string>): (r: seq<int>)
    ensures |r| <= |categories|
  {
    if categories == [] then []
    else
      var rest := IdsByNames(categories[1..], names);
      (if categories[0].name in names then [categories[0].id] else []) + rest
  }

  /** In a catalogue the selected ids are distinct, and their names are exactly the requested names it has. */
  lemma {:induction false} IdsByNamesMatch(categories: seq<Category>, names: seq<string>)
    requires Catalogue(categories)
    ensures forall id :: id in IdsByNames(categories, names) ==> Known(categories, id)
    ensures Distinct(IdsByNames(categories, names))
    ensures forall n :: n in NamesOfIds(categories, IdsByNames(categories, names)) <==> n in names && CategoryByName(categories, n).Some?
  {
    var ids := IdsByNames(categories, names);
    SelectedDistinct(categories, names);
    var shown := NamesOfIds(categories, ids);
    forall n ensures n in shown <==> n in names && CategoryByName(categories, n).Some? {
      if n in shown {
        var k := NamesOfIdsIndex(categories, ids, n);
        assert ids[k] in ids;
        CatalogueLookups(categories, CategoryById(categories, ids[k]).value);
      }
      if n in names && CategoryByName(categories, n).Some? {
        var c := CategoryByName(categories, n).value;
        CatalogueLookups(categories, c);
        var k := SelectedIndex(categories, names, c);
        NamesOfIdsAt(categories, ids, k);
      }
    }
  }

  /** In a catalogue the selected ids are distinct, and each names a category whose name was requested. */
  lemma {:induction false} SelectedDistinct(categories: seq<Category>, names: seq<string>)
    requires Catalogue(categories)
    ensures Distinct(IdsByNames(categories, names))
    ensures forall id :: id in IdsByNames(categories, names) ==>
      CategoryById(categories, id).Some? && CategoryById(categories, id).value.name in names
    decreases |categories|
  {
    if categories != [] {
      var head, tail := categories[0], categories[1..];
      assert Catalogue(tail) by {
        forall i, j | 0 <= i < j < |tail| ensures tail[i].id != tail[j].id && tail[i].name != tail[j].name {
          assert tail[i] == categories[i + 1] && tail[j] == categories[j + 1];
        }
      }
      SelectedDistinct(tail, names);
      var rest := IdsByNames(tail, names);
      forall id | id in rest ensures id != head.id && CategoryById(categories, id) == CategoryById(tail, id) {
        var c := CategoryById(tail, id).value;
        var i :| 0 <= i < |tail| && tail[i] == c;
        assert categories[i + 1] == c;
      }
      if head.name in names {
        CatalogueLookups(categories, head);
      }
    }
  }

  /** A selected category's id is in the selection. */
  lemma {:induction false} SelectedIndex(categories: seq<Category>, names: seq<string>, c: Category) returns (k: nat)
    requires c in categories && c.name in names
    ensures k < |IdsByNames(categories, names)| && IdsByNames(categories, names)[k] == c.id
    decreases |categories|
  {
    if categories[0] == c {
      k := 0;
    } else {
      assert c in categories[1..];
      var j := SelectedIndex(categories[1..], names, c);
      k := if categories[0].name in names then j + 1 else j;
    }
  }

  lemma {:induction false} NamesOfIdsIndex(categories: seq<Category>, ids: seq<int>, n: string) returns (k: nat)
    requires forall id :: id in ids ==> Known(categories, id)
    requires n in NamesOfIds(categories, ids)
    ensures k < |ids| && ids[k] in ids && CategoryById(categories, ids[k]).value.name == n
    decreases |ids|
  {
    var init := ids[..|ids| - 1];
    assert forall id :: id in init ==> id in ids;
    if n in NamesOfIds(categories, init) {
      k := NamesOfIdsIndex(categories, init, n);
      assert ids[k] == init[k];
    } else {
      k := |ids| - 1;
    }
  }

  lemma {:induction false} NamesOfIdsAt(categories: seq<Category>, ids: seq<int>, k: nat)
    requires forall id :: id in ids ==> Known(categories, id)
    requires k < |ids|
    ensures ids[k] in ids && NamesOfIds(categories, ids)[k] == CategoryById(categories, ids[k]).value.name
    decreases |ids|
  {
    var init := ids[..|ids| - 1];
    assert forall id :: id in init ==> id in ids;
    if k < |init| {
      NamesOfIdsAt(categories, init, k);
    }
  }

  /** `findCategoryNamesByUserId`: the names of the user's preferred categories, by preference id. */
  function NamesOf(preferences: seq<Preference>, categories: seq<Category>, userId: int): (names: seq<string>)
    ensures |names| <= |preferences|
  {
    if preferences == [] then []
    else
      var init, last := preferences[..|preferences| - 1], preferences[|preferences| - 1];
      var c := CategoryById(categories, last.categoryId);
      NamesOf(init, categories, userId) + (if last.userId == userId && c.Some? then [c.value.name] else [])
  }

  /** `deleteAllByUserId`. */
  function WithoutUser(preferences: seq<Preference>, userId: int): (r: seq<Preference>)
    ensures forall p :: p in r <==> p in preferences && p.userId != userId
    ensures |r| <= |preferences|
  {
    if preferences == [] then []
    else
      var init, last := preferences[..|preferences| - 1], preferences[|preferences| - 1];
      assert forall p :: p in preferences <==> p in init || p == last;
      WithoutUser(init, userId) + (if last.userId == userId then [] else [last])
  }

  /** The rows a loop of `save(new UserPreferredCategory(...))` inserts, one per category, ids counting up. */
  function NewPreferences(startId: int, userId: int, categoryIds: seq<int>): (r: seq<Preference>)
    ensures |r| == |categoryIds|
    ensures forall k :: 0 <= k < |r| ==> r[k] == Preference(startId + k, userId, categoryIds[k])
  {
    if categoryIds == [] then []
    else NewPreferences(startId, userId, categoryIds[..|categoryIds| - 1])
         + [Preference(startId + |categoryIds| - 1, userId, categoryIds[|categoryIds| - 1])]
  }

  /** The names of a list of known categories, in list order. */
  function NamesOfIds(categories: seq<Category>, categoryIds: seq<int>): (names: seq<string>)
    requires forall id :: id in categoryIds ==> Known(categories, id)
    ensures |names| == |categoryIds|
  {
    if categoryIds == [] then []
    else
      var last := categoryIds[|categoryIds| - 1];
      assert last in categoryIds && Known(categories, last);
      NamesOfIds(categories, categoryIds[..|categoryIds| - 1]) + [CategoryById(categories, last).value.name]
  }

  lemma {:induction false} NamesOfAppend(a: seq<Preference>, b: seq<Preference>, categories: seq<Category>, userId: int)
    ensures NamesOf(a + b, categories, userId) == NamesOf(a, categories, userId) + NamesOf(b, categories, userId)
    decreases |b|
  {
    if b == [] {
      assert a + b == a;
    } else {
      var init := b[..|b| - 1];
      assert (a + b)[..|a + b| - 1] == a + init;
      assert (a + b)[|a + b| - 1] == b[|b| - 1];
      NamesOfAppend(a, init, categories, userId);
    }
  }

  /** The names of another user's preferences ignore rows of a user they do not belong to. */
  lemma {:induction false} NamesOfWithout(preferences: seq<Preference>, categories: seq<Category>, userId: int, other: int)
    ensures NamesOf(WithoutUser(preferences, userId), categories, userId) == []
    ensures other != userId ==> NamesOf(WithoutUser(preferences, userId), categories, other) == NamesOf(preferences, categories, other)
    decreases |preferences|
  {
    if preferences != [] {
      var init, last := preferences[..|preferences| - 1], preferences[|preferences| - 1];
      NamesOfWithout(init, categories, userId, other);
      var tail := if last.userId == userId then [] else [last];
      NamesOfAppend(WithoutUser(init, userId), tail, categories, userId);
      NamesOfAppend(WithoutUser(init, userId), tail, categories, other);
      if tail != [] {
        assert tail[..0] == [];
      }
    }
  }

  lemma {:induction false} NamesOfNew(startId: int, userId: int, categoryIds: seq<int>, categories: seq<Category>, other: int)
    requires forall id :: id in categoryIds ==> Known(categories, id)
    ensures NamesOf(NewPreferences(startId, userId, categoryIds), categories, userId) == NamesOfIds(categories, categoryIds)
    ensures other != userId ==> NamesOf(NewPreferences(startId, userId, categoryIds), categories, other) == []
    decreases |categoryIds|
  {
    if categoryIds != [] {
      var init := categoryIds[..|categoryIds| - 1];
      var rows := NewPreferences(startId, userId, categoryIds);
      assert rows[..|rows| - 1] == NewPreferences(startId, userId, init);
      assert categoryIds[|categoryIds| - 1] in categoryIds;
      NamesOfNew(startId, userId, init, categories, other);
    }
  }

  /**
   * Deleting a user's preferences and inserting new ones replaces that
   * user's list of names by the new categories' names, in request order,
   * and leaves every other user's list as it was.
   */
  lemma PreferencesReplaced(
    preferences: seq<Preference>, categories: seq<Category>, userId: int, startId: int, categoryIds: seq<int>, other: int)
    requires forall id :: id in categoryIds ==> Known(categories, id)
    ensures var after := WithoutUser(preferences, userId) + NewPreferences(startId, userId, categoryIds);
      && NamesOf(after, categories, userId) == NamesOfIds(categories, categoryIds)
      && (other != userId ==> NamesOf(after, categories, other) == NamesOf(preferences, categories, other))
  {
    var kept, added := WithoutUser(preferences, userId), NewPreferences(startId, userId, categoryIds);
    NamesOfAppend(kept, added, categories, userId);
    NamesOfAppend(kept, added, categories, other);
    NamesOfWithout(preferences, categories, userId, other);
    NamesOfNew(startId, userId, categoryIds, categories, other);
    assert NamesOf(kept + added, categories, userId) == [] + NamesOfIds(categories, categoryIds);
  }

  /** Row `p` may precede row `q`: a smaller id, and not the same user's same category. */
  predicate Before(p: Preference, q: Preference)
  {
    p.id < q.id && (p.userId == q.userId ==> p.categoryId != q.categoryId)
  }

  /** The preference table's order and its unique key on (user, category). */
  predicate Ordered(preferences: seq<Preference>)
  {
    forall i, j :: 0 <= i < j < |preferences| ==> Before(preferences[i], preferences[j])
  }

  /**
   * The first fault a loop inserting `categoryIds` for a user with no
   * preferences meets: an id with no category (the foreign key) or an id
   * already inserted (the unique key on user and category).
   */
  function InsertFault(categories: seq<Category>, categoryIds: seq<int>): (r: Option<PreferenceFault>)
    ensures r.None? <==> Distinct(categoryIds) && forall id :: id in categoryIds ==> Known(categories, id)
    ensures r.Some? ==> r.value.DuplicatePreference? || (r.value.UnknownCategory? && r.value.id in categoryIds && !Known(categories, r.value.id))
  {
    if categoryIds == [] then None
    else
      var init, last := categoryIds[..|categoryIds| - 1], categoryIds[|categoryIds| - 1];
      var earlier := InsertFault(categories, init);
      assert forall id :: id in categoryIds <==> id in init || id == last;
      if earlier.Some? then earlier
      else if !Known(categories, last) then Some(UnknownCategory(last))
      else if last in init then Some(DuplicatePreference)
      else None
  }

  /**
   * The first fault a `findByName(...).orElseThrow` loop inserting
   * `names` for a user with no preferences meets: a name the catalogue
   * does not have, or a category met a second time.
   */
  function NamesFault(categories: seq<Category>, names: seq<string>): (r: Option<PreferenceFault>)
    ensures r.None? <==> AllNamed(categories, names) && Distinct(FoundIds(categories, names))
    ensures r.Some? ==> r.value.DuplicatePreference? || (r.value.UnknownName? && r.value.name in names && CategoryByName(categories, r.value.name).None?)
  {
    if names == [] then None
    else
      var init, last := names[..|names| - 1], names[|names| - 1];
      var earlier := NamesFault(categories, init);
      assert AllNamed(categories, names) <==> AllNamed(categories, init) && CategoryByName(categories, last).Some? by {
        assert forall k :: 0 <= k < |init| ==> names[k] == init[k];
      }
      var c := CategoryByName(categories, last);
      var found := FoundIds(categories, init);
      assert FoundIds(categories, names) == found + (if c.Some? then [c.value.id] else []);
      assert Distinct(FoundIds(categories, names)) ==> Distinct(found) by {
        if Distinct(FoundIds(categories, names)) {
          DistinctPrefix(found, if c.Some? then [c.value.id] else []);
        }
      }
      if earlier.Some? then earlier
      else if c.None? then Some(UnknownName(last))
      else
        var ids := FoundIds(categories, names);
        assert ids == FoundIds(categories, init) + [c.value.id];
        if c.value.id in found then RepeatNotDistinct(found, c.value.id); Some(DuplicatePreference)
        else None
  }

  /** Every name is in the catalogue. */
  predicate AllNamed(categories: seq<Category>, names: seq<string>)
  {
    forall k :: 0 <= k < |names| ==> CategoryByName(categories, names[k]).Some?
  }

  /** When every name is known, keeping the known names keeps the request itself. */
  lemma {:induction false} AllNamesKnown(categories: seq<Category>, names: seq<string>)
    requires AllNamed(categories, names)
    ensures KnownNames(categories, names) == names
    decreases |names|
  {
    if names != [] {
      var init := names[..|names| - 1];
      assert forall k :: 0 <= k < |init| ==> init[k] == names[k];
      AllNamesKnown(categories, init);
      assert init + [names[|names| - 1]] == names;
    }
  }

  class AccountStore {
    var users: map<int, UserRow>
    var nextUserId: int
    /** `user_settings`, by user id. */
    var settings: map<int, SettingsRow>
    /** `user_preferred_categories`, in id order. */
    var preferences: seq<Preference>
    var nextPreferenceId: int
    var consents: seq<ConsentRow>
    const categories: seq<Category>

    predicate Valid()
      reads this
    {
      && (forall k :: k in users ==> users[k].id == k && k < nextUserId)
      && (forall k :: k in settings ==> k in users)
      && Attached(preferences, users.Keys, categories, nextPreferenceId)
      && Ordered(preferences)
      && Catalogue(categories)
    }

    constructor (categories: seq<Category>)
      requires Catalogue(categories)
      ensures Valid() && this.categories == categories
      ensures users == map[] && settings == map[] && preferences == [] && consents == []
    {
      this.categories := categories;
      users, settings, preferences, consents := map[], map[], [], [];
      nextUserId, nextPreferenceId := 1, 1;
    }

    /** `userRepository.save` of a new user: the next id is taken. */
    method InsertUser(providerUserId: string, name: Option<string>, phone: Option<string>, birth: Option<Date>)
      returns (id: int)
      requires Valid()
      modifies this
      ensures Valid() && id == old(nextUserId) && id !in old(users)
      ensures users == old(users)[id := UserRow(id, providerUserId, name, phone, birth)] && nextUserId == old(nextUserId) + 1
      ensures settings == old(settings) && consents == old(consents)
      ensures preferences == old(preferences) && nextPreferenceId == old(nextPreferenceId)
    {
      id := nextUserId;
      users := users[id := UserRow(id, providerUserId, name, phone, birth)];
      nextUserId := nextUserId + 1;
    }

    /** `userSettingsRepository.save`: the user's settings row is inserted or overwritten. */
    method SaveSettings(userId: int, row: SettingsRow)
      requires Valid() && userId in users
      modifies this
      ensures Valid() && settings == old(settings)[userId := row]
      ensures users == old(users) && nextUserId == old(nextUserId) && consents == old(consents)
      ensures preferences == old(preferences) && nextPreferenceId == old(nextPreferenceId)
    {
      settings := settings[userId := row];
    }

    /** `userConsentRepository.saveAll`. */
    method AddConsents(rows: seq<ConsentRow>)
      requires Valid()
      modifies this
      ensures Valid() && consents == old(consents) + rows
      ensures users == old(users) && nextUserId == old(nextUserId) && settings == old(settings)
      ensures preferences == old(preferences) && nextPreferenceId == old(nextPreferenceId)
    {
      consents := consents + rows;
    }

    /**
     * The preference rows of `userId` replaced by `categoryIds`, inserted in
     * order. Valid for any user on file when the ids are known and distinct.
     */
    method ReplacePreferences(userId: int, categoryIds: seq<int>)
      requires Valid() && userId in users && InsertFault(categories, categoryIds).None?
      modifies this
      ensures Valid()
      ensures preferences == WithoutUser(old(preferences), userId) + NewPreferences(old(nextPreferenceId), userId, categoryIds)
      ensures nextPreferenceId == old(nextPreferenceId) + |categoryIds|
      ensures users == old(users) && nextUserId == old(nextUserId) && settings == old(settings) && consents == old(consents)
    {
      KeptOrdered(preferences, userId);
      preferences, nextPreferenceId :=
        InsertRows(WithoutUser(preferences, userId), users.Keys, categories, nextPreferenceId, userId, categoryIds);
    }
  }

  /**
   * The save loop: one row per category id appended after `rows`, ids
   * counting up from `start`. Rows appended for a user on file, with known
   * and distinct categories, after rows of other users keep the table in
   * order and unique.
   */
  method InsertRows(rows: seq<Preference>, userIds: set<int>, categories: seq<Category>, start: int, userId: int, categoryIds: seq<int>)
    returns (table: seq<Preference>, nextId: int)
    requires Ordered(rows) && Attached(rows, userIds, categories, start)
    requires forall q :: q in rows ==> q.userId != userId
    requires userId in userIds && InsertFault(categories, categoryIds).None?
    ensures table == rows + NewPreferences(start, userId, categoryIds) && nextId == start + |categoryIds|
    ensures Ordered(table) && Attached(table, userIds, categories, nextId)
  {
    var added := NewPreferences(start, userId, categoryIds);
    table, nextId := rows, start;
    for i := 0 to |categoryIds|
      invariant table == rows + added[..i]
      invariant nextId == start + i
      invariant Ordered(table) && Attached(table, userIds, categories, nextId)
    {
      var row := Preference(nextId, userId, categoryIds[i]);
      NextRowFollows(rows, userId, start, categoryIds, i);
      assert categoryIds[i] in categoryIds;
      AppendOrdered(table, row);
      table := table + [row];
      assert added[..i + 1] == added[..i] + [added[i]];
      nextId := nextId + 1;
    }
    assert added[..|categoryIds|] == added;
  }

  /** Every row belongs to a user on file and a known category, and has an id below `bound`. */
  predicate Attached(preferences: seq<Preference>, users: set<int>, categories: seq<Category>, bound: int)
  {
    forall p :: p in preferences ==> p.userId in users && Known(categories, p.categoryId) && p.id < bound
  }

  /**
   * The `i`-th inserted row may follow the rows kept for other users and
   * the rows inserted before it, because the categories are distinct.
   */
  lemma NextRowFollows(kept: seq<Preference>, userId: int, start: int, categoryIds: seq<int>, i: nat)
    requires forall q :: q in kept ==> q.userId != userId && q.id < start
    requires Distinct(categoryIds) && i < |categoryIds|
    ensures var added := NewPreferences(start, userId, categoryIds);
      && added[i] == Preference(start + i, userId, categoryIds[i])
      && forall q :: q in kept + added[..i] ==> Before(q, added[i])
  {
    var added := NewPreferences(start, userId, categoryIds);
    forall q | q in kept + added[..i] ensures Before(q, added[i]) {
      if q !in kept {
        var j :| 0 <= j < i && added[..i][j] == q;
        assert q == added[j];
      }
    }
  }

  /** A row that may follow every row of an ordered table keeps it ordered. */
  lemma AppendOrdered(preferences: seq<Preference>, row: Preference)
    requires Ordered(preferences) && forall q :: q in preferences ==> Before(q, row)
    ensures Ordered(preferences + [row])
  {
    var longer := preferences + [row];
    forall i, j | 0 <= i < j < |longer| ensures Before(longer[i], longer[j]) {
      if j == |preferences| {
        assert longer[i] in preferences;
      } else {
        assert longer[i] == preferences[i] && longer[j] == preferences[j];
      }
    }
  }

  /** Deleting rows keeps the rest in id order and keeps them unique per user and category. */
  lemma {:induction false} KeptOrdered(preferences: seq<Preference>, userId: int)
    requires Ordered(preferences)
    ensures Ordered(WithoutUser(preferences, userId))
    decreases |preferences|
  {
    if preferences != [] {
      var init, last := preferences[..|preferences| - 1], preferences[|preferences| - 1];
      assert Ordered(init) by {
        forall i, j | 0 <= i < j < |init| ensures Before(init[i], init[j]) {
          assert init[i] == preferences[i] && init[j] == preferences[j];
        }
      }
      KeptOrdered(init, userId);
      var keptInit := WithoutUser(init, userId);
      var kept := WithoutUser(preferences, userId);
      forall p | p in keptInit ensures Before(p, last) {
        var i :| 0 <= i < |init| && init[i] == p;
        assert preferences[i] == p;
      }
      if last.userId == userId {
        assert kept == keptInit;
      } else {
        assert kept == keptInit + [last];
        forall i, j | 0 <= i < j < |kept| ensures Before(kept[i], kept[j]) {
          if j < |keptInit| {
            assert kept[i] == keptInit[i] && kept[j] == keptInit[j];
          } else {
            assert kept[i] in keptInit;
          }
        }
      }
    }
  }
}

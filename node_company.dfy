/**
 * server/routes/company.js: a user's company settings, at most one row per
 * user. Reading shows fixed defaults when the user has no row (and writes
 * nothing); writing inserts the row or updates it in place.
 */
module NodeCompany {
  import opened Wrappers
  import Tables
  import Numbering
  import opened NodeDb
  import NodeNumbering

  const LogoRequired: string := "Logo URL is required"

  /** What `GET /api/company` answers for a user without a settings row. */
  const DefaultSettings: SettingsFields := SettingsFields(
    Some(""), Some(""), Some(""), Some(""), Some(""), Some(""), Some(""),
    Some("INV"), Some(1000), Some("EST"), Some(1000), Some(30), Some(0.0), Some("USD"), Some(""), Some(""))

  /** A row inserted with only `logo_url`: every other column NULL. */
  const NoSettings: SettingsFields := SettingsFields(
    None, None, None, None, None, None, None, None, None, None, None, None, None, None, None, None)

  /** `GET /api/company`: the user's row, or the defaults. */
  function GetSettings(db: NodeDatabase, user: int, fault: bool): (r: Outcome<SettingsFields>)
    reads db
    ensures fault ==> r == Fail(500, DbError)
    ensures !fault && NodeNumbering.SettingsOf(db, user).None? ==> r == Ok(DefaultSettings)
    ensures !fault && NodeNumbering.SettingsOf(db, user).Some? ==>
              r.Ok? && exists k :: k in db.settings && db.settings[k].userId == user && db.settings[k].fields == r.value
  {
    if fault then Fail(500, DbError)
    else
      var s := NodeNumbering.SettingsOf(db, user);
      if s.None? then Ok(DefaultSettings) else Ok(s.value)
  }

  /**
   * The defaults shown to a user without a row are the ones numbering uses for
   * that user: prefixes 'INV' and 'EST', both series starting at 1000.
   */
  lemma DefaultsAgreeWithNumbering(db: NodeDatabase, user: int)
    requires NodeNumbering.SettingsOf(db, user).None?
    ensures Some(NodeNumbering.InvoicePrefix(db, user)) == DefaultSettings.invoicePrefix
    ensures Some(NodeNumbering.EstimatePrefix(db, user)) == DefaultSettings.estimatePrefix
    ensures Some(Numbering.StartFor(NodeNumbering.Column(NodeNumbering.SettingsOf(db, user), (f: SettingsFields) => f.invoiceStartingNumber)))
            == DefaultSettings.invoiceStartingNumber
    ensures Some(Numbering.StartFor(NodeNumbering.Column(NodeNumbering.SettingsOf(db, user), (f: SettingsFields) => f.estimateStartingNumber)))
            == DefaultSettings.estimateStartingNumber
  {
  }

  /** The key of the user's row, if any. */
  function SettingsKey(db: NodeDatabase, user: int): (k: Option<int>)
    reads db
    ensures k.None? <==> forall j :: j in db.settings ==> db.settings[j].userId != user
    ensures k.Some? ==> k.value in db.settings && db.settings[k.value].userId == user
  {
    var keys := set j | j in db.settings && db.settings[j].userId == user;
    assert forall j :: j in db.settings && db.settings[j].userId == user ==> j in keys;
    if keys == {} then None else Some(Tables.MaxId(keys))
  }

  /** Under one row per user, the row found by key is the row the numbering reads. */
  lemma KeyedRowIsRead(db: NodeDatabase, user: int, k: int)
    requires db.Valid() && k in db.settings && db.settings[k].userId == user
    ensures NodeNumbering.SettingsOf(db, user) == Some(db.settings[k].fields)
  {
  }

  /** Inserts a row for a user without one, or rewrites the user's row with `change`. */
  method Upsert(db: NodeDatabase, user: int, inserted: SettingsFields, change: SettingsFields -> SettingsFields, today: int)
    returns (row: Settings)
    requires db.Valid()
    modifies db`settings
    ensures db.Valid()
    ensures row.userId == user && row.updatedAt == today && db.settings == old(db.settings)[row.id := row]
    ensures old(SettingsKey(db, user)).None? ==> row.id !in old(db.settings) && row.fields == inserted
    ensures old(SettingsKey(db, user)).Some? ==>
              row.id == old(SettingsKey(db, user)).value && row.fields == change(old(db.settings[row.id].fields))
    ensures NodeNumbering.SettingsOf(db, user) == Some(row.fields)
  {
    var k := SettingsKey(db, user);
    if k.None? {
      row := Settings(Tables.NextId(db.settings.Keys), user, inserted, today);
    } else {
      row := db.settings[k.value].(fields := change(db.settings[k.value].fields), updatedAt := today);
    }
    db.settings := db.settings[row.id := row];
    KeyedRowIsRead(db, user, row.id);
  }

  /**
   * `PUT /api/company`. Statements: 0 look for the user's row, 1 insert or
   * update it with all sixteen fields from the body, missing ones NULL.
   */
  method PutSettings(db: NodeDatabase, user: int, fields: SettingsFields, today: int, fault: Option<nat>)
    returns (r: Outcome<Settings>)
    requires db.Valid()
    modifies db`settings
    ensures db.Valid()
    ensures Aborts(fault, 2) ==> r == Fail(500, DbError) && db.settings == old(db.settings)
    ensures !Aborts(fault, 2) ==> r.Ok? && r.value.userId == user && r.value.fields == fields
    ensures r.Ok? ==> db.settings == old(db.settings)[r.value.id := r.value]
    ensures r.Ok? ==> NodeNumbering.SettingsOf(db, user) == Some(fields)
    ensures r.Ok? && old(SettingsKey(db, user)).None? ==> r.value.id !in old(db.settings)
    ensures r.Ok? && old(SettingsKey(db, user)).Some? ==> r.value.id == old(SettingsKey(db, user)).value
  {
    if Aborts(fault, 2) {
      return Fail(500, DbError);
    }
    var row := Upsert(db, user, fields, (f: SettingsFields) => fields, today);
    r := Ok(row);
  }

  /**
   * `POST /api/company/logo`: 400 for a falsy URL; otherwise statements 0 look
   * for the user's row, 1 set its `logo_url` alone, or insert a row holding
   * only the URL.
   */
  method UploadLogo(db: NodeDatabase, user: int, logoUrl: Option<string>, today: int, fault: Option<nat>)
    returns (r: Outcome<string>)
    requires db.Valid()
    modifies db`settings
    ensures db.Valid()
    ensures !TruthyText(logoUrl) ==> r == Fail(400, LogoRequired)
    ensures TruthyText(logoUrl) && Aborts(fault, 2) ==> r == Fail(500, DbError)
    ensures r.Fail? ==> db.settings == old(db.settings)
    ensures r.Ok? <==> TruthyText(logoUrl) && !Aborts(fault, 2)
    ensures r.Ok? ==> r.value == logoUrl.value
    ensures r.Ok? && old(NodeNumbering.SettingsOf(db, user)).None? ==>
              NodeNumbering.SettingsOf(db, user) == Some(NoSettings.(logoUrl := logoUrl))
    ensures r.Ok? && old(NodeNumbering.SettingsOf(db, user)).Some? ==>
              NodeNumbering.SettingsOf(db, user) == Some(old(NodeNumbering.SettingsOf(db, user)).value.(logoUrl := logoUrl))
  {
    if !TruthyText(logoUrl) {
      return Fail(400, LogoRequired);
    }
    if Aborts(fault, 2) {
      return Fail(500, DbError);
    }
    var k := SettingsKey(db, user);
    if k.Some? {
      KeyedRowIsRead(db, user, k.value);
    }
    var row := Upsert(db, user, NoSettings.(logoUrl := logoUrl), (f: SettingsFields) => f.(logoUrl := logoUrl), today);
    r := Ok(logoUrl.value);
  }

  /**
   * A row created by the logo upload alone has NULL prefixes and starting
   * numbers, so `GET` then shows NULLs where it showed 'INV' and 1000 before,
   * while numbering still falls back to 'INV' and 1000.
   */
  lemma LogoOnlyRowKeepsNumberingDefaults(db: NodeDatabase, user: int, url: string)
    requires NodeNumbering.SettingsOf(db, user) == Some(NoSettings.(logoUrl := Some(url)))
    ensures GetSettings(db, user, false).value.invoicePrefix.None?
    ensures NodeNumbering.InvoicePrefix(db, user) == "INV" && NodeNumbering.EstimatePrefix(db, user) == "EST"
    ensures Numbering.StartFor(NodeNumbering.Column(NodeNumbering.SettingsOf(db, user), (f: SettingsFields) => f.invoiceStartingNumber)) == 1000
  {
  }
}

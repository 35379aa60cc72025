/**
 * server/services/numberingService.js bound to the Node tables: the user's
 * settings row gives the prefix and starting number, and the user's invoices
 * or estimates give the latest number carrying that prefix.
 */
module NodeNumbering {
  import opened Wrappers
  import Tables
  import Numbering
  import Text
  import opened NodeDb

  /** `SELECT ... FROM company_settings WHERE user_id = $1`, its first row if any. */
  function SettingsOf(db: NodeDatabase, user: int): (r: Option<SettingsFields>)
    reads db
    ensures r.None? <==> forall k :: k in db.settings ==> db.settings[k].userId != user
    ensures r.Some? ==> exists k :: k in db.settings && db.settings[k].userId == user && db.settings[k].fields == r.value
  {
    var rows := Tables.Select(db.settings, (s: Settings) => s.userId == user);
    if rows == [] then None else (assert rows[0] in rows; Some(rows[0].fields))
  }

  /** A column of the settings row, NULL when the user has none. */
  function Column<T>(s: Option<SettingsFields>, column: SettingsFields -> Option<T>): Option<T>
  {
    if s.Some? then column(s.value) else None
  }

  function InvoiceNumbers(db: NodeDatabase): map<int, Numbering.NumberedRow>
    reads db
  {
    map id | id in db.invoices :: Numbering.NumberedRow(db.invoices[id].userId, db.invoices[id].invoiceNumber)
  }

  function EstimateNumbers(db: NodeDatabase): map<int, Numbering.NumberedRow>
    reads db
  {
    map id | id in db.estimates :: Numbering.NumberedRow(Some(db.estimates[id].userId), Some(db.estimates[id].estimateNumber))
  }

  /** The prefix `generateInvoiceNumber` uses: the setting, or 'INV' when it is falsy. */
  function InvoicePrefix(db: NodeDatabase, user: int): string
    reads db
  {
    Numbering.PrefixFor(Column(SettingsOf(db, user), (f: SettingsFields) => f.invoicePrefix), Numbering.InvoiceDefaultPrefix)
  }

  function EstimatePrefix(db: NodeDatabase, user: int): string
    reads db
  {
    Numbering.PrefixFor(Column(SettingsOf(db, user), (f: SettingsFields) => f.estimatePrefix), Numbering.EstimateDefaultPrefix)
  }

  /** `generateInvoiceNumber(client, user)` when both of its queries succeed. */
  function NextInvoiceNumber(db: NodeDatabase, user: int): (r: string)
    reads db
    ensures InvoicePrefix(db, user) <= r
    ensures Numbering.Candidates(InvoiceNumbers(db), user, InvoicePrefix(db, user)) == {} ==>
              r == InvoicePrefix(db, user)
                   + Numbering.Render(Numbering.Finite(Numbering.StartFor(Column(SettingsOf(db, user), (f: SettingsFields) => f.invoiceStartingNumber))))
  {
    var s := SettingsOf(db, user);
    Numbering.Generate(Column(s, (f: SettingsFields) => f.invoicePrefix), Column(s, (f: SettingsFields) => f.invoiceStartingNumber),
                       Numbering.InvoiceDefaultPrefix, InvoiceNumbers(db), user)
  }

  /** `generateEstimateNumber(client, user)` when both of its queries succeed. */
  function NextEstimateNumber(db: NodeDatabase, user: int): (r: string)
    reads db
    ensures EstimatePrefix(db, user) <= r
    ensures Numbering.Candidates(EstimateNumbers(db), user, EstimatePrefix(db, user)) == {} ==>
              r == EstimatePrefix(db, user)
                   + Numbering.Render(Numbering.Finite(Numbering.StartFor(Column(SettingsOf(db, user), (f: SettingsFields) => f.estimateStartingNumber))))
  {
    var s := SettingsOf(db, user);
    Numbering.Generate(Column(s, (f: SettingsFields) => f.estimatePrefix), Column(s, (f: SettingsFields) => f.estimateStartingNumber),
                       Numbering.EstimateDefaultPrefix, EstimateNumbers(db), user)
  }

  /** A user with no settings row and no estimate yet gets `EST1000`. */
  lemma FirstEstimateNumber(db: NodeDatabase, user: int)
    requires forall k :: k in db.settings ==> db.settings[k].userId != user
    requires forall k :: k in db.estimates ==> db.estimates[k].userId != user
    ensures NextEstimateNumber(db, user) == "EST1000"
  {
    assert SettingsOf(db, user).None?;
    assert EstimatePrefix(db, user) == "EST";
    assert forall id :: id in EstimateNumbers(db) ==> EstimateNumbers(db)[id].userId != Some(user);
    assert Numbering.Candidates(EstimateNumbers(db), user, "EST") == {};
    RenderThousand();
  }

  /** A user with no settings row and no invoice yet gets `INV1000`. */
  lemma FirstInvoiceNumber(db: NodeDatabase, user: int)
    requires forall k :: k in db.settings ==> db.settings[k].userId != user
    requires forall k :: k in db.invoices ==> db.invoices[k].userId != Some(user)
    ensures NextInvoiceNumber(db, user) == "INV1000"
  {
    assert SettingsOf(db, user).None?;
    assert InvoicePrefix(db, user) == "INV";
    assert forall id :: id in InvoiceNumbers(db) ==> InvoiceNumbers(db)[id].userId != Some(user);
    assert Numbering.Candidates(InvoiceNumbers(db), user, "INV") == {};
    RenderThousand();
  }

  /** `String(1000).padStart(4, '0')` is `1000`. */
  lemma RenderThousand()
    ensures Numbering.Render(Numbering.Finite(1000)) == "1000"
  {
    assert Text.NatToString(1) == "1";
    assert Text.NatToString(10) == "10";
    assert Text.NatToString(100) == "100";
    assert Text.NatToString(1000) == "1000";
  }
}

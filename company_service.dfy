/**
 * backend/company-service/src/main.rs: the caller's company settings, a single
 * row per user that reading creates on first use and writing upserts.
 */
module CompanyService {
  import opened Wrappers
  import Tables
  import opened RustDb

  const DefaultCompanyName: string := "My Company"

  /** The settings a fresh row holds: the default name and every other column NULL. */
  function DefaultFields(): (f: CompanyFields)
    ensures f.companyName == DefaultCompanyName
    ensures f.invoicePrefix.None? && f.invoiceStartingNumber.None? && f.defaultTaxRate.None?
  {
    CompanyFields(DefaultCompanyName, None, None, None, None, None, None, None, None, None, None,
                  None, None, None, None, None)
  }

  /** Ids of the caller's settings rows. */
  function RowsOf(companies: map<int, CompanyRow>, user: int): set<int>
  {
    set id | id in companies && companies[id].userId == user
  }

  /** `SELECT * FROM companies WHERE user_id = $1`, with at most one match. */
  function CompanyOf(db: Database, user: int): (r: Option<CompanyRow>)
    reads db
    requires db.Valid()
    ensures r.None? <==> forall id :: id in db.companies ==> db.companies[id].userId != user
    ensures r.Some? ==> r.value in db.companies.Values && r.value.userId == user
  {
    if forall id :: id in db.companies ==> db.companies[id].userId != user then None
    else
      var id :| id in db.companies && db.companies[id].userId == user;
      Some(db.companies[id])
  }

  /** `get_company`: the caller's row; when there is none, a default row is inserted and returned. */
  method GetCompany(db: Database, user: int, today: int, fault: bool) returns (r: Outcome<CompanyRow>)
    requires db.Valid()
    modifies db`companies
    ensures db.Valid()
    ensures old(CompanyOf(db, user)).Some? ==> r == Ok(old(CompanyOf(db, user)).value) && db.companies == old(db.companies)
    ensures old(CompanyOf(db, user)).None? && fault ==> r == Fail(500, DbError) && db.companies == old(db.companies)
    ensures old(CompanyOf(db, user)).None? && !fault ==>
              r.Ok? && r.value.id !in old(db.companies)
              && r.value == CompanyRow(r.value.id, user, DefaultFields(), today, today)
              && db.companies == old(db.companies)[r.value.id := r.value]
    ensures r.Ok? ==> CompanyOf(db, user) == Some(r.value)
  {
    var existing := CompanyOf(db, user);
    if existing.Some? {
      return Ok(existing.value);
    }
    if fault {
      return Fail(500, DbError);
    }
    var id := Tables.NextId(db.companies.Keys);
    var row := CompanyRow(id, user, DefaultFields(), today, today);
    db.companies := db.companies[id := row];
    OnlyRow(db.companies, user, id);
    return Ok(row);
  }

  /** A user with a single row is found at that row. */
  lemma OnlyRow(companies: map<int, CompanyRow>, user: int, id: int)
    requires id in companies && companies[id].userId == user
    requires forall a, b :: a in companies && b in companies && companies[a].userId == companies[b].userId ==> a == b
    ensures RowsOf(companies, user) == {id}
  {
    forall k | k in RowsOf(companies, user) ensures k == id {
    }
    assert id in RowsOf(companies, user);
  }

  /**
   * `update_company`: an upsert keyed on the user. An existing row keeps its id
   * and creation time and takes all sixteen fields and `updated_at = today`;
   * otherwise a new row is inserted.
   */
  method UpdateCompany(db: Database, user: int, payload: CompanyFields, today: int, fault: bool)
    returns (r: Outcome<CompanyRow>)
    requires db.Valid()
    modifies db`companies
    ensures db.Valid()
    ensures fault ==> r == Fail(500, DbError) && db.companies == old(db.companies)
    ensures !fault && old(CompanyOf(db, user)).Some? ==>
              var before := old(CompanyOf(db, user)).value;
              r == Ok(CompanyRow(before.id, user, payload, before.createdAt, today))
              && db.companies == old(db.companies)[before.id := r.value]
    ensures !fault && old(CompanyOf(db, user)).None? ==>
              r.Ok? && r.value.id !in old(db.companies)
              && r.value == CompanyRow(r.value.id, user, payload, today, today)
              && db.companies == old(db.companies)[r.value.id := r.value]
    ensures r.Ok? ==> CompanyOf(db, user) == Some(r.value)
    ensures forall id :: id in old(db.companies) && old(db.companies)[id].userId != user ==>
              id in db.companies && db.companies[id] == old(db.companies)[id]
  {
    if fault {
      return Fail(500, DbError);
    }
    var existing := CompanyOf(db, user);
    var row;
    if existing.Some? {
      row := CompanyRow(existing.value.id, user, payload, existing.value.createdAt, today);
    } else {
      var id := Tables.NextId(db.companies.Keys);
      row := CompanyRow(id, user, payload, today, today);
    }
    db.companies := db.companies[row.id := row];
    OnlyRow(db.companies, user, row.id);
    return Ok(row);
  }

  /** Reading twice: the second read finds the row the first one created, and changes nothing. */
  method GetTwice(db: Database, user: int, today: int) returns (first: Outcome<CompanyRow>, second: Outcome<CompanyRow>)
    requires db.Valid()
    modifies db`companies
    ensures first.Ok? && second == first
  {
    first := GetCompany(db, user, today, false);
    second := GetCompany(db, user, today, false);
  }
}

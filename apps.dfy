/**
 * Client registration (`new_app` in `ferri-server/src/endpoints/api/apps.rs`): a fresh
 * secret is drawn and the application inserted under its name; when the insert fails
 * (the name is already registered) the answer takes the name and the scopes from the stored
 * row. The insert binds its arguments in the order name, scopes, secret to the columns
 * `client_id, client_secret, scopes`.
 */
module Apps {
  import opened Wrappers
  import opened Store
  import Api = ApiTypes
  import Oracle

  /** The registration form (`App`). */
  datatype App = App(clientName: string, redirectUris: seq<string>, scopes: string)

  /** What `new_app` leaves: the tables and the answer (`None`: the `fetch_one` panic). */
  datatype Registered = Registered(tables: Tables, reply: Option<Api.CredentialApplication>)

  /** The row as the insert binds it: the scopes in `client_secret`, the secret in `scopes`. */
  function RowAsWritten(app: App, secret: string): AppRow {
    AppRow(app.clientName, app.scopes, secret)
  }

  /** The row the column names call for: the secret in `client_secret`, the scopes in `scopes`. */
  function RowCorrected(app: App, secret: string): AppRow {
    AppRow(app.clientName, secret, app.scopes)
  }

  /**
   * Insert `row`; on failure answer with the name and the scopes of the first stored row
   * with that client id. The answer always carries the fresh secret.
   */
  function Register(t: Tables, app: App, row: AppRow, secret: string): (r: Registered)
    requires row.clientId == app.clientName
  {
    match Insert(t.app, row, AppKeys())
    case Some(rows) =>
      Registered(t.(app := rows),
                 Some(Api.CredentialApplication(app.clientName, app.scopes, app.redirectUris, app.clientName, secret)))
    case None =>
      match Find(t.app, AppClientId, app.clientName)
      case None => Registered(t, None)
      case Some(existing) =>
        Registered(t, Some(Api.CredentialApplication(existing.clientId, existing.scopes, app.redirectUris,
                                                     existing.clientId, secret)))
  }

  /** `new_app` as written. */
  function NewAppEffect(t: Tables, app: App, secret: string): Registered {
    Register(t, app, RowAsWritten(app, secret), secret)
  }

  /** `new_app` with the insert's arguments in column order. */
  function NewAppCorrectedEffect(t: Tables, app: App, secret: string): Registered {
    Register(t, app, RowCorrected(app, secret), secret)
  }

  method NewApp(conn: Connection, tokens: Oracle.Ids, app: App) returns (r: Option<Api.CredentialApplication>)
    modifies conn, tokens
    ensures var e := NewAppEffect(old(conn.tables), app, tokens.source(old(tokens.next)));
      conn.tables == e.tables && r == e.reply
    ensures tokens.next == old(tokens.next) + 1
  {
    var secret := tokens.Fresh();
    var rows := Insert(conn.tables.app, AppRow(app.clientName, app.scopes, secret), AppKeys());
    var isAppPresent := rows.None?;
    var name, scopes := app.clientName, app.scopes;
    if isAppPresent {
      var existing := Find(conn.tables.app, AppClientId, app.clientName);
      if existing.None? {
        return None;
      }
      name, scopes := existing.value.clientId, existing.value.scopes;
    } else {
      conn.tables := conn.tables.(app := rows.value);
    }
    r := Some(Api.CredentialApplication(name, scopes, app.redirectUris, name, secret));
  }

  /**
   * Registration always answers, with `client_id` and `name` both the client name and the
   * fresh secret. A new name is stored, the answer echoing the form; a known name changes
   * nothing and the answer's scopes are those of the first row stored under that name.
   */
  lemma RegisterOutcome(t: Tables, app: App, row: AppRow, secret: string)
    requires row.clientId == app.clientName
    ensures var r := Register(t, app, row, secret);
      && r.reply.Some?
      && r.reply.value.name == app.clientName && r.reply.value.clientId == app.clientName
      && r.reply.value.clientSecret == secret && r.reply.value.redirectUris == app.redirectUris
      && (!Taken(t.app, AppClientId, app.clientName) ==>
            r.tables == t.(app := t.app + [row]) && r.reply.value.scopes == app.scopes)
      && (Taken(t.app, AppClientId, app.clientName) ==>
            r.tables == t && r.reply.value.scopes == Find(t.app, AppClientId, app.clientName).value.scopes)
      && (Valid(t) ==> Valid(r.tables))
  {
    OneKey(t.app, row, AppClientId);
    if Valid(t) && Insert(t.app, row, AppKeys()).Some? {
      InsertKeepsUnique(t.app, row, AppKeys());
    }
  }

  /**
   * As written, registering the same name a second time answers with the first
   * registration's secret as its scopes.
   */
  lemma ReRegisterReportsSecret(t: Tables, app: App, again: App, secret1: string, secret2: string)
    requires !Taken(t.app, AppClientId, app.clientName) && again.clientName == app.clientName
    ensures var first := NewAppEffect(t, app, secret1);
      var second := NewAppEffect(first.tables, again, secret2);
      second.reply.Some? && second.reply.value.scopes == secret1
  {
    RegisterOutcome(t, app, RowAsWritten(app, secret1), secret1);
    var first := NewAppEffect(t, app, secret1);
    FindLast(t.app, RowAsWritten(app, secret1));
    RegisterOutcome(first.tables, again, RowAsWritten(again, secret2), secret2);
  }

  /** The smallest case: the form `read`, registered twice, reports the first secret `s1` as scopes. */
  lemma ReRegisterReportsSecretExample()
    ensures var app := App("client", [], "read");
      var first := NewAppEffect(EmptyTables(), app, "s1");
      var second := NewAppEffect(first.tables, app, "s2");
      second.reply.Some? && second.reply.value.scopes == "s1" != app.scopes
  {
    var app := App("client", [], "read");
    ReRegisterReportsSecret(EmptyTables(), app, app, "s1", "s2");
  }

  /** With the arguments in column order, a second registration reports the scopes first registered. */
  lemma ReRegisterKeepsScopes(t: Tables, app: App, again: App, secret1: string, secret2: string)
    requires !Taken(t.app, AppClientId, app.clientName) && again.clientName == app.clientName
    ensures var first := NewAppCorrectedEffect(t, app, secret1);
      var second := NewAppCorrectedEffect(first.tables, again, secret2);
      && first.reply.Some? && first.reply.value.scopes == app.scopes
      && second.reply.Some? && second.reply.value.scopes == app.scopes
  {
    RegisterOutcome(t, app, RowCorrected(app, secret1), secret1);
    var first := NewAppCorrectedEffect(t, app, secret1);
    FindLast(t.app, RowCorrected(app, secret1));
    RegisterOutcome(first.tables, again, RowCorrected(again, secret2), secret2);
  }

  /** A row appended under a client id no stored row has is the one `Find` returns for it. */
  lemma FindLast(rows: seq<AppRow>, row: AppRow)
    requires !Taken(rows, AppClientId, row.clientId)
    ensures Find(rows + [row], AppClientId, row.clientId) == Some(row)
  {
    var f := Find(rows + [row], AppClientId, row.clientId);
    assert AppClientId((rows + [row])[|rows|]) == row.clientId;
    assert f.value in rows + [row];
    forall i | 0 <= i < |rows|
      ensures rows[i] != f.value
    {
      assert AppClientId(rows[i]) != row.clientId;
    }
  }
}

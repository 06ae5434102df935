/**
  `Database` from src/lib/database.ts: the connection settings read from the
  environment, the INSERT statement built from a record's keys, and the
  acquire / execute / end discipline of `executeQuery` and `insertRecord`.
  The MySQL driver is modelled by `Connection`, whose answers are inputs.
 */
module Database {
  import opened Text
  import opened Host

  /** A value a query parameter or a column can hold. */
  datatype SqlValue = Null | Number(n: int) | Str(s: string)

  /** A resolved or rejected promise. */
  datatype Outcome<T> = Ok(value: T) | Thrown(error: string)

  /** The `DatabaseConfig` passed to the driver. */
  datatype Config = Config(host: string, user: string, password: string, database: string)

  /** `process.env[name] || fallback`: an unset or empty variable falls back. */
  function EnvOr(env: Env, name: string, fallback: string): string {
    if Truthy(GetEnv(env, name)) then env[name] else fallback
  }

  /** The settings the constructor computes from the environment. */
  function ConfigFrom(env: Env): (c: Config)
    ensures Truthy(GetEnv(env, "DATABASE_HOST")) ==> c.host == env["DATABASE_HOST"]
    ensures !Truthy(GetEnv(env, "DATABASE_HOST")) ==> c.host == "localhost"
    ensures Truthy(GetEnv(env, "DATABASE_USER")) ==> c.user == env["DATABASE_USER"]
    ensures !Truthy(GetEnv(env, "DATABASE_USER")) ==> c.user == "root"
    ensures Truthy(GetEnv(env, "DATABASE_PASSWORD")) ==> c.password == env["DATABASE_PASSWORD"]
    ensures !Truthy(GetEnv(env, "DATABASE_PASSWORD")) ==> c.password == ""
    ensures Truthy(GetEnv(env, "DATABASE_NAME")) ==> c.database == env["DATABASE_NAME"]
    ensures !Truthy(GetEnv(env, "DATABASE_NAME")) ==> c.database == "command_center"
    // Because `||` also replaces an empty string, only the password can end up empty.
    ensures c.host != "" && c.user != "" && c.database != ""
  {
    Config(EnvOr(env, "DATABASE_HOST", "localhost"),
           EnvOr(env, "DATABASE_USER", "root"),
           EnvOr(env, "DATABASE_PASSWORD", ""),
           EnvOr(env, "DATABASE_NAME", "command_center"))
  }

  /** What `connection.execute` resolves to: rows for a query, a header for an insert. */
  datatype ResultSet = Rows(rows: seq<map<string, SqlValue>>) | Header(insertId: int)

  /** One call of `connection.execute(query, params)`. */
  datatype Statement = Statement(query: string, params: seq<SqlValue>)

  /** A connection of the driver, recording the statements sent over it and whether it was ended. */
  class Connection {
    const config: Config
    var executed: seq<Statement>
    var ended: bool

    constructor (config: Config)
      ensures this.config == config && executed == [] && !ended
    {
      this.config := config;
      executed := [];
      ended := false;
    }

    /** `execute`, answering with `answer` (a result set, or the error it throws). */
    method Execute(s: Statement, answer: Outcome<ResultSet>) returns (r: Outcome<ResultSet>)
      requires !ended
      modifies this
      ensures executed == old(executed) + [s] && !ended
      ensures r == answer
    {
      executed := executed + [s];
      r := answer;
    }

    /** `end`, answering with `fails`: the error its promise rejects with, if any. */
    method End(fails: Option<string>) returns (r: Option<string>)
      modifies this
      ensures ended && executed == old(executed)
      ensures r == fails
    {
      ended := true;
      r := fails;
    }
  }

  const ConnectFailed := "Failed to connect to database"

  /** The record passed to `insertRecord`, as its entries in `Object.keys` order. */
  type Record = seq<(string, SqlValue)>

  function Keys(data: Record): seq<string> {
    seq(|data|, i requires 0 <= i < |data| => data[i].0)
  }

  function Values(data: Record): seq<SqlValue> {
    seq(|data|, i requires 0 <= i < |data| => data[i].1)
  }

  /** The column list of the INSERT statement. */
  function Columns(keys: seq<string>): string {
    Join(keys, ", ")
  }

  /** One "?" for each key. */
  function Marks(n: nat): seq<string> {
    seq(n, _ => "?")
  }

  /** The placeholder list of the INSERT statement. */
  function Placeholders(n: nat): string {
    Join(Marks(n), ", ")
  }

  /** The statement `insertRecord` sends; the values travel as parameters, not in the text. */
  function InsertQuery(table: string, keys: seq<string>): string {
    "INSERT INTO " + table + " (" + Columns(keys) + ") VALUES (" + Placeholders(|keys|) + ")"
  }

  lemma {:induction false} CountMarks(n: nat, c: char)
    ensures CountAll(Marks(n), c) == if c == '?' then n else 0
  {
    if n > 0 {
      assert Marks(n)[0] == "?";
      assert Count("?", c) == if c == '?' then 1 else 0 by {
        assert "?"[1..] == "";
      }
      assert Marks(n)[1..] == Marks(n - 1);
      CountMarks(n - 1, c);
    }
  }

  lemma {:induction false} CountAllAbsent(parts: seq<string>, c: char)
    requires forall i :: 0 <= i < |parts| ==> c !in parts[i]
    ensures CountAll(parts, c) == 0
  {
    if parts != [] {
      CountAbsent(parts[0], c);
      CountAllAbsent(parts[1..], c);
    }
  }

  /** The placeholder list holds exactly `n` question marks. */
  lemma PlaceholderCount(n: nat)
    ensures Count(Placeholders(n), '?') == n
  {
    CountMarks(n, '?');
    if n > 0 {
      CountJoin(Marks(n), ", ", '?');
      CountAbsent(", ", '?');
    }
  }

  /**
    A statement made of fixed pieces without '?', a table name and a column
    list without '?', and the placeholder list holds one '?' per column.
   */
  lemma {:induction false} MarkCount(head: string, table: string, open: string, keys: seq<string>,
                                     mid: string, close: string)
    requires '?' !in head && '?' !in table && '?' !in open && '?' !in mid && '?' !in close
    requires forall i :: 0 <= i < |keys| ==> '?' !in keys[i]
    ensures Count(head + table + open + Columns(keys) + mid + Placeholders(|keys|) + close, '?') == |keys|
  {
    var cols := Columns(keys);
    var marks := Placeholders(|keys|);
    assert Count(cols, '?') == 0 by {
      CountAllAbsent(keys, '?');
      if keys != [] {
        CountJoin(keys, ", ", '?');
        CountAbsent(", ", '?');
      }
    }
    PlaceholderCount(|keys|);
    CountAbsent(head, '?');
    CountAbsent(table, '?');
    CountAbsent(open, '?');
    CountAbsent(mid, '?');
    CountAbsent(close, '?');
    CountAppend(head, table, '?');
    CountAppend(head + table, open, '?');
    CountAppend(head + table + open, cols, '?');
    CountAppend(head + table + open + cols, mid, '?');
    CountAppend(head + table + open + cols + mid, marks, '?');
    CountAppend(head + table + open + cols + mid + marks, close, '?');
  }

  /**
    When neither the table nor any key holds a '?', the statement
    `insertRecord` sends holds one '?' per value passed alongside it.
   */
  lemma QueryMarksMatchValues(table: string, data: Record)
    requires '?' !in table
    requires forall i :: 0 <= i < |data| ==> '?' !in data[i].0
    ensures Count(InsertQuery(table, Keys(data)), '?') == |Values(data)|
  {
    MarkCount("INSERT INTO ", table, " (", Keys(data), ") VALUES (", ")");
  }

  /**
    When no key holds a ',', the column list and the placeholder list are
    separated into the same number of items: one comma fewer than keys.
   */
  lemma ColumnsMatchPlaceholders(keys: seq<string>)
    requires keys != []
    requires forall i :: 0 <= i < |keys| ==> ',' !in keys[i]
    ensures Count(Columns(keys), ',') == |keys| - 1
    ensures Count(Placeholders(|keys|), ',') == |keys| - 1
  {
    CountJoin(keys, ", ", ',');
    CountAllAbsent(keys, ',');
    CountJoin(Marks(|keys|), ", ", ',');
    CountMarks(|keys|, ',');
    assert Count(", ", ',') == 1 by {
      assert ", "[1..] == " ";
      assert " "[1..] == "";
    }
  }

  /** `DatabaseManager`. */
  class DatabaseManager {
    const config: Config

    constructor (env: Env)
      ensures config == ConfigFrom(env)
    {
      config := ConfigFrom(env);
    }

    /**
      `getConnection`: `refused` is the error `createConnection` throws, if
      any; every such error is reported under one fixed message.
     */
    method GetConnection(refused: Option<string>) returns (r: Outcome<Connection>)
      ensures r.Thrown? <==> refused.Some?
      ensures r.Thrown? ==> r.error == ConnectFailed
      ensures r.Ok? ==> fresh(r.value) && r.value.config == config && r.value.executed == [] && !r.value.ended
    {
      if refused.Some? {
        return Thrown(ConnectFailed);
      }
      var c := new Connection(config);
      return Ok(c);
    }

    /**
      `executeQuery`: one statement over a fresh connection, which is ended
      whether the statement succeeds or throws. `conn` is that connection.
      `endFails` is the rejection of `end`, if any: awaited in `finally`, it
      replaces both the rows and the error of `execute`.
     */
    method ExecuteQuery(query: string, params: seq<SqlValue>, refused: Option<string>, answer: Outcome<ResultSet>,
                        endFails: Option<string>)
      returns (r: Outcome<ResultSet>, conn: Option<Connection>)
      ensures refused.Some? ==> r == Thrown(ConnectFailed) && conn.None?
      ensures refused.None? ==>
                && conn.Some? && fresh(conn.value) && conn.value.config == config
                && conn.value.executed == [Statement(query, params)] && conn.value.ended
                && r == (if endFails.Some? then Thrown(endFails.value) else answer)
    {
      var got := GetConnection(refused);
      if got.Thrown? {
        return Thrown(got.error), None;
      }
      var c := got.value;
      r := c.Execute(Statement(query, params), answer);
      var ending := c.End(endFails);
      if ending.Some? {
        r := Thrown(ending.value);
      }
      conn := Some(c);
    }

    /**
      `insertRecord`: sends the INSERT statement for the record's keys with
      its values as parameters, ends the connection on every path, and
      yields `insertId` (undefined, `None`, when the driver answers with rows).
      A rejection of `end` (`endFails`) replaces the insert id and any error
      of `execute`.
     */
    method InsertRecord(table: string, data: Record, refused: Option<string>, answer: Outcome<ResultSet>,
                        endFails: Option<string>)
      returns (r: Outcome<Option<int>>, conn: Option<Connection>)
      ensures refused.Some? ==> r == Thrown(ConnectFailed) && conn.None?
      ensures refused.None? ==>
                && conn.Some? && fresh(conn.value) && conn.value.config == config
                && conn.value.executed == [Statement(InsertQuery(table, Keys(data)), Values(data))]
                && conn.value.ended
      ensures refused.None? && endFails.Some? ==> r == Thrown(endFails.value)
      ensures refused.None? && endFails.None? && answer.Thrown? ==> r == Thrown(answer.error)
      ensures refused.None? && endFails.None? && answer.Ok? ==>
                r == Ok(if answer.value.Header? then Some(answer.value.insertId) else None)
    {
      var columns := Columns(Keys(data));
      var placeholders := Placeholders(|Keys(data)|);
      var values := Values(data);
      var query := "INSERT INTO " + table + " (" + columns + ") VALUES (" + placeholders + ")";
      var got := GetConnection(refused);
      if got.Thrown? {
        return Thrown(got.error), None;
      }
      var c := got.value;
      var result := c.Execute(Statement(query, values), answer);
      var ending := c.End(endFails);
      conn := Some(c);
      if ending.Some? {
        return Thrown(ending.value), conn;
      }
      match result
      case Thrown(e) => r := Thrown(e);
      case Ok(Header(id)) => r := Ok(Some(id));
      case Ok(Rows(_)) => r := Ok(None);
    }
  }

  /** The statement depends on the table and the keys only: records that differ in their values send the same text. */
  lemma QueryIgnoresValues(table: string, d1: Record, d2: Record)
    requires |d1| == |d2| && forall i :: 0 <= i < |d1| ==> d1[i].0 == d2[i].0
    ensures InsertQuery(table, Keys(d1)) == InsertQuery(table, Keys(d2))
  {
    assert Keys(d1) == Keys(d2);
  }
}

/** The database layer of transwarp/db.py: the SQL text builders, the
    `?`-to-`%s` placeholder rewrite, the shaping of driver rows into
    dictionaries, the one-time engine set-up, and the connection/transaction
    context state machine.

    The driver itself (mysql.connector) is not modelled: a query's answer is
    a `Cursor` value handed in by the caller, and an engine records the
    driver calls it makes (`calls`) instead of performing them. */
module Db {
  import opened Common

  // ---------------------------------------------------------------------
  // Placeholder rewrite (`_Engine.execute`, db.py:191)
  // ---------------------------------------------------------------------

  /** `sql.replace('?', '%s')`: callers write `?` placeholders and the MySQL
      driver expects the "format" paramstyle of PEP 249 (Python DB-API 2.0). */
  function ToFormatStyle(sql: string): (r: string)
    ensures '?' !in r
    ensures |r| == |sql| + Count(sql, '?')
  {
    if |sql| == 0 then ""
    else (if sql[0] == '?' then "%s" else [sql[0]]) + ToFormatStyle(sql[1..])
  }

  /** `s.split(c)`: the maximal pieces of `s` between occurrences of `c`. */
  function SplitOn(s: string, c: char): (r: seq<string>)
    ensures |r| == Count(s, c) + 1
    ensures forall i :: 0 <= i < |r| ==> c !in r[i]
  {
    if |s| == 0 then [""]
    else
      var rest := SplitOn(s[1..], c);
      if s[0] == c then [""] + rest
      else [[s[0]] + rest[0]] + rest[1..]
  }

  lemma JoinConsFirst(x: char, parts: seq<string>, sep: string)
    requires |parts| > 0
    ensures Join([[x] + parts[0]] + parts[1..], sep) == [x] + Join(parts, sep)
  {
    var ps := [[x] + parts[0]] + parts[1..];
    assert ps[1..] == parts[1..];
  }

  /** The rewrite is exactly Python's `replace`: split on every `?` and
      join the pieces with `%s`. Nothing but the placeholders changes. */
  lemma {:induction false} RewriteIsSplitJoin(sql: string)
    ensures ToFormatStyle(sql) == Join(SplitOn(sql, '?'), "%s")
  {
    if |sql| > 0 {
      RewriteIsSplitJoin(sql[1..]);
      var rest := SplitOn(sql[1..], '?');
      if sql[0] == '?' {
        assert ([""] + rest)[1..] == rest;
      } else {
        JoinConsFirst(sql[0], rest, "%s");
      }
    }
  }

  /** SQL without placeholders is passed to the driver unchanged. */
  lemma {:induction false} RewriteKeepsPlainSql(sql: string)
    requires '?' !in sql
    ensures ToFormatStyle(sql) == sql
  {
    if |sql| > 0 {
      assert sql[0] in sql;
      RewriteKeepsPlainSql(sql[1..]);
    }
  }

  /** Each placeholder of the caller becomes exactly one `%s`. */
  lemma {:induction false} RewriteCountsPlaceholders(sql: string)
    requires '%' !in sql
    ensures Count(ToFormatStyle(sql), '%') == Count(sql, '?')
  {
    if |sql| > 0 {
      assert sql[0] in sql;
      assert '%' !in sql[1..] by {
        forall i | 0 <= i < |sql[1..]| ensures sql[1..][i] != '%' {
          assert sql[1..][i] == sql[i + 1];
        }
      }
      RewriteCountsPlaceholders(sql[1..]);
      var head := if sql[0] == '?' then "%s" else [sql[0]];
      CountAppend(head, ToFormatStyle(sql[1..]), '%');
    }
  }

  // ---------------------------------------------------------------------
  // Statement builders (db.py:150-165)
  // ---------------------------------------------------------------------

  /** A statement handed to the driver: SQL text with `?` placeholders and
      its positional arguments. */
  datatype Stmt = Stmt(sql: string, args: seq<Value>)

  function Placeholders(n: nat): (r: seq<string>)
    ensures |r| == n && forall i :: 0 <= i < n ==> r[i] == "?"
  {
    seq(n, _ => "?")
  }

  /** The SQL of `insert(table, **kw)` when `kw` is iterated in the order
      `cols`. */
  function InsertSql(table: string, cols: seq<string>): string
  {
    "insert into " + table + " (" + Join(cols, ",") + ") values ("
      + Join(Placeholders(|cols|), ",") + ")"
  }

  function EqualsPlaceholders(cols: seq<string>): (r: seq<string>)
    ensures |r| == |cols| && forall i :: 0 <= i < |cols| ==> r[i] == cols[i] + "=?"
  {
    seq(|cols|, i requires 0 <= i < |cols| => cols[i] + "=?")
  }

  /** The SQL of `delete(table, **where)`. The conditions are joined with a
      comma, as db.py:164 writes them. */
  function DeleteSql(table: string, cols: seq<string>): string
  {
    "delete from " + table + " where " + Join(EqualsPlaceholders(cols), ",")
  }

  /** `insert(table, **kw)`: the columns in iteration order `cols`, one
      placeholder each, and the values aligned with the columns. With no
      keyword at all the tuple unpacking of db.py:153 fails. */
  function Insert(table: string, kw: map<string, Value>, cols: seq<string>): (r: Result<Stmt, Failure>)
    requires KeyOrder(cols, kw)
    ensures r.Err? <==> |kw| == 0
    ensures r.Ok? ==> r.value.sql == InsertSql(table, cols)
    ensures r.Ok? ==> |r.value.args| == |cols| == |kw|
    ensures r.Ok? ==> forall i :: 0 <= i < |cols| ==> r.value.args[i] == kw[cols[i]]
  {
    KeyOrderSize(cols, kw);
    if |cols| == 0 then Err(ValueError("need more than 0 values to unpack"))
    else Ok(Stmt(InsertSql(table, cols), ValuesAt(cols, kw)))
  }

  /** `delete(table, **where)`: one `col=?` per key, values aligned. */
  function Delete(table: string, where: map<string, Value>, cols: seq<string>): (r: Result<Stmt, Failure>)
    requires KeyOrder(cols, where)
    ensures r.Err? <==> |where| == 0
    ensures r.Ok? ==> r.value.sql == DeleteSql(table, cols)
    ensures r.Ok? ==> |r.value.args| == |cols| == |where|
    ensures r.Ok? ==> forall i :: 0 <= i < |cols| ==> r.value.args[i] == where[cols[i]]
  {
    KeyOrderSize(cols, where);
    if |cols| == 0 then Err(ValueError("need more than 0 values to unpack"))
    else Ok(Stmt(DeleteSql(table, cols), ValuesAt(cols, where)))
  }

  lemma KeyOrderSize<V>(cols: seq<string>, m: map<string, V>)
    requires KeyOrder(cols, m)
    ensures |cols| == |m|
  {
    var s := set i | 0 <= i < |cols| :: cols[i];
    assert s == m.Keys;
    DistinctSeqSize(cols);
  }

  lemma {:induction false} DistinctSeqSize(cols: seq<string>)
    requires forall i, j :: 0 <= i < j < |cols| ==> cols[i] != cols[j]
    ensures |set i | 0 <= i < |cols| :: cols[i]| == |cols|
  {
    if |cols| > 0 {
      var init := cols[..|cols| - 1];
      DistinctSeqSize(init);
      var a := set i | 0 <= i < |init| :: init[i];
      var b := set i | 0 <= i < |cols| :: cols[i];
      assert b == a + {cols[|cols| - 1]};
      assert cols[|cols| - 1] !in a;
    }
  }

  function NoMark(names: seq<string>): bool
  {
    forall i :: 0 <= i < |names| ==> '?' !in names[i]
  }

  lemma {:induction false} SumCountsZero(names: seq<string>)
    requires NoMark(names)
    ensures SumCounts(names, '?') == 0
  {
    if |names| > 0 {
      CountZero(names[0]);
      assert NoMark(names[1..]) by {
        forall i | 0 <= i < |names[1..]| ensures '?' !in names[1..][i] {
          assert names[1..][i] == names[i + 1];
        }
      }
      SumCountsZero(names[1..]);
    }
  }

  lemma {:induction false} CountZero(s: string)
    requires '?' !in s
    ensures Count(s, '?') == 0
  {
    if |s| > 0 {
      assert s[0] in s;
      assert '?' !in s[1..] by {
        forall i | 0 <= i < |s[1..]| ensures s[1..][i] != '?' { assert s[1..][i] == s[i + 1]; }
      }
      CountZero(s[1..]);
    }
  }

  lemma {:induction false} SumCountsMarks(n: nat)
    ensures SumCounts(Placeholders(n), '?') == n
  {
    if n > 0 {
      assert Placeholders(n)[1..] == Placeholders(n - 1);
      SumCountsMarks(n - 1);
    }
  }

  /** When neither the table nor a column name contains `?`, an insert
      statement has exactly one placeholder per column. */
  lemma InsertPlaceholderCount(table: string, cols: seq<string>)
    requires '?' !in table && NoMark(cols)
    ensures Count(InsertSql(table, cols), '?') == |cols|
  {
    var colText := Join(cols, ",");
    var marks := Join(Placeholders(|cols|), ",");
    CountZero(",");
    CountJoin(cols, ",", '?');
    SumCountsZero(cols);
    CountJoin(Placeholders(|cols|), ",", '?');
    SumCountsMarks(|cols|);
    var p1 := "insert into " + table + " (";
    var p2 := p1 + colText + ") values (";
    CountZero(p1);
    CountZero(") values (");
    CountZero(")");
    CountAppend(p1, colText, '?');
    CountAppend(p1 + colText, ") values (", '?');
    CountAppend(p2, marks, '?');
    CountAppend(p2 + marks, ")", '?');
  }

  /** A delete statement has exactly one placeholder per key. */
  lemma DeletePlaceholderCount(table: string, cols: seq<string>)
    requires '?' !in table && NoMark(cols)
    ensures Count(DeleteSql(table, cols), '?') == |cols|
  {
    var conds := EqualsPlaceholders(cols);
    CountZero(",");
    CountJoin(conds, ",", '?');
    CondCounts(cols);
    CountZero("delete from " + table + " where ");
    CountAppend("delete from " + table + " where ", Join(conds, ","), '?');
  }

  lemma {:induction false} CondCounts(cols: seq<string>)
    requires NoMark(cols)
    ensures SumCounts(EqualsPlaceholders(cols), '?') == |cols|
  {
    if |cols| > 0 {
      assert cols[0] == cols[0];
      CountZero(cols[0]);
      CountAppend(cols[0], "=?", '?');
      assert EqualsPlaceholders(cols)[1..] == EqualsPlaceholders(cols[1..]);
      assert NoMark(cols[1..]) by {
        forall i | 0 <= i < |cols[1..]| ensures '?' !in cols[1..][i] { assert cols[1..][i] == cols[i + 1]; }
      }
      CondCounts(cols[1..]);
    }
  }

  // ---------------------------------------------------------------------
  // Row shaping (`_select`, db.py:98-105)
  // ---------------------------------------------------------------------

  /** What the driver answered to a query: the column names of
      `cursor.description` and the fetched rows. */
  datatype Cursor = Cursor(description: seq<string>, rows: seq<seq<Value>>)

  type Row = map<string, Value>

  function Min(a: nat, b: nat): nat { if a < b then a else b }

  /** `dict(zip(names, values))`: pairs up to the shorter length; a later
      repeated name overrides an earlier one. */
  function Zip(names: seq<string>, values: seq<Value>): (r: Row)
    ensures r.Keys == set i | 0 <= i < Min(|names|, |values|) :: names[i]
  {
    if |names| == 0 || |values| == 0 then map[]
    else
      var rest := Zip(names[1..], values[1..]);
      assert forall i :: 1 <= i < Min(|names|, |values|) ==> names[i] == names[1..][i - 1];
      assert (set i | 0 <= i < Min(|names|, |values|) :: names[i])
          == {names[0]} + set i | 0 <= i < Min(|names[1..]|, |values[1..]|) :: names[1..][i];
      map[names[0] := values[0]] + rest
  }

  /** With distinct column names each name is paired with its own value. */
  lemma {:induction false} ZipAt(names: seq<string>, values: seq<Value>, i: nat)
    requires forall a, b :: 0 <= a < b < |names| ==> names[a] != names[b]
    requires i < |names| && i < |values|
    ensures names[i] in Zip(names, values) && Zip(names, values)[names[i]] == values[i]
  {
    if i > 0 {
      ZipAt(names[1..], values[1..], i - 1);
      assert names[1..][i - 1] == names[i];
    }
  }

  /** `_select(sql, True, ...)`: no row, or an empty one, gives None;
      otherwise the first row keyed by the column names. Shaping a row
      needs the names, which exist only when `cursor.description` is set. */
  function SelectOne(c: Cursor): (r: Result<Option<Row>, Failure>)
    ensures r == Ok(None) <==> (|c.rows| == 0 || |c.rows[0]| == 0)
    ensures r.Err? <==> (|c.rows| > 0 && |c.rows[0]| > 0 && |c.description| == 0)
    ensures r.Ok? && r.value.Some? ==> r.value.value == Zip(c.description, c.rows[0])
    ensures r.Ok? && r.value.Some? ==> c.description[0] in r.value.value
  {
    if |c.rows| == 0 || |c.rows[0]| == 0 then Ok(None)
    else if |c.description| == 0 then Err(NameError("local variable 'names' referenced before assignment"))
    else Ok(Some(Zip(c.description, c.rows[0])))
  }

  /** `_select(sql, False, ...)`: every row, in order, keyed by the names. */
  function SelectAll(c: Cursor): (r: Result<seq<Row>, Failure>)
    ensures r.Err? <==> (|c.rows| > 0 && |c.description| == 0)
    ensures r.Ok? ==> |r.value| == |c.rows|
    ensures r.Ok? ==> forall i :: 0 <= i < |c.rows| ==> r.value[i] == Zip(c.description, c.rows[i])
  {
    if |c.rows| == 0 then Ok([])
    else if |c.description| == 0 then Err(NameError("local variable 'names' referenced before assignment"))
    else Ok(seq(|c.rows|, i requires 0 <= i < |c.rows| => Zip(c.description, c.rows[i])))
  }

  // ---------------------------------------------------------------------
  // Engine parameters (`create_engine`, db.py:22-33)
  // ---------------------------------------------------------------------

  /** The driver defaults of `create_engine` (db.py:26-27). */
  function Defaults(): map<string, Value>
  {
    map["use_unicode" := VBool(true), "charset" := VStr("utf8"),
        "collation" := VStr("utf8_general_ci"), "auto_commit" := VBool(false)]
  }

  const DefaultHost: Value := VStr("127.0.0.1")
  const DefaultPort: Value := VStr("3306")

  /** The keyword names Python binds to `create_engine`'s own parameters;
      they can never reach `**kw`. (`user` is not among them: the
      parameter is spelled `usr`.) */
  const BoundNames: set<string> := {"usr", "password", "database", "host", "port"}

  const ConnectionKeys: set<string> := {"user", "password", "database", "host", "port"}

  /** The connection arguments of `create_engine` (db.py:28). */
  function Connection(user: Value, password: Value, database: Value, host: Value, port: Value)
    : map<string, Value>
  {
    map["user" := user, "password" := password, "database" := database, "host" := host, "port" := port]
  }

  /** The parameters `create_engine` hands to the driver: the connection
      arguments, the driver defaults, every keyword on top of both, and
      `buffered` forced on. */
  function Merged(user: Value, password: Value, database: Value, host: Value, port: Value,
                  kw: map<string, Value>): map<string, Value>
  {
    (Connection(user, password, database, host, port) + Defaults() + kw)["buffered" := VBool(true)]
  }

  /** The merged parameters hold the connection arguments, the driver
      defaults, the keywords and `buffered`, and nothing else. */
  lemma MergedKeys(user: Value, password: Value, database: Value, host: Value, port: Value,
                   kw: map<string, Value>)
    ensures Merged(user, password, database, host, port, kw).Keys
            == ConnectionKeys + Defaults().Keys + kw.Keys + {"buffered"}
  {
  }

  /** A `user` keyword overrides the `usr` argument; the other connection
      arguments cannot be overridden, since Python binds those names to
      the parameters themselves. */
  lemma MergedConnection(user: Value, password: Value, database: Value, host: Value, port: Value,
                         kw: map<string, Value>)
    requires forall k :: k in kw ==> k !in BoundNames
    ensures var params := Merged(user, password, database, host, port, kw);
      && params["user"] == (if "user" in kw then kw["user"] else user)
      && params["password"] == password
      && params["database"] == database
      && params["host"] == host
      && params["port"] == port
  {
    var c, d := Connection(user, password, database, host, port), Defaults();
    assert d.Keys !! ConnectionKeys;
    assert ConnectionKeys - BoundNames == {"user"};
    forall k | k in ConnectionKeys
      ensures Merged(user, password, database, host, port, kw)[k] == (if k in kw then kw[k] else c[k])
    {
      LayerAt(c, d, kw, k);
    }
  }

  /** A key of the bottom dictionary that the two above it lack keeps its
      value when all three are laid over each other. */
  lemma LayerAt(c: map<string, Value>, d: map<string, Value>, kw: map<string, Value>, k: string)
    requires k in c && k !in d && k != "buffered"
    ensures (c + d + kw)["buffered" := VBool(true)][k] == (if k in kw then kw[k] else c[k])
  {
  }

  /** A keyword overrides the driver default of the same name and is
      otherwise passed through; a default nobody overrides survives; and
      `buffered` is on even when the caller passed `buffered=False`. */
  lemma MergedKeywords(user: Value, password: Value, database: Value, host: Value, port: Value,
                       kw: map<string, Value>)
    ensures var params := Merged(user, password, database, host, port, kw);
      && (forall k :: k in Defaults() && k !in kw ==> params[k] == Defaults()[k])
      && (forall k :: k in kw && k != "buffered" ==> params[k] == kw[k])
      && params["buffered"] == VBool(true)
  {
  }

  /** The parameter merge of `create_engine` (db.py:25-33): connection
      arguments, then each driver default unless a keyword overrides it
      (`kw.pop(k, v)`, in dictionary order), then every other keyword
      copied through, and `buffered` forced on. */
  method MergeParams(user: Value, password: Value, database: Value, host: Value, port: Value,
                     kw: map<string, Value>) returns (params: map<string, Value>)
    ensures params == Merged(user, password, database, host, port, kw)
  {
    var connection := Connection(user, password, database, host, port);
    var defaults := Defaults();
    var order := IterationOrder(defaults);
    var rest;
    params, rest := PopDefaults(connection, defaults, order, kw);
    params := params + rest;
    params := params["buffered" := VBool(true)];
  }

  /** The loop of db.py:29-30: each default goes into `params`, replaced by
      the keyword of the same name when there is one, and that keyword is
      popped. Together with the update that follows it, the result is the
      three dictionaries laid over each other. */
  method PopDefaults(params0: map<string, Value>, defaults: map<string, Value>, order: seq<string>,
                     kw: map<string, Value>) returns (params: map<string, Value>, rest: map<string, Value>)
    requires KeyOrder(order, defaults)
    ensures params + rest == params0 + defaults + kw
    ensures rest.Keys == kw.Keys - defaults.Keys
  {
    params, rest := params0, kw;
    ghost var done: set<string> := {};
    for i := 0 to |order|
      invariant done <= defaults.Keys
      invariant forall j :: 0 <= j < i ==> order[j] in done
      invariant forall j :: i <= j < |order| ==> order[j] !in done
      invariant params.Keys == params0.Keys + done
      invariant forall k :: k in params && k !in done ==> params[k] == params0[k]
      invariant forall k :: k in done ==> params[k] == (if k in kw then kw[k] else defaults[k])
      invariant rest.Keys == kw.Keys - done
      invariant forall k :: k in rest ==> rest[k] == kw[k]
    {
      var k := order[i];
      params := params[k := if k in rest then rest[k] else defaults[k]];
      rest := rest - {k};
      done := done + {k};
    }
    assert done == defaults.Keys;
    LayerPopped(params0, defaults, kw, params, rest);
  }

  /** Popping the defaults out of the keywords and then laying the remaining
      keywords over the result is the same as laying all three dictionaries
      over each other. */
  lemma LayerPopped(params0: map<string, Value>, defaults: map<string, Value>, kw: map<string, Value>,
                    params: map<string, Value>, rest: map<string, Value>)
    requires params.Keys == params0.Keys + defaults.Keys
    requires forall k :: k in params && k !in defaults ==> params[k] == params0[k]
    requires forall k :: k in defaults ==> params[k] == (if k in kw then kw[k] else defaults[k])
    requires rest.Keys == kw.Keys - defaults.Keys
    requires forall k :: k in rest ==> rest[k] == kw[k]
    ensures params + rest == params0 + defaults + kw
  {
    var l, r := params + rest, params0 + defaults + kw;
    assert l.Keys == r.Keys;
    forall k | k in l ensures l[k] == r[k] { }
  }

  // ---------------------------------------------------------------------
  // Engine and context: the specification (pure state machine)
  // ---------------------------------------------------------------------

  /** A call the engine makes on the driver connection. */
  datatype DriverCall = Execute(sql: string, args: seq<Value>) | Commit | Rollback | Close

  /** The observable state of the engine: whether it still holds its
      connection, and the driver calls made so far. */
  datatype EngineState = EngineState(connected: bool, calls: seq<DriverCall>)

  datatype EngineStep = EngineStep(next: EngineState, err: Option<Failure>)

  const NotConnected: Failure := DBError("don't connect to database")

  /** `_Engine.commit`: a failed commit is followed by a rollback and the
      driver's error is raised again. */
  function EngineCommit(e: EngineState, fails: bool): EngineStep
  {
    if !e.connected then EngineStep(e, Some(NotConnected))
    else if fails then EngineStep(e.(calls := e.calls + [Commit, Rollback]), Some(DriverError("commit failed")))
    else EngineStep(e.(calls := e.calls + [Commit]), None)
  }

  /** `_Engine.rollback`. */
  function EngineRollback(e: EngineState): EngineStep
  {
    if !e.connected then EngineStep(e, Some(NotConnected))
    else EngineStep(e.(calls := e.calls + [Rollback]), None)
  }

  /** `_Engine.cleanup`: close the connection if there is one. */
  function EngineCleanup(e: EngineState): EngineState
  {
    if e.connected then EngineState(false, e.calls + [Close]) else e
  }

  /** `_Engine.execute`: the statement reaches the driver rewritten. */
  function EngineExecute(e: EngineState, sql: string, args: seq<Value>): EngineStep
  {
    if !e.connected then EngineStep(e, Some(AttributeError("'NoneType' object has no attribute 'cursor'")))
    else EngineStep(e.(calls := e.calls + [Execute(ToFormatStyle(sql), args)]), None)
  }

  /** `_Engine.cursor`: refused with DBError when the engine holds no
      connection. Opening a cursor makes no call the model records. */
  function EngineCursor(e: EngineState): (err: Option<Failure>)
    ensures err.None? <==> e.connected
    ensures err.Some? ==> err.value.DBError?
  {
    if e.connected then None else Some(NotConnected)
  }

  /** `cursor` and `execute` need the same connection, but without one
      `execute` does not go through the guard of `cursor`: it fails on
      `None.cursor()` with AttributeError instead of DBError. */
  lemma {:induction false} CursorGuard(e: EngineState, sql: string, args: seq<Value>)
    ensures EngineCursor(e).None? <==> EngineExecute(e, sql, args).err.None?
    ensures EngineCursor(e).Some? ==>
      EngineExecute(e, sql, args).err.Some? && EngineExecute(e, sql, args).err.value.AttributeError? &&
      EngineExecute(e, sql, args).next == e
    ensures EngineCursor(e).None? ==> EngineExecute(e, sql, args).next.connected
  {
  }

  /** The per-thread context `_db_ctx` together with the process-wide engine:
      whether the module's `engine` is set and its state, whether the
      context holds it (`_engine` is not None), `should_cleanup`, and
      `transactions`. */
  datatype Session = Session(hasEngine: bool, engine: EngineState, bound: bool,
                             shouldCleanup: bool, transactions: int)

  datatype SessionStep = SessionStep(next: Session, err: Option<Failure>)

  /** `_DbCtx.init`: take the module's engine (None if none was created). */
  function SessionInit(s: Session): Session
  {
    s.(bound := s.hasEngine, shouldCleanup := true, transactions := 0)
  }

  /** `_DbCtx.cleanup`: nothing unless `should_cleanup`; otherwise drop the
      engine and close its connection. With no engine the call on None
      fails after `_engine` was cleared and before the flag is reset. */
  function SessionCleanup(s: Session): SessionStep
  {
    if !s.shouldCleanup then SessionStep(s, None)
    else if !s.bound then SessionStep(s, Some(AttributeError("'NoneType' object has no attribute 'cleanup'")))
    else SessionStep(s.(bound := false, shouldCleanup := false, engine := EngineCleanup(s.engine)), None)
  }

  /** `_ConnectCtx.__enter__`. */
  function ConnEnter(s: Session): Session
  {
    if s.bound then s else SessionInit(s)
  }

  /** `_ConnectCtx.__exit__`: always attempts cleanup. */
  function ConnExit(s: Session): SessionStep
  {
    SessionCleanup(s)
  }

  /** `_TransactionCtx.__enter__`. */
  function TxEnter(s: Session): Session
  {
    var t := ConnEnter(s);
    t.(transactions := t.transactions + 1)
  }

  /** `_TransactionCtx.__exit__`: decrement; at depth 0 commit (no exception
      in the block) or roll back; in `finally`, clean up if the single
      `should_cleanup` flag is set. An error raised by the cleanup replaces
      one raised by the commit, as a `finally` does. */
  function TxExit(s: Session, raised: bool, commitFails: bool): SessionStep
  {
    var t := s.(transactions := s.transactions - 1);
    var settled :=
      if t.transactions != 0 then SessionStep(t, None)
      else if !t.bound then
        SessionStep(t, Some(AttributeError(if raised then "'NoneType' object has no attribute 'rollback'"
                                           else "'NoneType' object has no attribute 'commit'")))
      else
        var e := if raised then EngineRollback(t.engine) else EngineCommit(t.engine, commitFails);
        SessionStep(t.(engine := e.next), e.err);
    if settled.next.shouldCleanup then
      var c := SessionCleanup(settled.next);
      SessionStep(c.next, if c.err.Some? then c.err else settled.err)
    else settled
  }

  /** Entering and exiting a transaction moves the depth by exactly one. */
  lemma TxDepthSteps(s: Session, raised: bool, commitFails: bool)
    ensures TxEnter(s).transactions == (if s.bound then s.transactions else 0) + 1
    ensures TxExit(s, raised, commitFails).next.transactions == s.transactions - 1
  {
  }

  /** The driver sees a commit or a rollback only from the exit that brings
      the depth back to 0; any other exit at most closes the connection. */
  lemma OnlyOutermostSettles(s: Session, raised: bool, commitFails: bool)
    requires s.transactions != 1
    ensures var r := TxExit(s, raised, commitFails);
            r.next.engine.calls == s.engine.calls
            || (s.shouldCleanup && s.bound && s.engine.connected
                && r.next.engine.calls == s.engine.calls + [Close])
  {
  }

  /** `n` nested `with transaction():` entries. */
  function EnterN(s: Session, n: nat): Session
    decreases n
  {
    if n == 0 then s else EnterN(TxEnter(s), n - 1)
  }

  /** Leaving `n` nested blocks from the innermost outwards. An error raised
      by an exit propagates as an exception into the enclosing block; the
      step reports the last error raised. */
  function Unwind(s: Session, n: nat, raised: bool, commitFails: bool): SessionStep
    decreases n
  {
    if n == 0 then SessionStep(s, None)
    else
      var x := TxExit(s, raised, commitFails);
      var rest := Unwind(x.next, n - 1, raised || x.err.Some?, commitFails);
      SessionStep(rest.next, if rest.err.Some? then rest.err else x.err)
  }

  lemma {:induction false} EnterNState(s: Session, n: nat)
    requires n > 0
    ensures var t := EnterN(s, n);
            && t.hasEngine == s.hasEngine && t.engine == s.engine
            && t.bound == (s.bound || s.hasEngine)
            && t.shouldCleanup == (s.shouldCleanup || !s.bound)
            && t.transactions == (if s.bound then s.transactions + n else if s.hasEngine then n else 1)
    decreases n
  {
    if n > 1 {
      EnterNState(TxEnter(s), n - 1);
    }
  }

  /** Exits after the context lost its engine: nothing reaches the driver,
      and the exit that reaches depth 0 fails on the missing engine. */
  lemma {:induction false} UnwindWithoutEngine(s: Session, k: nat, raised: bool, commitFails: bool)
    requires !s.bound && !s.shouldCleanup && s.transactions == k && k > 0
    ensures Unwind(s, k, raised, commitFails)
            == SessionStep(s.(transactions := 0),
                           Some(AttributeError(if raised then "'NoneType' object has no attribute 'rollback'"
                                               else "'NoneType' object has no attribute 'commit'")))
    decreases k
  {
    if k > 1 {
      UnwindWithoutEngine(s.(transactions := k - 1), k - 1, raised, commitFails);
    }
  }

  /** A context that is not yet initialised, with an engine whose connection
      is open. */
  ghost predicate Fresh(s: Session)
  {
    s.hasEngine && s.engine.connected && !s.bound && !s.shouldCleanup && s.transactions == 0
  }

  /** One transaction on a fresh context: commit (or roll back when the
      block raised), then close the connection. */
  lemma SingleTransaction(s: Session, raised: bool)
    requires Fresh(s)
    ensures var r := Unwind(EnterN(s, 1), 1, raised, false);
            && r.err == None
            && r.next.engine.calls == s.engine.calls + [if raised then Rollback else Commit, Close]
            && !r.next.bound && !r.next.shouldCleanup && r.next.transactions == 0
  {
  }

  /** A commit that fails: the rollback is attempted, the cleanup in
      `finally` still closes the connection, and the error surfaces. */
  lemma FailedCommit(s: Session)
    requires Fresh(s)
    ensures var r := Unwind(EnterN(s, 1), 1, false, true);
            && r.err == Some(DriverError("commit failed"))
            && r.next.engine.calls == s.engine.calls + [Commit, Rollback, Close]
  {
  }

  /** Nested transactions as the code behaves: there is one
      `should_cleanup` flag, so the innermost exit already cleans up and
      closes the connection; the outermost exit then finds no engine and
      raises, and nothing is ever committed or rolled back. */
  lemma NestedTransactions(s: Session, n: nat, raised: bool, commitFails: bool)
    requires Fresh(s) && n >= 2
    ensures var r := Unwind(EnterN(s, n), n, raised, commitFails);
            && r.next.engine.calls == s.engine.calls + [Close]
            && r.err == Some(AttributeError(if raised then "'NoneType' object has no attribute 'rollback'"
                                            else "'NoneType' object has no attribute 'commit'"))
            && !r.next.bound && r.next.transactions == 0
  {
    var t := EnterN(s, n);
    EnterNState(s, n);
    var x := TxExit(t, raised, commitFails);
    assert x.err == None;
    assert x.next == t.(transactions := n - 1, bound := false, shouldCleanup := false,
                        engine := EngineCleanup(s.engine));
    UnwindWithoutEngine(x.next, n - 1, raised, commitFails);
  }

  /** A transaction inside `with connection():`: the transaction's exit
      commits and closes; the connection's exit then has nothing to do. */
  lemma TransactionInsideConnection(s: Session)
    requires Fresh(s)
    ensures var c := ConnEnter(s);
            var t := Unwind(EnterN(c, 1), 1, false, false);
            var e := ConnExit(t.next);
            && t.err == None && e.err == None
            && e.next.engine.calls == s.engine.calls + [Commit, Close]
  {
  }

  // ---------------------------------------------------------------------
  // Engine and context: the objects
  // ---------------------------------------------------------------------

  /** `_Engine`: holds the driver parameters and the connection. */
  class Engine {
    const params: map<string, Value>
    var connected: bool
    var calls: seq<DriverCall>

    constructor (params: map<string, Value>)
      ensures this.params == params && connected && calls == []
    {
      this.params := params;
      connected := true;
      calls := [];
    }

    function State(): EngineState
      reads this
    {
      EngineState(connected, calls)
    }

    method Commit(fails: bool) returns (err: Option<Failure>)
      modifies this
      ensures EngineStep(State(), err) == EngineCommit(old(State()), fails)
    {
      if !connected {
        return Some(NotConnected);
      }
      calls := calls + [DriverCall.Commit];
      if fails {
        calls := calls + [DriverCall.Rollback];
        return Some(DriverError("commit failed"));
      }
      return None;
    }

    method Rollback() returns (err: Option<Failure>)
      modifies this
      ensures EngineStep(State(), err) == EngineRollback(old(State()))
    {
      // db.py:216 names an undefined `DbError`; DBError is evidently meant.
      if !connected {
        return Some(NotConnected);
      }
      calls := calls + [DriverCall.Rollback];
      return None;
    }

    method Cleanup()
      modifies this
      ensures State() == EngineCleanup(old(State()))
    {
      // db.py:185 reads an attribute `_connection` that is never set; the
      // evident intent is to close and forget the connection itself.
      if connected {
        connected := false;
        calls := calls + [Close];
      }
    }

    method Cursor() returns (err: Option<Failure>)
      ensures err == EngineCursor(State())
    {
      if !connected {
        return Some(NotConnected);
      }
      return None;
    }

    method Execute(sql: string, args: seq<Value>) returns (err: Option<Failure>)
      modifies this
      ensures EngineStep(State(), err) == EngineExecute(old(State()), sql, args)
    {
      if !connected {
        return Some(AttributeError("'NoneType' object has no attribute 'cursor'"));
      }
      calls := calls + [DriverCall.Execute(ToFormatStyle(sql), args)];
      return None;
    }
  }

  /** The module-level `engine`, set once by `create_engine`. */
  class EngineSlot {
    var engine: Engine?

    constructor ()
      ensures engine == null
    {
      engine := null;
    }

    method CreateEngine(user: Value, password: Value, database: Value,
                        host: Option<Value>, port: Option<Value>, kw: map<string, Value>)
      returns (err: Option<Failure>)
      modifies this
      ensures old(engine) != null ==> err == Some(DBError("Engine is already initialized.")) && engine == old(engine)
      ensures old(engine) == null ==> err == None && engine != null && fresh(engine)
      ensures old(engine) == null ==> engine.connected && engine.calls == []
      ensures old(engine) == null ==>
                engine.params == Merged(user, password, database,
                                        host.GetOr(DefaultHost), port.GetOr(DefaultPort), kw)
    {
      // db.py:26 raises an undefined `DbError`; DBError is evidently meant.
      if engine != null {
        return Some(DBError("Engine is already initialized."));
      }
      var params := MergeParams(user, password, database, host.GetOr(DefaultHost), port.GetOr(DefaultPort), kw);
      engine := new Engine(params);
      return None;
    }
  }

  /** `_DbCtx`, the per-thread context, passed explicitly. */
  class DbCtx {
    var engine: Engine?
    var shouldCleanup: bool
    var transactions: int

    constructor ()
      ensures engine == null && !shouldCleanup && transactions == 0
    {
      engine := null;
      shouldCleanup := false;
      transactions := 0;
    }

    /** The context only ever holds the module's engine. */
    ghost predicate Valid(slot: EngineSlot)
      reads this, slot
    {
      engine == null || engine == slot.engine
    }

    ghost function Abstract(slot: EngineSlot): Session
      reads this, slot, slot.engine
    {
      Session(slot.engine != null,
              if slot.engine != null then slot.engine.State() else EngineState(false, []),
              engine != null, shouldCleanup, transactions)
    }

    predicate IsInit()
      reads this
    {
      engine != null
    }

    method Init(slot: EngineSlot)
      requires Valid(slot)
      modifies this
      ensures Valid(slot)
      ensures Abstract(slot) == SessionInit(old(Abstract(slot)))
    {
      engine := slot.engine;
      shouldCleanup := true;
      transactions := 0;
    }

    method Cleanup(slot: EngineSlot) returns (err: Option<Failure>)
      requires Valid(slot)
      modifies this, engine
      ensures Valid(slot)
      ensures SessionStep(Abstract(slot), err) == SessionCleanup(old(Abstract(slot)))
    {
      if !shouldCleanup {
        return None;
      }
      var e := engine;
      engine := null;
      if e == null {
        return Some(AttributeError("'NoneType' object has no attribute 'cleanup'"));
      }
      e.Cleanup();
      shouldCleanup := false;
      return None;
    }

    method EnterConnection(slot: EngineSlot)
      requires Valid(slot)
      modifies this
      ensures Valid(slot)
      ensures Abstract(slot) == ConnEnter(old(Abstract(slot)))
    {
      if !IsInit() {
        Init(slot);
      }
    }

    method ExitConnection(slot: EngineSlot) returns (err: Option<Failure>)
      requires Valid(slot)
      modifies this, engine
      ensures Valid(slot)
      ensures SessionStep(Abstract(slot), err) == ConnExit(old(Abstract(slot)))
    {
      err := Cleanup(slot);
    }

    method EnterTransaction(slot: EngineSlot)
      requires Valid(slot)
      modifies this
      ensures Valid(slot)
      ensures Abstract(slot) == TxEnter(old(Abstract(slot)))
    {
      if !IsInit() {
        Init(slot);
      }
      transactions := transactions + 1;
    }

    /** `raised`: the block under `with` raised; `commitFails`: the driver's
      commit raises. (db.py:280 declares `__exit__` without the exception
      parameters and reads an undefined `exctype`; the evident meaning is
      modelled.) */
    method ExitTransaction(slot: EngineSlot, raised: bool, commitFails: bool) returns (err: Option<Failure>)
      requires Valid(slot)
      modifies this, engine
      ensures Valid(slot)
      ensures SessionStep(Abstract(slot), err) == TxExit(old(Abstract(slot)), raised, commitFails)
    {
      transactions := transactions - 1;
      err := None;
      if transactions == 0 {
        if engine == null {
          err := Some(AttributeError(if raised then "'NoneType' object has no attribute 'rollback'"
                                     else "'NoneType' object has no attribute 'commit'"));
        } else if raised {
          err := engine.Rollback();
        } else {
          err := engine.Commit(commitFails);
        }
      }
      if shouldCleanup {
        var cleanupErr := Cleanup(slot);
        if cleanupErr.Some? {
          err := cleanupErr;
        }
      }
    }
  }
}

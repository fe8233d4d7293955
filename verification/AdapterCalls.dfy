/**
  A whole life of one driver connection: it is connected, and any list of calls is made on it, on its driver
  transactions and on its cursor, as `database/sql` does. What happens is a run of `AdapterProtocol`.
 */
module AdapterCalls {
  import opened Basics
  import opened Errors
  import opened Session
  import opened Native
  import opened AdapterProtocol
  import opened SqlAdapter
  import SafeCore
  import BindGraph
  import Cursor

  /** What a client asks for. A transaction is named by its place among those begun; the cursor is the open one. */
  datatype Request =
    | AskPrepare(query: string)
    | AskClose
    | AskBegin(supported: bool)
    | AskPing
    | AskReset
    | AskExec(query: string, arguments: seq<NamedValue>)
    | AskQuery(query: string, arguments: seq<NamedValue>)
    | AskNext(columns: nat, isFloat: seq<BindGraph.Byte> -> bool)
    | AskCloseRows
    | AskCommit(place: nat)
    | AskRollback(place: nat)

  /** The call a request makes. `begun` are the transactions so far; without an open cursor there is none to ask. */
  function CallOf(r: Request, begun: seq<nat>, cursor: bool): Option<Call> {
    match r
    case AskPrepare(_) => Some(Call.Prepare)
    case AskClose => Some(Call.Close)
    case AskBegin(_) => Some(Call.Begin)
    case AskPing => Some(Call.Ping)
    case AskReset => Some(Call.Reset)
    case AskExec(query, _) => Some(Call.Exec(query))
    case AskQuery(query, _) => Some(Call.Query(query))
    case AskNext(_, _) => if cursor then Some(Call.NextRow) else None
    case AskCloseRows => if cursor then Some(Call.CloseRows) else None
    case AskCommit(place) => if place < |begun| then Some(Call.Commit(begun[place])) else None
    case AskRollback(place) => if place < |begun| then Some(Call.Rollback(begun[place])) else None
  }

  /** The client's view of the connection. */
  class Client {
    const connection: Conn
    var txs: seq<Transaction>            // every driver.Tx begun, ended or not
    var rows: Rows?                      // the open cursor
    ghost var Repr: set<object>

    /** The objects behind the connection are the client's own. */
    ghost predicate Owns()
      reads this`Repr, connection.core`stmt, connection.core`rows, connection.core.stmt, connection.core.rows
    {
      && {connection, connection.core, connection.core.link, connection.core.link.sdk, connection.core.link.heap} <= Repr
      && (connection.core.stmt != null ==>
            connection.core.stmt in Repr && (connection.core.stmt.native != null ==> connection.core.stmt.native in Repr))
      && (connection.core.rows != null ==>
            connection.core.rows in Repr && (connection.core.rows.native != null ==> connection.core.rows.native in Repr))
      && this !in Repr
    }

    /** Every driver.Tx is as `Transaction.Valid` says, and they are numbered in the order they were begun. */
    ghost predicate TxsOk()
      reads this`txs, this`Repr, txs, set t | t in txs :: t.native, connection`activeTx, connection`ended, connection.core`tx
    {
      && (forall t :: t in txs ==>
            && t.connection == connection && t.Linked() && (t.done <==> t.native.id in connection.ended)
            && t in Repr && t.native in Repr)
      && (forall i, j :: 0 <= i < j < |txs| ==> txs[i].native.id < txs[j].native.id)
    }

    ghost predicate Numbered()
      reads this`txs, connection.core.link`session
    {
      forall t :: t in txs ==> t.native.id < connection.core.link.session.nextTx
    }

    /** The cursor is open, and is the one child of the connection, with the statement under it. */
    ghost predicate RowsOk()
      reads this`rows, this`Repr, rows, connection.core`stmt, connection.core`rows, connection.core.rows
    {
      && (rows == null <==> connection.core.rows == null)
      && (connection.core.stmt != null ==> connection.core.rows != null && connection.core.rows.closeStmt)
      && (rows != null ==>
            && rows in Repr && rows.connection == connection
            && rows.native == connection.core.rows && rows.native.types == rows.types)
    }

    ghost predicate Valid()
      reads *
    {
      && connection.Valid() && Owns() && TxsOk() && Numbered() && RowsOk()
      && (connection.activeTx != null ==> connection.activeTx in Repr)
    }

    /** The transactions begun so far, by number. */
    ghost function Begun(): seq<nat>
      reads this`txs
    {
      var all := txs;
      seq(|all|, i requires 0 <= i < |all| => all[i].native.id)
    }

    constructor (connection: Conn)
      requires connection.Valid() && connection.activeTx == null
      requires connection.core.stmt == null && connection.core.rows == null
      ensures Valid() && this.connection == connection && Begun() == [] && rows == null
      ensures Repr == {connection, connection.core, connection.core.link, connection.core.link.sdk, connection.core.link.heap}
    {
      this.connection, txs, rows := connection, [], null;
      Repr := {connection, connection.core, connection.core.link, connection.core.link.sdk, connection.core.link.heap};
    }

    // ---------------------------------------------------------------- calls that leave transactions and cursor alone

    method Prepare(ctx: Context, query: string) returns (out: Option<Failure>)
      requires Valid() && ctx.Valid()
      modifies ctx, Repr
      ensures Valid() && ctx.Valid() && Step(old(connection.View()), Call.Prepare, out, connection.View())
    {
      hide Client.TxsOk, SafeCore.Conn.Valid, Step, Conn.Base;
      var unused;
      unused, out := connection.Prepare(ctx, query);
      NumbersGrow(old(connection.View()), Call.Prepare, out, connection.View());
    }

    method Ping(ctx: Context) returns (out: Option<Failure>)
      requires Valid() && ctx.Valid()
      modifies ctx, Repr
      ensures Valid() && ctx.Valid() && Step(old(connection.View()), Call.Ping, out, connection.View())
    {
      hide Client.TxsOk, SafeCore.Conn.Valid, Step, Conn.Base;
      out := connection.Ping(ctx);
      NumbersGrow(old(connection.View()), Call.Ping, out, connection.View());
    }

    method Exec(ctx: Context, query: string, arguments: seq<NamedValue>) returns (out: Option<Failure>)
      requires Valid() && ctx.Valid()
      modifies ctx, Repr
      ensures Valid() && ctx.Valid() && Step(old(connection.View()), Call.Exec(query), out, connection.View())
    {
      hide Client.TxsOk, SafeCore.Conn.Valid, Step, Conn.Base;
      var unused;
      unused, out := connection.Exec(ctx, query, arguments);
      NumbersGrow(old(connection.View()), Call.Exec(query), out, connection.View());
    }

    // ---------------------------------------------------------------- transactions

    method Begin(ctx: Context, supported: bool) returns (out: Option<Failure>)
      requires Valid() && ctx.Valid()
      modifies ctx, this`txs, this`Repr, Repr
      ensures Valid() && ctx.Valid() && fresh(Repr - old(Repr)) && Step(old(connection.View()), Call.Begin, out, connection.View())
      ensures Begun() == if out == None then old(Begun()) + [old(connection.core.link.session.nextTx)] else old(Begun())
    {
      hide SafeCore.Conn.Valid, Step, Conn.Base;
      var begun;
      begun, out := connection.BeginTx(ctx, supported);
      NumbersGrow(old(connection.View()), Call.Begin, out, connection.View());
      if begun != null {
        Enlist(begun);
      }
    }

    /** The new driver.Tx joins the others. */
    method Enlist(begun: Transaction)
      requires connection.Valid() && Owns() && TxsOk() && Numbered() && RowsOk() && begun.connection == connection && begun.Valid() && !begun.done
      requires connection.activeTx == begun.native
      requires forall t :: t in txs ==> t.native.id < begun.native.id
      modifies this`txs, this`Repr
      ensures Valid() && Repr == old(Repr) + {begun, begun.native} && Begun() == old(Begun()) + [begun.native.id]
    {
      hide SafeCore.Conn.Valid;
      txs := txs + [begun];
      Repr := Repr + {begun, begun.native};
    }

    method Reset(ctx: Context) returns (out: Option<Failure>)
      requires Valid() && ctx.Valid()
      modifies ctx, Repr
      ensures Valid() && ctx.Valid() && Step(old(connection.View()), Call.Reset, out, connection.View())
    {
      hide SafeCore.Conn.Valid, Step, Conn.Base;
      ghost var cause;
      out, cause := connection.ResetSession(ctx);
      NumbersGrow(old(connection.View()), Call.Reset, out, connection.View());
    }

    method Close() returns (out: Option<Failure>)
      requires Valid()
      modifies Repr
      ensures Valid() && Step(old(connection.View()), Call.Close, out, connection.View())
    {
      hide SafeCore.Conn.Valid, Step, Conn.Base;
      out := connection.Close();
      NumbersGrow(old(connection.View()), Call.Close, out, connection.View());
    }

    lemma HasTx(tx: Transaction)
      requires Valid() && tx in txs
      ensures tx.Valid() && tx.connection == connection && tx in Repr && tx.native in Repr
    {
    }

    /** One driver.Tx has ended; the others are as they were. */
    twostate lemma OneEnded(tx: Transaction)
      requires old(TxsOk()) && unchanged(`txs) && unchanged(`Repr) && tx in txs
      requires tx.Linked() && tx.done && connection.ended == old(connection.ended) + {tx.native.id}
      requires connection.core.tx == old(connection.core.tx) || old(connection.core.tx) == tx.native
      requires connection.activeTx == old(connection.activeTx) || connection.activeTx == null
      requires forall u :: u in txs && u != tx ==> unchanged(u)
      requires forall u :: u in txs && u.native != tx.native ==> unchanged(u.native)
      ensures TxsOk()
    {
    }

    method Commit(place: nat) returns (out: Option<Failure>)
      requires Valid() && place < |txs|
      modifies Repr
      ensures Valid() && Step(old(connection.View()), Call.Commit(txs[place].native.id), out, connection.View())
    {
      hide Client.TxsOk, SafeCore.Conn.Valid, Step, Conn.Base;
      var tx := txs[place];
      HasTx(tx);
      out := tx.Commit();
      OneEnded(tx);
      NumbersGrow(old(connection.View()), Call.Commit(tx.native.id), out, connection.View());
    }

    method Rollback(place: nat) returns (out: Option<Failure>)
      requires Valid() && place < |txs|
      modifies Repr
      ensures Valid() && Step(old(connection.View()), Call.Rollback(txs[place].native.id), out, connection.View())
    {
      hide Client.TxsOk, SafeCore.Conn.Valid, Step, Conn.Base;
      var tx := txs[place];
      HasTx(tx);
      out := tx.Rollback();
      OneEnded(tx);
      NumbersGrow(old(connection.View()), Call.Rollback(tx.native.id), out, connection.View());
    }

    // ---------------------------------------------------------------- the cursor

    method Query(ctx: Context, query: string, arguments: seq<NamedValue>) returns (out: Option<Failure>)
      requires Valid() && ctx.Valid()
      modifies ctx, this`rows, this`Repr, Repr
      ensures Valid() && ctx.Valid() && fresh(Repr - old(Repr)) && Step(old(connection.View()), Call.Query(query), out, connection.View())
    {
      hide Client.TxsOk, SafeCore.Conn.Valid, Step, Conn.Reached, Conn.Usable, Convertible, Served;
      var cursor;
      cursor, out := connection.Query(ctx, query, arguments);
      NumbersGrow(old(connection.View()), Call.Query(query), out, connection.View());
      if cursor != null {
        Open(cursor);
      }
    }

    /** The new cursor and what is under it become the client's. */
    method Open(cursor: Rows)
      requires connection.Valid() && TxsOk() && Numbered() && (connection.activeTx != null ==> connection.activeTx in Repr)
      requires {connection, connection.core, connection.core.link, connection.core.link.sdk, connection.core.link.heap} <= Repr
      requires this !in Repr
      requires cursor.connection == connection && cursor.Valid() && cursor.native != null
      requires connection.core.rows != null && connection.core.rows.native != null
      requires connection.core.stmt != null ==> connection.core.stmt.native != null
      modifies this`rows, this`Repr
      ensures Valid()
      ensures var core := connection.core;
              Repr == old(Repr) + {cursor, core.rows, core.rows.native}
                      + if core.stmt == null then {} else {core.stmt, core.stmt.native}
    {
      hide SafeCore.Conn.Valid;
      var core := connection.core;
      rows := cursor;
      Repr := Repr + {cursor, core.rows, core.rows.native};
      if core.stmt != null { Repr := Repr + {core.stmt, core.stmt.native}; }
    }

    method Next(columns: nat, isFloat: seq<BindGraph.Byte> -> bool) returns (out: Option<Failure>)
      requires Valid() && rows != null
      modifies Repr
      ensures Valid() && Step(old(connection.View()), NextRow, out, connection.View())
    {
      hide SafeCore.Conn.Valid, Step, Rows.Valid;
      var destination := new Cursor.Converted[columns](_ => Cursor.NilValue);
      out := NextInto(destination, isFloat);
    }

    method NextInto(destination: array<Cursor.Converted>, isFloat: seq<BindGraph.Byte> -> bool)
      returns (out: Option<Failure>)
      requires Valid() && rows != null && destination !in Repr
      modifies destination, Repr
      ensures Valid() && Step(old(connection.View()), NextRow, out, connection.View())
    {
      hide Client.TxsOk, SafeCore.Conn.Valid, Step, Cursor.Deliver;
      var eof;
      eof, out := rows.Next(destination, isFloat);
      NumbersGrow(old(connection.View()), NextRow, out, connection.View());
    }

    method CloseRows() returns (out: Option<Failure>)
      requires Valid() && rows != null
      modifies this`rows, Repr
      ensures Valid() && rows == null && Step(old(connection.View()), Call.CloseRows, out, connection.View())
    {
      hide Client.TxsOk, SafeCore.Conn.Valid, Step;
      out := Shut();
      NumbersGrow(old(connection.View()), Call.CloseRows, out, connection.View());
      rows := null;
    }

    /** What a close of the open cursor touches is the client's. */
    lemma OwnsCursor()
      requires Valid() && rows != null
      ensures rows.Valid() && rows.native != null && rows.native.native != null
      ensures {rows, rows.native, rows.native.native, connection, connection.core, connection.core.link} <= Repr
      ensures rows.native.parentStmt != null ==>
                rows.native.parentStmt in Repr
                && (rows.native.parentStmt.native != null ==> rows.native.parentStmt.native in Repr)
    {
    }

    /** `Close` of the open cursor, which leaves the connection without children. */
    method Shut() returns (out: Option<Failure>)
      requires Valid() && rows != null
      modifies Repr
      ensures connection.Valid() && TxsOk() && connection.core.rows == null && connection.core.stmt == null
      ensures connection.activeTx == old(connection.activeTx)
      ensures Step(old(connection.View()), Call.CloseRows, out, connection.View())
    {
      OwnsCursor();
      assert TxsOk() && rows.connection == connection;
      hide Client.Valid, Client.TxsOk, SafeCore.Conn.Valid, Conn.Base, Rows.Valid, Step;
      out := rows.Close();
    }

    // ---------------------------------------------------------------- any call

    /** There is an open cursor exactly when the core connection has children. */
    lemma CursorIsChild()
      requires Valid()
      ensures rows != null <==> connection.View().core.children > 0
    {
    }

    /** Makes the call a request asks for, if there is something to make it on. */
    method Ask(ctx: Context, r: Request) returns (made: bool, out: Option<Failure>)
      requires Valid() && ctx.Valid() && ctx !in Repr
      modifies ctx, this`txs, this`rows, this`Repr, Repr
      ensures Valid() && ctx.Valid() && fresh(Repr - old(Repr))
      ensures var call := CallOf(r, old(Begun()), old(rows) != null);
              if made then call.Some? && Step(old(connection.View()), call.value, out, connection.View())
              else call.None? && connection.View() == old(connection.View())
      ensures Begun() == if r.AskBegin? && out == None then old(Begun()) + [old(connection.core.link.session.nextTx)]
                         else old(Begun())
    {
      assert this !in Repr;
      hide Client.Valid, Step;
      made := true;
      match r
      case AskNext(_, _) => made, out := AskRows(r);
      case AskCloseRows => made, out := AskRows(r);
      case AskCommit(_) => made, out := AskTx(r);
      case AskRollback(_) => made, out := AskTx(r);
      case AskPrepare(query) => out := Prepare(ctx, query);
      case AskClose => out := Close();
      case AskBegin(supported) => out := Begin(ctx, supported);
      case AskPing => out := Ping(ctx);
      case AskReset => out := Reset(ctx);
      case AskExec(query, arguments) => out := Exec(ctx, query, arguments);
      case AskQuery(query, arguments) => out := Query(ctx, query, arguments);
    }

    method AskRows(r: Request) returns (made: bool, out: Option<Failure>)
      requires Valid() && (r.AskNext? || r.AskCloseRows?)
      modifies this`rows, Repr
      ensures Valid()
      ensures var call := CallOf(r, Begun(), old(rows) != null);
              if made then call.Some? && Step(old(connection.View()), call.value, out, connection.View())
              else call.None? && connection.View() == old(connection.View())
    {
      hide Step;
      if rows == null { return false, None; }
      made := true;
      if r.AskNext? {
        out := Next(r.columns, r.isFloat);
      } else {
        out := CloseRows();
      }
    }

    method AskTx(r: Request) returns (made: bool, out: Option<Failure>)
      requires Valid() && (r.AskCommit? || r.AskRollback?)
      modifies Repr
      ensures Valid()
      ensures var call := CallOf(r, Begun(), rows != null);
              if made then call.Some? && Step(old(connection.View()), call.value, out, connection.View())
              else call.None? && connection.View() == old(connection.View())
    {
      hide Step;
      if r.place >= |txs| { return false, None; }
      made := true;
      if r.AskCommit? {
        out := Commit(r.place);
      } else {
        out := Rollback(r.place);
      }
    }
  }

  // ---------------------------------------------------------------- a whole life

  /** The transactions begun in a run, by number, in order. */
  ghost function BegunIn(states: seq<Adapter>, turns: seq<Turn>): seq<nat>
    requires |states| == |turns| + 1
    decreases |turns|
  {
    if turns == [] then []
    else
      var n := |turns| - 1;
      BegunIn(states[..n + 1], turns[..n])
      + if turns[n].call.Begin? && turns[n].out == None then [states[n].core.session.nextTx] else []
  }

  /** The turns answer the requests in order; left out are those that name a transaction or cursor there is not. */
  ghost predicate Answers(requests: seq<Request>, states: seq<Adapter>, turns: seq<Turn>)
    requires |states| == |turns| + 1
    decreases |requests|
  {
    if requests == [] then turns == []
    else
      var rest, r, n := requests[..|requests| - 1], requests[|requests| - 1], |turns|;
      || (Answers(rest, states, turns) && CallOf(r, BegunIn(states, turns), states[n].core.children > 0) == None)
      || (&& n > 0 && Answers(rest, states[..n], turns[..n - 1])
          && CallOf(r, BegunIn(states[..n], turns[..n - 1]), states[n - 1].core.children > 0) == Some(turns[n - 1].call))
  }

  lemma RunGrows(states: seq<Adapter>, turns: seq<Turn>, a': Adapter, turn: Turn)
    requires IsRun(states, turns) && Step(states[|turns|], turn.call, turn.out, a')
    ensures IsRun(states + [a'], turns + [turn])
  {
    hide Step, Connected;
    var states', turns' := states + [a'], turns + [turn];
    forall i | 0 <= i < |turns'| ensures Step(states'[i], turns'[i].call, turns'[i].out, states'[i + 1]) {
      if i < |turns| {
        assert states'[i] == states[i] && states'[i + 1] == states[i + 1] && turns'[i] == turns[i];
      }
    }
  }

  lemma BegunGrows(states: seq<Adapter>, turns: seq<Turn>, a': Adapter, turn: Turn)
    requires |states| == |turns| + 1
    ensures BegunIn(states + [a'], turns + [turn])
            == BegunIn(states, turns)
               + if turn.call.Begin? && turn.out == None then [states[|turns|].core.session.nextTx] else []
  {
    assert (states + [a'])[..|states|] == states && (turns + [turn])[..|turns|] == turns;
  }

  lemma AnswersGrow(requests: seq<Request>, r: Request, states: seq<Adapter>, turns: seq<Turn>, a': Adapter, turn: Turn)
    requires |states| == |turns| + 1 && Answers(requests, states, turns)
    requires CallOf(r, BegunIn(states, turns), states[|turns|].core.children > 0) == Some(turn.call)
    ensures Answers(requests + [r], states + [a'], turns + [turn])
  {
    hide CallOf, BegunIn;
    var states', turns', n := states + [a'], turns + [turn], |turns| + 1;
    assert states'[..n] == states && turns'[..n - 1] == turns && states'[n - 1] == states[n - 1] && turns'[n - 1] == turn;
    assert (requests + [r])[..|requests|] == requests;
  }

  lemma MadeTurn(requests: seq<Request>, r: Request, states: seq<Adapter>, turns: seq<Turn>, a': Adapter, turn: Turn)
    requires IsRun(states, turns) && Answers(requests, states, turns)
    requires CallOf(r, BegunIn(states, turns), states[|turns|].core.children > 0) == Some(turn.call)
    requires Step(states[|turns|], turn.call, turn.out, a')
    ensures IsRun(states + [a'], turns + [turn]) && Answers(requests + [r], states + [a'], turns + [turn])
    ensures BegunIn(states + [a'], turns + [turn])
            == BegunIn(states, turns)
               + if turn.call.Begin? && turn.out == None then [states[|turns|].core.session.nextTx] else []
  {
    RunGrows(states, turns, a', turn);
    BegunGrows(states, turns, a', turn);
    AnswersGrow(requests, r, states, turns, a', turn);
    hide IsRun, Answers, BegunIn, CallOf, Step;
  }

  lemma LeftOut(requests: seq<Request>, r: Request, states: seq<Adapter>, turns: seq<Turn>)
    requires |states| == |turns| + 1 && Answers(requests, states, turns)
    requires CallOf(r, BegunIn(states, turns), states[|turns|].core.children > 0) == None
    ensures Answers(requests + [r], states, turns)
  {
    assert (requests + [r])[..|requests|] == requests;
  }

  /** What is known after some requests: the run they made, where it stands, and what the caller was told. */
  ghost predicate Recorded(requests: seq<Request>, states: seq<Adapter>, turns: seq<Turn>, outs: seq<Option<Failure>>,
                           begun: seq<nat>, a: Adapter)
  {
    && IsRun(states, turns) && states[|turns|] == a
    && Answers(requests, states, turns) && BegunIn(states, turns) == begun
    && |outs| == |turns| && forall i :: 0 <= i < |outs| ==> outs[i] == turns[i].out
  }

  lemma Record(requests: seq<Request>, r: Request, states: seq<Adapter>, turns: seq<Turn>, outs: seq<Option<Failure>>,
               begun: seq<nat>, a: Adapter, made: bool, out: Option<Failure>, a': Adapter)
    returns (states': seq<Adapter>, turns': seq<Turn>)
    requires Recorded(requests, states, turns, outs, begun, a)
    requires var call := CallOf(r, begun, a.core.children > 0);
             if made then call.Some? && Step(a, call.value, out, a') else call.None? && a' == a
    ensures Recorded(requests + [r], states', turns', if made then outs + [out] else outs,
                     if r.AskBegin? && out == None then begun + [a.core.session.nextTx] else begun, a')
    ensures states' != [] && states'[0] == states[0]
  {
    hide Step, Answers, BegunIn;
    if made {
      var turn := Turn(CallOf(r, begun, a.core.children > 0).value, out);
      MadeTurn(requests, r, states, turns, a', turn);
      states', turns' := states + [a'], turns + [turn];
    } else {
      LeftOut(requests, r, states, turns);
      states', turns' := states, turns;
    }
  }

  /** One request after another, from a connection just made. */
  method Serve(client: Client, contexts: seq<Context>, requests: seq<Request>)
    returns (outs: seq<Option<Failure>>, ghost states: seq<Adapter>, ghost turns: seq<Turn>)
    requires client.Valid() && Connected(client.connection.View()) && client.Begun() == []
    requires |contexts| == |requests| && forall c :: c in contexts ==> c.Valid() && c !in client.Repr
    modifies client`txs, client`rows, client`Repr, client.Repr, contexts
    ensures Recorded(requests, states, turns, outs, client.Begun(), client.connection.View())
    ensures states != [] && states[0] == old(client.connection.View())
  {
    outs, states, turns := [], [client.connection.View()], [];
    assert requests[..0] == [];
    assert client !in client.Repr;
    ghost var first := states[0];
    assert Recorded(requests[..0], states, turns, outs, client.Begun(), client.connection.View());
    hide Client.Valid, Step, Recorded, CallOf, Connected, Client.Begun;
    for index := 0 to |requests|
      invariant client.Valid() && fresh(client.Repr - old(client.Repr))
      invariant forall c :: c in contexts ==> c.Valid()
      invariant states != [] && states[0] == first
      invariant Recorded(requests[..index], states, turns, outs, client.Begun(), client.connection.View())
    {
      outs, states, turns := ServeOne(client, contexts[index], requests[..index], requests[index], outs, states, turns);
      assert requests[..index + 1] == requests[..index] + [requests[index]];
    }
    assert requests[..|requests|] == requests;
  }

  method ServeOne(client: Client, ctx: Context, ghost served: seq<Request>, r: Request, outs: seq<Option<Failure>>,
                  ghost states: seq<Adapter>, ghost turns: seq<Turn>)
    returns (outs': seq<Option<Failure>>, ghost states': seq<Adapter>, ghost turns': seq<Turn>)
    requires client.Valid() && ctx.Valid() && ctx !in client.Repr && states != []
    requires Recorded(served, states, turns, outs, client.Begun(), client.connection.View())
    modifies ctx, client`txs, client`rows, client`Repr, client.Repr
    ensures client.Valid() && ctx.Valid() && fresh(client.Repr - old(client.Repr))
    ensures Recorded(served + [r], states', turns', outs', client.Begun(), client.connection.View())
    ensures states' != [] && states'[0] == states[0]
  {
    hide Client.Valid, Step, Recorded, CallOf;
    client.CursorIsChild();
    ghost var a, begun := client.connection.View(), client.Begun();
    var made, out := client.Ask(ctx, r);
    states', turns' := Record(served, r, states, turns, outs, begun, a, made, out, client.connection.View());
    outs' := if made then outs + [out] else outs;
  }

  /**
    Connects, and makes any list of calls under any contexts, on the connection, on every driver.Tx it ever gave and on
    its open cursor, closed and broken connections included. If the connection is made, what follows is a run.
   */
  method Live(heap: BindGraph.Heap, database: string, first: Context, contexts: seq<Context>, requests: seq<Request>)
    returns (connected: bool, outs: seq<Option<Failure>>, ghost states: seq<Adapter>, ghost turns: seq<Turn>)
    requires first.Valid() && |contexts| == |requests| && forall c :: c in contexts ==> c.Valid()
    modifies heap, first, contexts
    ensures connected ==>
              && IsRun(states, turns) && states[0].database == database
              && Answers(requests, states, turns)
              && |outs| == |turns| && forall i :: 0 <= i < |outs| ==> outs[i] == turns[i].out
  {
    connected, outs, states, turns := false, [], [], [];
    var connection, err := Connect(first, heap, database);
    if err.Some? { return; }
    connected := true;
    var client := new Client(connection);
    outs, states, turns := Serve(client, contexts, requests);
  }

  lemma NumbersGrow(a: Adapter, call: Call, out: Option<Failure>, a': Adapter)
    requires Step(a, call, out, a')
    ensures a.core.session.nextTx <= a'.core.session.nextTx
  {
    match call
    case Close =>
    case Reset =>
    case Exec(_) =>
    case Commit(_) =>
    case _ =>
  }
}

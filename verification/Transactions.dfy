/** The transaction protocol: write methods that may run inside each other, over one driver.

    A compiler has one transaction slot.  A write method starts a transaction when the slot is
    empty and otherwise works with a transaction that does nothing; either way it defers a
    rollback.  Any step may fail, and model code run by a write method may itself use
    querysets, panic, or run further transactions. */
module Transactions {
  import opened Outcomes

  // ----- the driver -----

  /** What the driver was asked to do.  A commit that fails ends its transaction too. */
  datatype Event = Begun(id: nat) | Committed(id: nat) | CommitFailed(id: nat) | RolledBack(id: nat)

  predicate Ends(e: Event, id: nat) {
    e == Committed(id) || e == CommitFailed(id) || e == RolledBack(id)
  }

  /** A possible history, leaving `open` open: transactions are begun with fresh numbers, and
      only open ones are ended. */
  ghost predicate History(events: seq<Event>, open: set<nat>, next: nat) {
    if events == [] then open == {}
    else
      var e, before := events[|events| - 1], events[..|events| - 1];
      if e.Begun? then e.id < next && e.id in open && History(before, open - {e.id}, e.id)
      else e.id < next && e.id !in open && History(before, open + {e.id}, next)
  }

  class Driver {
    ghost var events: seq<Event>
    var open: set<nat>
    var next: nat

    constructor ()
      ensures Valid() && events == [] && open == {}
    {
      events, open, next := [], {}, 0;
    }

    ghost predicate Valid()
      reads this
    {
      History(events, open, next)
    }

    /** Begin a transaction, unless the driver fails to. */
    method Begin() returns (r: Option<nat>)
      requires Valid()
      modifies this
      ensures Valid()
      ensures r.None? ==> events == old(events) && open == old(open)
      ensures r.Some? ==> r.value !in old(open) && open == old(open) + {r.value} && events == old(events) + [Begun(r.value)]
    {
      if * {
        return None;
      }
      HistoryBelow(events, open, next);
      assert (events + [Begun(next)])[..|events|] == events;
      assert open + {next} - {next} == open;
      events, open, next := events + [Begun(next)], open + {next}, next + 1;
      return Some(next - 1);
    }

    /** End a transaction; ending one that has ended does nothing. */
    method End(id: nat, commit: bool) returns (ok: bool)
      requires Valid()
      modifies this
      ensures Valid()
      ensures id !in old(open) ==> ok && events == old(events) && open == old(open)
      ensures id in old(open) ==> open == old(open) - {id}
      ensures id in old(open) ==>
                events == old(events) + [if !commit then RolledBack(id) else if ok then Committed(id) else CommitFailed(id)]
    {
      if id !in open {
        return true;
      }
      ok := *;
      ghost var e := if !commit then RolledBack(id) else if ok then Committed(id) else CommitFailed(id);
      HistoryBelow(events, open, next);
      assert (events + [e])[..|events|] == events;
      assert open - {id} + {id} == open;
      events, open := events + [e], open - {id};
    }
  }

  lemma {:induction false} HistoryBelow(events: seq<Event>, open: set<nat>, next: nat)
    requires History(events, open, next)
    ensures forall id :: id in open ==> id < next
    ensures forall m :: m >= next ==> History(events, open, m)
    ensures forall e :: e in events ==> e.id < next
  {
    if events != [] {
      var e, before := events[|events| - 1], events[..|events| - 1];
      assert events == before + [e];
      if e.Begun? {
        HistoryBelow(before, open - {e.id}, e.id);
        forall id | id in open ensures id < next {
          assert id == e.id || id in open - {e.id};
        }
      } else {
        HistoryBelow(before, open + {e.id}, next);
        forall id | id in open ensures id < next {
          assert id in open + {e.id};
        }
        forall m | m >= next ensures History(events, open, m) {
          assert History(before, open + {e.id}, m);
        }
      }
    }
  }

  // ----- transactions, compilers and querysets -----

  /** A transaction as a caller holds it: the driver's own, one wrapped for a compiler, or one
      that does nothing. */
  datatype Tx = DriverTx(id: nat) | Wrapped(inner: Tx, owner: Compiler) | NullTx

  datatype Context = Background | TxContext(tx: Tx, db: string)

  class Compiler {
    const db: string
    var transaction: Option<Tx>

    constructor (db: string)
      ensures this.db == db && transaction == None
    {
      this.db, transaction := db, None;
    }

    predicate InTransaction()
      reads this
    {
      transaction.Some?
    }

    /** Put a transaction in the slot, unless there is one. */
    method WithTransaction(t: Tx) returns (r: Option<Tx>)
      modifies this
      ensures old(transaction).Some? ==> r.None? && transaction == old(transaction)
      ensures old(transaction).None? ==> r == Some(Wrapped(t, this)) && transaction == r
    {
      if InTransaction() {
        return None;
      }
      transaction := Some(Wrapped(t, this));
      return transaction;
    }

    /** The transaction in the slot; a new one if there is none. */
    method StartTransaction(d: Driver) returns (r: Option<Tx>)
      requires d.Valid()
      modifies this, d
      ensures d.Valid()
      ensures old(transaction).Some? ==>
                r == old(transaction) && transaction == old(transaction) && d.events == old(d.events) && d.open == old(d.open)
      ensures old(transaction).None? && r.None? ==> transaction == None && d.events == old(d.events) && d.open == old(d.open)
      ensures old(transaction).None? && r.Some? ==>
                && r.value.Wrapped? && r.value.owner == this && r.value.inner.DriverTx? && transaction == r
                && Opened(d, old(d.events), old(d.open), r.value.inner.id)
    {
      if InTransaction() {
        return transaction;
      }
      var id := d.Begin();
      if id.None? {
        return None;
      }
      r := WithTransaction(DriverTx(id.value));
    }
  }

  /** The driver has begun transaction `id` since, and done nothing else. */
  ghost predicate Opened(d: Driver, events: seq<Event>, open: set<nat>, id: nat)
    reads d
  {
    id !in open && d.open == open + {id} && d.events == events + [Begun(id)]
  }

  /** Commit or roll back.  A wrapped transaction is ended only while its compiler's slot is
      filled, and empties it first. */
  method EndTx(tx: Tx, commit: bool, d: Driver) returns (ok: bool)
    requires d.Valid()
    modifies d, Owners(tx)
    decreases tx
    ensures d.Valid()
    ensures tx.NullTx? ==> ok && d.events == old(d.events) && d.open == old(d.open)
    ensures tx.Wrapped? && old(tx.owner.transaction).None? ==>
              !ok && tx.owner.transaction == None && d.events == old(d.events) && d.open == old(d.open)
    ensures tx.Wrapped? && old(tx.owner.transaction).Some? && tx.inner.DriverTx? ==>
              && tx.owner.transaction == None
              && var id := tx.inner.id;
                 (id in old(d.open) ==>
                    && d.open == old(d.open) - {id}
                    && d.events == old(d.events) + [if !commit then RolledBack(id) else if ok then Committed(id) else CommitFailed(id)])
    ensures tx.DriverTx? && tx.id in old(d.open) ==>
              && d.open == old(d.open) - {tx.id}
              && d.events == old(d.events) + [if !commit then RolledBack(tx.id) else if ok then Committed(tx.id) else CommitFailed(tx.id)]
  {
    match tx
    case NullTx => return true;
    case DriverTx(id) => ok := d.End(id, commit);
    case Wrapped(inner, owner) =>
      if !owner.InTransaction() {
        return false;
      }
      owner.transaction := None;
      ok := EndTx(inner, commit, d);
  }

  lemma {:induction false} OneOwner(tx: Tx)
    requires tx.NullTx? || (tx.Wrapped? && tx.inner.DriverTx?)
    ensures Owners(tx) == if tx.NullTx? then {} else {tx.owner}
  {
  }

  ghost function Owners(tx: Tx): set<Compiler> {
    match tx
    case Wrapped(inner, owner) => {owner} + Owners(inner)
    case DriverTx(_) => {}
    case NullTx => {}
  }

  class QuerySet {
    const compiler: Compiler
    var context: Context

    /** A queryset for a model of database `db`, with a compiler of its own. */
    constructor (db: string)
      ensures fresh(compiler) && compiler.db == db && compiler.transaction == None && context == Background
    {
      compiler := new Compiler(db);
      context := Background;
    }

    /** A copy that shares the compiler. */
    constructor Clone(qs: QuerySet)
      ensures compiler == qs.compiler && context == qs.context
    {
      compiler, context := qs.compiler, qs.context;
    }

    /** Bind a context; a transaction in it goes into the compiler's slot. */
    method WithContext(ctx: Context)
      modifies this`context, compiler
      ensures context == ctx
      ensures old(compiler.transaction).Some? ==> compiler.transaction == old(compiler.transaction)
      ensures old(compiler.transaction).None? ==>
                compiler.transaction == if ctx.TxContext? && ctx.db == compiler.db then Some(Wrapped(ctx.tx, compiler)) else None
    {
      if ctx.TxContext? && ctx.db == compiler.db {
        var _ := compiler.WithTransaction(ctx.tx);
      }
      context := ctx;
    }

    /** Start a transaction by hand: inside one it returns the handle of the outer one. */
    method StartTransaction(d: Driver) returns (r: Option<Tx>)
      requires d.Valid()
      modifies this`context, compiler, d
      ensures d.Valid()
      ensures old(compiler.transaction).Some? ==>
                r == old(compiler.transaction) == compiler.transaction && d.events == old(d.events) && d.open == old(d.open)
      ensures old(compiler.transaction).None? && r.None? ==>
                compiler.transaction == None && d.events == old(d.events) && d.open == old(d.open)
      ensures old(compiler.transaction).None? && r.Some? ==>
                && r.value.Wrapped? && r.value.owner == compiler && r.value.inner.DriverTx? && compiler.transaction == r
                && Opened(d, old(d.events), old(d.open), r.value.inner.id)
      ensures context == if r.Some? then TxContext(r.value, compiler.db) else old(context)
    {
      r := compiler.StartTransaction(d);
      if r.Some? {
        context := TxContext(r.value, compiler.db);
      }
    }

    /** A transaction to work in: one that does nothing if there is one already. */
    method GetOrCreateTransaction(implicit: bool, d: Driver) returns (r: Option<Tx>)
      requires d.Valid()
      modifies this`context, compiler, d
      ensures d.Valid()
      ensures r.None? || r == Some(NullTx) ==>
                compiler.transaction == old(compiler.transaction) && d.events == old(d.events) && d.open == old(d.open)
      ensures r == Some(NullTx) <==> old(compiler.transaction).Some? || !implicit
      ensures r.Some? && r.value != NullTx ==>
                && r.value.Wrapped? && r.value.owner == compiler && r.value.inner.DriverTx?
                && old(compiler.transaction).None? && compiler.transaction == r
                && Opened(d, old(d.events), old(d.open), r.value.inner.id)
                && context == TxContext(r.value, compiler.db)
      ensures r.None? || r == Some(NullTx) ==> context == old(context)
    {
      if !compiler.InTransaction() && implicit {
        r := StartTransaction(d);
      } else {
        r := Some(NullTx);
      }
    }
  }

  // ----- what model code can do -----

  /** Code run before and after the statement of a bulk operation; for a model with a Save
      method of its own, `before` is that method. */
  datatype Hooks = Hooks(before: Prog, after: Prog)

  /** Which context a queryset is bound to: none, the one the code was given, that of the
      queryset at hand, or, inside `RunInTransaction`, whichever its constructor function
      binds. */
  datatype Via = Unbound | Given | Own | Factory

  datatype Prog =
    | Skip
    | Fails                                      // returns an error
    | Panics
    | Statement                                  // anything else that may fail
    | Sequence(first: Prog, second: Prog)
    | Try(body: Prog)                            // errors ignored
    | Recover(body: Prog)                        // panics recovered
    | Using(db: string, via: Via, body: Prog)    // with another queryset
    | Copying(body: Prog)                        // with a copy of the queryset at hand
    | Create(saver: bool, hooks: Hooks)
    | Update(saver: bool, hooks: Hooks)
    | GetOrCreate(saver: bool, hooks: Hooks)
    | BulkCreate(hooks: Hooks)
    | BulkUpdate(hooks: Hooks)
    | BatchCreate(batches: seq<Hooks>)
    | BatchUpdate(batches: seq<Hooks>)
    | Delete
    | Save(db: string, body: Prog)               // the Save method of a model, a transaction if they are implicit
    | RunInTransaction(db: string, body: Prog, commit: bool)

  /** A measure for recursion: a write method is larger than those it calls. */
  ghost function Size(p: Prog): nat
    decreases p
  {
    match p
    case Sequence(a, b) => Size(a) + Size(b) + 1
    case Try(b) => Size(b) + 1
    case Recover(b) => Size(b) + 1
    case Using(_, _, b) => Size(b) + 1
    case Copying(b) => Size(b) + 1
    case Save(_, b) => Size(b) + 1
    case RunInTransaction(_, b, _) => Size(b) + 1
    case BulkCreate(h) => HooksSize(h) + 1
    case BulkUpdate(h) => HooksSize(h) + 1
    case Create(_, h) => HooksSize(h) + 2
    case Update(_, h) => HooksSize(h) + 2
    case GetOrCreate(_, h) => HooksSize(h) + 3
    case BatchCreate(hs) => BatchSize(hs) + 1
    case BatchUpdate(hs) => BatchSize(hs) + 1
    case _ => 0
  }

  ghost function HooksSize(h: Hooks): nat
    decreases h
  {
    Size(h.before) + Size(h.after) + 1
  }

  ghost function BatchSize(hs: seq<Hooks>): nat
    decreases hs
  {
    if hs == [] then 0 else HooksSize(hs[0]) + 2 + BatchSize(hs[1..])
  }

  lemma {:induction false} BatchIsSmaller(hs: seq<Hooks>, i: nat)
    requires i < |hs|
    ensures HooksSize(hs[i]) + 2 <= BatchSize(hs)
  {
    if i > 0 {
      BatchIsSmaller(hs[1..], i - 1);
    }
  }

  predicate IsWrite(p: Prog) {
    p.Create? || p.Update? || p.GetOrCreate? || p.BulkCreate? || p.BulkUpdate? || p.BatchCreate? || p.BatchUpdate? || p.Delete?
  }

  datatype Outcome = Done | Failed | Panicked

  /** What the code was given: a context, and the database of the `RunInTransaction` around it. */
  datatype Scope = Scope(ctx: Context, runDb: Option<string>)

  /** `tx` is what a write method on `qs` works in. */
  ghost predicate Held(qs: QuerySet, tx: Tx, d: Driver)
    reads qs, qs.compiler, d
  {
    tx == NullTx
    || (tx.Wrapped? && tx.owner == qs.compiler && tx.inner.DriverTx? && qs.compiler.transaction == Some(tx) && tx.inner.id in d.open)
  }

  /** The last thing that happened is that `tx` was committed; it failed unless `o` says so. */
  ghost predicate EndedByCommit(tx: Tx, d: Driver, o: Outcome)
    requires tx.Wrapped? && tx.inner.DriverTx?
    reads d
  {
    && d.events != []
    && d.events[|d.events| - 1] == if o.Done? then Committed(tx.inner.id) else CommitFailed(tx.inner.id)
  }

  /** A statement, a signal, a check: anything that can go wrong on its own. */
  method Step() returns (o: Outcome) {
    if * {
      return Done;
    } else if * {
      return Failed;
    }
    return Panicked;
  }

  method Commit(qs: QuerySet, tx: Tx, d: Driver) returns (o: Outcome)
    requires d.Valid() && Held(qs, tx, d)
    modifies d, qs.compiler
    ensures d.Valid() && old(d.events) <= d.events
    ensures tx == NullTx ==> o.Done? && qs.compiler.transaction == old(qs.compiler.transaction) && d.open == old(d.open)
    ensures tx != NullTx ==>
              && qs.compiler.transaction == None && d.open == old(d.open) - {tx.inner.id}
              && |d.events| > |old(d.events)| && EndedByCommit(tx, d, o)
  {
    OneOwner(tx);
    var ok := EndTx(tx, true, d);
    o := if ok then Done else Failed;
  }

  /** A queryset of its own, bound to a context. */
  method GetQuerySet(db: string, ctx: Context) returns (qs: QuerySet)
    ensures fresh(qs) && fresh(qs.compiler) && qs.compiler.db == db && qs.context == ctx
    ensures qs.compiler.transaction == if ctx.TxContext? && ctx.db == db then Some(Wrapped(ctx.tx, qs.compiler)) else None
  {
    qs := new QuerySet(db);
    qs.WithContext(ctx);
  }

  method CloneOf(qs: QuerySet) returns (copy: QuerySet)
    ensures fresh(copy) && copy.compiler == qs.compiler && copy.context == qs.context
  {
    copy := new QuerySet.Clone(qs);
  }

  /** Model code, with the queryset it has at hand.  Whatever it does, it leaves open exactly the
      transactions it found open, and the compiler's slot as it was. */
  method Exec(p: Prog, qs: QuerySet, scope: Scope, implicit: bool, d: Driver) returns (o: Outcome)
    requires d.Valid()
    modifies d, qs`context, qs.compiler
    decreases Size(p), 4
    ensures d.Valid() && d.open == old(d.open) && old(d.events) <= d.events
    ensures qs.compiler.transaction == old(qs.compiler.transaction)
    ensures old(qs.compiler.transaction).Some? || !implicit ==> qs.context == old(qs.context)
  {
    match p
    case Skip => o := Done;
    case Fails => o := Failed;
    case Panics => o := Panicked;
    case Statement => o := Step();
    case Sequence(first, second) =>
      o := Exec(first, qs, scope, implicit, d);
      if o.Done? {
        o := Exec(second, qs, scope, implicit, d);
      }
    case Try(body) =>
      o := Exec(body, qs, scope, implicit, d);
      o := if o.Failed? then Done else o;
    case Recover(body) =>
      o := Exec(body, qs, scope, implicit, d);
      o := if o.Panicked? then Done else o;
    case Using(db, via, body) =>
      if via.Factory? && scope.runDb != Some(db) {
        return Panicked;
      }
      var other := GetQuerySet(db, match via case Unbound => Background case Own => qs.context case Given => scope.ctx case Factory => scope.ctx);
      o := Exec(body, other, scope, implicit, d);
    case Copying(body) =>
      var copy := CloneOf(qs);
      o := Exec(body, copy, scope, implicit, d);
    case Save(db, body) =>
      if implicit {
        ghost var committed: bool;
        o, committed := InTransaction(db, body, true, qs, scope, implicit, d);
      } else {
        o := Exec(body, qs, scope, implicit, d);
      }
    case RunInTransaction(db, body, commit) =>
      ghost var committed: bool;
      o, committed := InTransaction(db, body, commit, qs, scope.(runDb := Some(db)), implicit, d);
      o := if o.Panicked? then Done else o;
    case _ => o := Write(p, qs, scope, implicit, d);
  }

  /** The queryset's context names a transaction of its own database that has ended. */
  ghost predicate Stale(qs: QuerySet, d: Driver)
    reads qs, d
  {
    && qs.context.TxContext? && qs.context.db == qs.compiler.db
    && qs.context.tx.Wrapped? && qs.context.tx.inner.DriverTx? && qs.context.tx.inner.id !in d.open
  }

  /** The frame of every write method: a transaction to work in, and a deferred rollback.  One
      that it began is committed exactly when the method succeeds. */
  method Write(p: Prog, qs: QuerySet, scope: Scope, implicit: bool, d: Driver) returns (o: Outcome)
    requires d.Valid() && IsWrite(p)
    modifies d, qs`context, qs.compiler
    decreases Size(p), 3
    ensures d.Valid() && d.open == old(d.open) && old(d.events) <= d.events
    ensures qs.compiler.transaction == old(qs.compiler.transaction)
    ensures old(qs.compiler.transaction).Some? || !implicit ==> qs.context == old(qs.context)
    ensures old(qs.compiler.transaction).None? && implicit ==>
              || Atomic(d.events[|old(d.events)|..], o.Done?)
              || (d.events == old(d.events) && if p == BatchUpdate([]) then o.Done? else o.Failed?)
    ensures old(qs.compiler.transaction).None? && implicit && d.events != old(d.events) ==> Stale(qs, d)
  {
    if p == BatchUpdate([]) {
      return Done;
    }
    var tx := qs.GetOrCreateTransaction(implicit, d);
    if tx.None? {
      return Failed;
    }
    ghost var began := d.events;
    o := WriteBody(p, qs, tx.value, scope, implicit, d);
    OneOwner(tx.value);
    var _ := EndTx(tx.value, false, d);
    if tx.value != NullTx {
      Framed(old(d.events), began, d.events, tx.value.inner.id, o.Done?);
    }
  }

  /** A transaction begun first and ended last, committed or not. */
  ghost predicate Atomic(events: seq<Event>, committed: bool) {
    && |events| >= 2 && events[0].Begun?
    && var id, end := events[0].id, events[|events| - 1];
       Ends(end, id) && (end == Committed(id) <==> committed)
  }

  /** The last event ends the transaction, with a commit or without. */
  ghost predicate EndsWith(events: seq<Event>, id: nat, committed: bool) {
    events != [] && Ends(events[|events| - 1], id) && (events[|events| - 1] == Committed(id) <==> committed)
  }

  lemma {:induction false} Framed(start: seq<Event>, began: seq<Event>, after: seq<Event>, id: nat, done: bool)
    requires began == start + [Begun(id)] && began < after && EndsWith(after, id, done)
    ensures Atomic(after[|start|..], done)
  {
    var tail := after[|start|..];
    assert tail[0] == began[|start|];
    assert tail[|tail| - 1] == after[|after| - 1];
  }

  /** What a write method does between the two, ending with the commit if all went well. */
  method WriteBody(p: Prog, qs: QuerySet, tx: Tx, scope: Scope, implicit: bool, d: Driver) returns (o: Outcome)
    requires d.Valid() && Held(qs, tx, d) && IsWrite(p)
    modifies d, qs`context, qs.compiler
    decreases Size(p), 2
    ensures d.Valid() && old(d.events) <= d.events
    ensures tx == NullTx ==> d.open == old(d.open) && qs.compiler.transaction == old(qs.compiler.transaction)
    ensures old(qs.compiler.transaction).Some? || !implicit ==> qs.context == old(qs.context)
    ensures tx != NullTx ==>
              if qs.compiler.transaction == None
              then d.open == old(d.open) - {tx.inner.id} && |d.events| > |old(d.events)| && EndedByCommit(tx, d, o)
              else !o.Done? && qs.compiler.transaction == Some(tx) && d.open == old(d.open)
  {
    o := Steps(p, qs, scope, implicit, d);
    if o.Done? {
      o := Commit(qs, tx, d);
    }
  }

  /** The work of each write method, between beginning and committing. */
  method Steps(p: Prog, qs: QuerySet, scope: Scope, implicit: bool, d: Driver) returns (o: Outcome)
    requires d.Valid() && IsWrite(p)
    modifies d, qs`context, qs.compiler
    decreases Size(p), 1
    ensures d.Valid() && d.open == old(d.open) && old(d.events) <= d.events
    ensures qs.compiler.transaction == old(qs.compiler.transaction)
    ensures old(qs.compiler.transaction).Some? || !implicit ==> qs.context == old(qs.context)
  {
    match p
    case Create(saver, hooks) =>
      if saver {
        o := CallSave(hooks, qs, scope, implicit, d);
      } else {
        o := Write(BulkCreate(hooks), qs, scope, implicit, d);
        o := Then(o);
      }
    case Update(saver, hooks) =>
      if saver {
        o := CallSave(hooks, qs, scope, implicit, d);
      } else {
        o := Write(BulkUpdate(hooks), qs, scope, implicit, d);
      }
    case GetOrCreate(saver, hooks) =>
      o := Step();
      var found: bool := *;
      if o.Done? && !found {
        o := Write(Create(saver, hooks), qs, scope, implicit, d);
      }
    case BulkCreate(hooks) => o := RunBulk(hooks, qs, scope, implicit, d);
    case BulkUpdate(hooks) => o := RunBulk(hooks, qs, scope, implicit, d);
    case BatchCreate(batches) => o := RunBatches(batches, false, qs, scope, implicit, d);
    case BatchUpdate(batches) => o := RunBatches(batches, true, qs, scope, implicit, d);
    case Delete => o := Step();
  }

  /** One more step, if all went well so far. */
  method Then(sofar: Outcome) returns (o: Outcome)
    ensures !sofar.Done? ==> o == sofar
  {
    o := sofar;
    if o.Done? {
      o := Step();
    }
  }

  /** Hand the object to its own Save method, with the transaction in the slot. */
  method CallSave(h: Hooks, qs: QuerySet, scope: Scope, implicit: bool, d: Driver) returns (o: Outcome)
    requires d.Valid()
    modifies d, qs`context, qs.compiler
    decreases HooksSize(h), 5
    ensures d.Valid() && d.open == old(d.open) && old(d.events) <= d.events
    ensures qs.compiler.transaction == old(qs.compiler.transaction)
    ensures old(qs.compiler.transaction).Some? || !implicit ==> qs.context == old(qs.context)
  {
    o := Step();
    if !o.Done? {
      return;
    }
    var ctx := qs.context;
    if qs.compiler.InTransaction() {
      ctx := TxContext(qs.compiler.transaction.value, qs.compiler.db);
    }
    o := Exec(h.before, qs, scope.(ctx := ctx), implicit, d);
    o := Then(o);
  }

  /** The hooks before, the statement, the hooks after. */
  method RunBulk(h: Hooks, qs: QuerySet, scope: Scope, implicit: bool, d: Driver) returns (o: Outcome)
    requires d.Valid()
    modifies d, qs`context, qs.compiler
    decreases HooksSize(h), 5
    ensures d.Valid() && d.open == old(d.open) && old(d.events) <= d.events
    ensures qs.compiler.transaction == old(qs.compiler.transaction)
    ensures old(qs.compiler.transaction).Some? || !implicit ==> qs.context == old(qs.context)
  {
    o := Exec(h.before, qs, scope.(ctx := qs.context), implicit, d);
    o := Then(o);
    if o.Done? {
      o := Exec(h.after, qs, scope.(ctx := qs.context), implicit, d);
    }
  }

  /** One bulk operation for each batch, until one fails. */
  method RunBatches(batches: seq<Hooks>, update: bool, qs: QuerySet, scope: Scope, implicit: bool, d: Driver) returns (o: Outcome)
    requires d.Valid()
    modifies d, qs`context, qs.compiler
    decreases BatchSize(batches), 5
    ensures d.Valid() && d.open == old(d.open) && old(d.events) <= d.events
    ensures qs.compiler.transaction == old(qs.compiler.transaction)
    ensures old(qs.compiler.transaction).Some? || !implicit ==> qs.context == old(qs.context)
  {
    o := Done;
    for i := 0 to |batches|
      invariant d.Valid() && d.open == old(d.open) && old(d.events) <= d.events
      invariant qs.compiler.transaction == old(qs.compiler.transaction)
      invariant old(qs.compiler.transaction).Some? || !implicit ==> qs.context == old(qs.context)
    {
      BatchIsSmaller(batches, i);
      o := Write(if update then BulkUpdate(batches[i]) else BulkCreate(batches[i]), qs, scope, implicit, d);
      if update {
        o := Then(o);
      }
      if !o.Done? {
        return;
      }
    }
  }

  /** Start a transaction for a database: one that does nothing if the context has one for it. */
  method StartTransaction(ctx: Context, db: string, d: Driver) returns (inside: Context, r: Option<Tx>)
    requires d.Valid()
    modifies d
    ensures d.Valid()
    ensures ctx.TxContext? && (ctx.db == "" || ctx.db == db) ==>
              r == Some(NullTx) && inside == ctx && d.events == old(d.events) && d.open == old(d.open)
    ensures !(ctx.TxContext? && (ctx.db == "" || ctx.db == db)) ==> r != Some(NullTx)
    ensures r.None? ==> d.events == old(d.events) && d.open == old(d.open)
    ensures r.Some? && r.value != NullTx ==>
              && r.value.Wrapped? && r.value.inner.DriverTx? && inside == TxContext(r.value, db)
              && fresh(r.value.owner) && r.value.owner.transaction == r
              && Opened(d, old(d.events), old(d.open), r.value.inner.id)
  {
    if ctx.TxContext? && (ctx.db == "" || ctx.db == db) {
      return ctx, Some(NullTx);
    }
    var compiler := new Compiler(db);
    r := compiler.StartTransaction(d);
    inside := if r.Some? then TxContext(r.value, db) else ctx;
  }

  /** Run code in a transaction, with a deferred rollback: its own is committed exactly when the
      code succeeds and wants it. */
  method InTransaction(db: string, body: Prog, commit: bool, qs: QuerySet, scope: Scope, implicit: bool, d: Driver)
      returns (o: Outcome, ghost committed: bool)
    requires d.Valid()
    modifies d, qs`context, qs.compiler
    decreases Size(body), 5
    ensures d.Valid() && d.open == old(d.open) && old(d.events) <= d.events
    ensures qs.compiler.transaction == old(qs.compiler.transaction)
    ensures old(qs.compiler.transaction).Some? || !implicit ==> qs.context == old(qs.context)
    ensures !(scope.ctx.TxContext? && (scope.ctx.db == "" || scope.ctx.db == db)) ==>
              Atomic(d.events[|old(d.events)|..], committed) || (d.events == old(d.events) && o.Failed? && !committed)
    ensures committed ==> o.Done? && commit
    ensures o.Done? && commit && d.events != old(d.events) && !(scope.ctx.TxContext? && (scope.ctx.db == "" || scope.ctx.db == db)) ==> committed
  {
    var ctx, tx := StartTransaction(scope.ctx, db, d);
    committed := false;
    if tx.None? {
      return Failed, false;
    }
    ghost var began := d.events;
    o := Exec(body, qs, scope.(ctx := ctx), implicit, d);
    OneOwner(tx.value);
    o, committed := Conclude(tx.value, o, commit, d);
    if tx.value != NullTx {
      Framed(old(d.events), began, d.events, tx.value.inner.id, committed);
    }
  }

  /** Commit what the code wants committed; the deferred rollback ends what is still open. */
  method Conclude(tx: Tx, done: Outcome, commit: bool, d: Driver) returns (o: Outcome, ghost committed: bool)
    requires d.Valid()
    requires tx.NullTx? || (tx.Wrapped? && tx.inner.DriverTx? && tx.owner.transaction.Some? && tx.inner.id in d.open)
    modifies d, Owners(tx)
    ensures d.Valid() && old(d.events) <= d.events
    ensures tx.NullTx? ==> d.events == old(d.events) && d.open == old(d.open) && !committed
    ensures tx.Wrapped? ==>
              && tx.owner.transaction == None && d.open == old(d.open) - {tx.inner.id}
              && |d.events| > |old(d.events)| && EndsWith(d.events, tx.inner.id, committed)
    ensures committed ==> done.Done? && commit
    ensures o == if done.Done? && commit && !committed && tx.Wrapped? then Failed else done
  {
    o, committed := done, false;
    OneOwner(tx);
    if done.Done? && commit {
      var ok := EndTx(tx, true, d);
      o := if ok then Done else Failed;
      committed := ok && tx != NullTx;
    }
    var _ := EndTx(tx, false, d);
  }

  // ----- whole runs -----

  function BegunCount(events: seq<Event>, id: nat): nat {
    if events == [] then 0
    else BegunCount(events[..|events| - 1], id) + if events[|events| - 1] == Begun(id) then 1 else 0
  }

  function EndCount(events: seq<Event>, id: nat): nat {
    if events == [] then 0
    else EndCount(events[..|events| - 1], id) + if Ends(events[|events| - 1], id) then 1 else 0
  }

  lemma {:induction false} CountsOfConcat(a: seq<Event>, b: seq<Event>, id: nat)
    ensures BegunCount(a + b, id) == BegunCount(a, id) + BegunCount(b, id)
    ensures EndCount(a + b, id) == EndCount(a, id) + EndCount(b, id)
    decreases |b|
  {
    if b == [] {
      assert a + b == a;
    } else {
      var last, rest := b[|b| - 1], b[..|b| - 1];
      assert (a + b)[..|a + b| - 1] == a + rest;
      CountsOfConcat(a, rest, id);
    }
  }

  /** In any history a transaction is begun at most once and ended at most once, and is open
      exactly between the two. */
  lemma {:induction false} HistoryCounts(events: seq<Event>, open: set<nat>, next: nat, id: nat)
    requires History(events, open, next)
    ensures EndCount(events, id) <= BegunCount(events, id) <= 1
    ensures id in open <==> BegunCount(events, id) == 1 && EndCount(events, id) == 0
    ensures id >= next ==> BegunCount(events, id) == 0
  {
    if events != [] {
      var e, before := events[|events| - 1], events[..|events| - 1];
      if e.Begun? {
        HistoryCounts(before, open - {e.id}, e.id, id);
      } else {
        HistoryCounts(before, open + {e.id}, next, id);
      }
    }
  }

  /** A run that leaves open what it found open has ended exactly the transactions it began,
      each once, and no other. */
  lemma {:induction false} EachEndedOnce(before: seq<Event>, tail: seq<Event>, open: set<nat>, n: nat, m: nat, id: nat)
    requires History(before, open, n) && History(before + tail, open, m)
    ensures BegunCount(tail, id) == EndCount(tail, id) <= 1
  {
    HistoryCounts(before, open, n, id);
    HistoryCounts(before + tail, open, m, id);
    CountsOfConcat(before, tail, id);
  }

  /** Any program, on any queryset, with every step free to fail: each transaction it begins at
      the driver ends in exactly one commit or rollback, no transaction from outside is ended,
      and the compiler's slot is as it was. */
  method Run(p: Prog, qs: QuerySet, ctx: Context, implicit: bool, d: Driver) returns (o: Outcome, ghost tail: seq<Event>)
    requires d.Valid()
    modifies d, qs`context, qs.compiler
    ensures d.Valid() && d.open == old(d.open) && d.events == old(d.events) + tail
    ensures qs.compiler.transaction == old(qs.compiler.transaction)
    ensures forall id :: BegunCount(tail, id) == EndCount(tail, id) <= 1
  {
    ghost var before, n := d.events, d.next;
    o := Exec(p, qs, Scope(ctx, None), implicit, d);
    tail := d.events[|before|..];
    assert d.events == before + tail;
    forall id ensures BegunCount(tail, id) == EndCount(tail, id) <= 1 {
      EachEndedOnce(before, tail, d.open, n, d.next, id);
    }
  }

  // ----- two ways around the protocol -----

  /** Starting a transaction by hand inside another returns the outer handle, so committing it
      ends the outer transaction. */
  method CommitByHandInside(qs: QuerySet, d: Driver) returns (ok: bool)
    requires d.Valid() && qs.compiler.transaction.Some?
    requires Held(qs, qs.compiler.transaction.value, d) && qs.compiler.transaction.value != NullTx
    modifies d, qs`context, qs.compiler
    ensures qs.compiler.transaction == None
    ensures d.open == old(d.open) - {old(qs.compiler.transaction).value.inner.id}
  {
    var tx := qs.StartTransaction(d);
    OneOwner(tx.value);
    ok := EndTx(tx.value, true, d);
  }

  /** After a write method that began a transaction, the queryset's context still names it: a
      queryset bound to that context takes the ended transaction for its own, and its write
      methods begin none. */
  method BoundToStaleContext(qs: QuerySet, implicit: bool, d: Driver) returns (other: QuerySet, tx: Option<Tx>)
    requires d.Valid() && Stale(qs, d)
    modifies d
    ensures other.compiler.InTransaction() && other.compiler.transaction == Some(Wrapped(qs.context.tx, other.compiler))
    ensures tx == Some(NullTx) && d.events == old(d.events) && d.open == old(d.open)
  {
    other := GetQuerySet(qs.compiler.db, qs.context);
    tx := other.GetOrCreateTransaction(implicit, d);
  }
}

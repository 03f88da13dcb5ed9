/**
 What the committed transactions of an issue say of it: its status, its resolution, its rating, its place and
 whether it is deleted, in every run.
 */
module IssueStatus {
  import opened Options
  import opened IssueTable
  import opened IssueService
  import opened IssueRuns

  /** The committed transactions of one issue, in order. */
  function TxsOf(log: seq<Committed>, id: int): seq<Tx> {
    if log == [] then []
    else
      var last := log[|log| - 1];
      TxsOf(log[..|log| - 1], id) + if last.id == id then [last.tx] else []
  }

  // ---------- the status ----------

  ghost predicate WasClosed(txs: seq<Tx>) {
    exists k :: 0 <= k < |txs| && txs[k].CloseTx?
  }

  ghost predicate WasInvalidated(txs: seq<Tx>) {
    exists k :: 0 <= k < |txs| && txs[k].InvalidateTx?
  }

  /** There is a resolve after which nothing was reopened. */
  ghost predicate EndsResolved(txs: seq<Tx>) {
    exists k :: 0 <= k < |txs| && txs[k].ResolveTx? && forall j :: k < j < |txs| ==> !txs[j].ReopenTx?
  }

  ghost predicate TellsStatus(status: Status, txs: seq<Tx>) {
    && (status == Closed <==> WasClosed(txs))
    && (status == Invalid <==> WasInvalidated(txs))
    && (status == PendingReview <==> !WasClosed(txs) && !WasInvalidated(txs) && EndsResolved(txs))
    && (status == Open <==> !WasClosed(txs) && !WasInvalidated(txs) && !EndsResolved(txs))
  }

  lemma {:induction false} LastTx(txs: seq<Tx>, tx: Tx)
    ensures WasClosed(txs + [tx]) <==> WasClosed(txs) || tx.CloseTx?
    ensures WasInvalidated(txs + [tx]) <==> WasInvalidated(txs) || tx.InvalidateTx?
    ensures EndsResolved(txs + [tx]) <==> tx.ResolveTx? || (EndsResolved(txs) && !tx.ReopenTx?)
  {
    var all, n := txs + [tx], |txs|;
    assert all[n] == tx && forall k :: 0 <= k < n ==> all[k] == txs[k];
    if k :| 0 <= k < n && txs[k].CloseTx? { assert all[k].CloseTx?; }
    if k :| 0 <= k < n && txs[k].InvalidateTx? { assert all[k].InvalidateTx?; }
    if k :| 0 <= k < n && txs[k].ResolveTx? && forall j :: k < j < n ==> !txs[j].ReopenTx? {
      assert all[k].ResolveTx?;
      assert !tx.ReopenTx? ==> forall j :: k < j < n + 1 ==> !all[j].ReopenTx?;
    }
    if k :| 0 <= k < n + 1 && all[k].ResolveTx? && forall j :: k < j < n + 1 ==> !all[j].ReopenTx? {
      assert k < n ==> !all[n].ReopenTx? && txs[k].ResolveTx? && forall j :: k < j < n ==> !txs[j].ReopenTx?;
    }
  }

  lemma {:induction false} UpdatedTellsStatus(i: Issue, txs: seq<Tx>, tx: Tx)
    requires Guard(i, tx) && TellsStatus(i.status, txs)
    ensures TellsStatus(Updated(i, tx).status, txs + [tx])
  {
    LastTx(txs, tx);
  }

  // ---------- deletion ----------

  function Deletions(txs: seq<Tx>): nat {
    if txs == [] then 0 else Deletions(txs[..|txs| - 1]) + if txs[|txs| - 1].DeleteTx? then 1 else 0
  }

  function Restorations(txs: seq<Tx>): nat {
    if txs == [] then 0 else Restorations(txs[..|txs| - 1]) + if txs[|txs| - 1].RestoreTx? then 1 else 0
  }

  ghost predicate TellsDeleted(deleted: bool, txs: seq<Tx>) {
    Deletions(txs) == Restorations(txs) + if deleted then 1 else 0
  }

  lemma {:induction false} UpdatedTellsDeleted(i: Issue, txs: seq<Tx>, tx: Tx)
    requires Guard(i, tx) && TellsDeleted(i.deleted, txs)
    ensures TellsDeleted(Updated(i, tx).deleted, txs + [tx])
  {
    assert (txs + [tx])[..|txs|] == txs;
  }

  // ---------- the other columns ----------

  /** The last resolve gave the resolver, the photo and the time; without one there is none. */
  ghost predicate TellsResolution(i: Issue, txs: seq<Tx>) {
    || (exists k :: 0 <= k < |txs| && txs[k].ResolveTx? && (forall j :: k < j < |txs| ==> !txs[j].ResolveTx?)
          && i.resolver == Some(txs[k].user) && i.photoAfter == Some(txs[k].photo) && i.resolvedAt == Some(txs[k].now))
    || ((forall k :: 0 <= k < |txs| ==> !txs[k].ResolveTx?)
        && i.resolver == None && i.photoAfter == None && i.resolvedAt == None)
  }

  lemma {:induction false} UpdatedTellsResolution(i: Issue, txs: seq<Tx>, tx: Tx)
    requires TellsResolution(i, txs)
    ensures TellsResolution(Updated(i, tx), txs + [tx])
  {
    var all, n := txs + [tx], |txs|;
    assert all[n] == tx && forall k :: 0 <= k < n ==> all[k] == txs[k];
    if tx.ResolveTx? {
      assert all[n].ResolveTx?;
    } else if k :| 0 <= k < n && txs[k].ResolveTx? && (forall j :: k < j < n ==> !txs[j].ResolveTx?)
                   && i.resolver == Some(txs[k].user) && i.photoAfter == Some(txs[k].photo)
                   && i.resolvedAt == Some(txs[k].now) {
      assert all[k].ResolveTx? && forall j :: k < j < n + 1 ==> !all[j].ResolveTx?;
    }
  }

  /** The close gave the rating; without one it is the three of the column default. */
  ghost predicate TellsRating(rating: int, txs: seq<Tx>) {
    && (forall k :: 0 <= k < |txs| && txs[k].CloseTx? ==> rating == txs[k].rating)
    && (!WasClosed(txs) ==> rating == 3)
  }

  lemma {:induction false} UpdatedTellsRating(i: Issue, txs: seq<Tx>, tx: Tx)
    requires Guard(i, tx) && TellsStatus(i.status, txs) && TellsRating(i.rating, txs)
    ensures TellsRating(Updated(i, tx).rating, txs + [tx])
  {
    var all, n := txs + [tx], |txs|;
    assert all[n] == tx && forall k :: 0 <= k < n ==> all[k] == txs[k];
    LastTx(txs, tx);
    if tx.CloseTx? {
      forall k | 0 <= k < n ensures !txs[k].CloseTx? { assert txs[k].CloseTx? ==> WasClosed(txs); }
    }
  }

  predicate NamesCategory(tx: Tx) {
    tx.PatchTx? && tx.patch.category.Some?
  }

  predicate NamesLocation(tx: Tx) {
    tx.PatchTx? && tx.patch.location.Some?
  }

  /** The category is that of the last patch that names one, or of the creation. */
  ghost predicate TellsCategory(category: Category, txs: seq<Tx>, first: Category) {
    || (exists k :: 0 <= k < |txs| && NamesCategory(txs[k]) && txs[k].patch.category.value == category
          && forall j :: k < j < |txs| ==> !NamesCategory(txs[j]))
    || (category == first && forall k :: 0 <= k < |txs| ==> !NamesCategory(txs[k]))
  }

  ghost predicate TellsLocation(location: string, txs: seq<Tx>, first: string) {
    || (exists k :: 0 <= k < |txs| && NamesLocation(txs[k]) && txs[k].patch.location.value == location
          && forall j :: k < j < |txs| ==> !NamesLocation(txs[j]))
    || (location == first && forall k :: 0 <= k < |txs| ==> !NamesLocation(txs[k]))
  }

  lemma {:induction false} UpdatedTellsCategory(i: Issue, txs: seq<Tx>, first: Category, tx: Tx)
    requires TellsCategory(i.category, txs, first)
    ensures TellsCategory(Updated(i, tx).category, txs + [tx], first)
  {
    var all, n := txs + [tx], |txs|;
    assert all[n] == tx && forall k :: 0 <= k < n ==> all[k] == txs[k];
    if NamesCategory(tx) {
      assert NamesCategory(all[n]);
    } else if k :| 0 <= k < n && NamesCategory(txs[k]) && txs[k].patch.category.value == i.category
                   && forall j :: k < j < n ==> !NamesCategory(txs[j]) {
      assert NamesCategory(all[k]) && forall j :: k < j < n + 1 ==> !NamesCategory(all[j]);
    }
  }

  lemma {:induction false} UpdatedTellsLocation(i: Issue, txs: seq<Tx>, first: string, tx: Tx)
    requires TellsLocation(i.location, txs, first)
    ensures TellsLocation(Updated(i, tx).location, txs + [tx], first)
  {
    var all, n := txs + [tx], |txs|;
    assert all[n] == tx && forall k :: 0 <= k < n ==> all[k] == txs[k];
    if NamesLocation(tx) {
      assert NamesLocation(all[n]);
    } else if k :| 0 <= k < n && NamesLocation(txs[k]) && txs[k].patch.location.value == i.location
                   && forall j :: k < j < n ==> !NamesLocation(txs[j]) {
      assert NamesLocation(all[k]) && forall j :: k < j < n + 1 ==> !NamesLocation(all[j]);
    }
  }

  // ---------- over runs ----------

  ghost predicate Tells(i: Issue, txs: seq<Tx>, first: Issue) {
    && TellsStatus(i.status, txs) && TellsDeleted(i.deleted, txs) && TellsResolution(i, txs)
    && TellsRating(i.rating, txs) && i.uuid == first.uuid && i.creator == first.creator
    && TellsCategory(i.category, txs, first.category) && TellsLocation(i.location, txs, first.location)
  }

  lemma {:induction false} UpdatedTells(i: Issue, txs: seq<Tx>, first: Issue, tx: Tx)
    requires Guard(i, tx) && Tells(i, txs, first)
    ensures Tells(Updated(i, tx), txs + [tx], first)
  {
    UpdatedTellsStatus(i, txs, tx);
    UpdatedTellsDeleted(i, txs, tx);
    UpdatedTellsResolution(i, txs, tx);
    UpdatedTellsRating(i, txs, tx);
    UpdatedTellsCategory(i, txs, first.category, tx);
    UpdatedTellsLocation(i, txs, first.location, tx);
  }

  lemma {:induction false} CreatedTells(i: Issue)
    requires i.status == Open && !i.deleted && i.rating == 3
    requires i.resolver.None? && i.photoAfter.None? && i.resolvedAt.None?
    ensures Tells(i, [], i)
  {
  }

  ghost predicate TellsOf(s: State, id: int) {
    && id in s.db.issues && id in s.history && |s.history[id]| > 0
    && Tells(s.db.issues[id], TxsOf(s.log, id), s.history[id][0])
  }

  ghost predicate AllTell(s: State) {
    forall id :: id in s.db.issues ==> TellsOf(s, id)
  }

  lemma {:induction false} NoTxs(log: seq<Committed>, id: int)
    requires forall k :: 0 <= k < |log| ==> log[k].id != id
    ensures TxsOf(log, id) == []
  {
    if log != [] { NoTxs(log[..|log| - 1], id); }
  }

  lemma {:induction false} SyncTells(s: State, e: Event)
    requires e.Sync? && Good(s) && AllTell(s)
    ensures AllTell(SyncStep(s, e))
  {
    var u, id := SyncStep(s, e), s.db.nextId;
    if u != s {
      assert id !in s.db.issues;
      NoTxs(s.log, id);
      CreatedTells(u.db.issues[id]);
    }
  }

  /** One more transaction of an issue is committed, and the others are as they were. */
  ghost predicate OneMore(s: State, u: State, id: int, c: Committed) {
    && id in s.db.issues && id in s.history && Guard(s.db.issues[id], c.tx) && c.id == id
    && u.db.issues == s.db.issues[id := Updated(s.db.issues[id], c.tx)]
    && u.history == s.history[id := s.history[id] + [Updated(s.db.issues[id], c.tx)]]
    && u.log == s.log + [c]
  }

  lemma {:induction false} CommittedTells(s: State, u: State, id: int, c: Committed)
    requires OneMore(s, u, id, c) && TellsOf(s, id)
    ensures TellsOf(u, id)
  {
    assert u.log[..|s.log|] == s.log;
    UpdatedTells(s.db.issues[id], TxsOf(s.log, id), s.history[id][0], c.tx);
    assert u.history[id][0] == s.history[id][0];
  }

  lemma {:induction false} OthersTell(s: State, u: State, id: int, c: Committed, other: int)
    requires OneMore(s, u, id, c) && TellsOf(s, other) && other != id
    ensures TellsOf(u, other)
  {
    assert u.log[..|s.log|] == s.log;
    assert TxsOf(u.log, other) == TxsOf(s.log, other);
  }

  lemma {:induction false} CommitTells(s: State, id: int, seen: Issue, r: Request)
    requires Good(s) && AllTell(s) && id in s.history && Decide(id, seen, r).Some?
    requires Commit(s.db, id, Decide(id, seen, r).value).Some?
    ensures AllTell(CommitTx(s, id, Decide(id, seen, r).value, seen.version))
  {
    var tx := Decide(id, seen, r).value;
    var u := CommitTx(s, id, tx, seen.version);
    var c := Committed(id, tx, seen.version, s.db.issues[id].version);
    CommitTables(s, id, seen, r);
    CommittedTells(s, u, id, c);
    forall k | k in u.db.issues && k != id ensures TellsOf(u, k) {
      OthersTell(s, u, id, c, k);
    }
  }

  lemma {:induction false} StepTells(s: State, e: Event)
    requires Good(s) && AllTell(s)
    ensures AllTell(Step(s, e))
  {
    if e.Sync? {
      SyncTells(s, e);
    } else if e.Call? && e.id in s.history && e.seen < |s.history[e.id]| {
      var d := Decide(e.id, s.history[e.id][e.seen], e.request);
      if d.Some? && Commit(s.db, e.id, d.value).Some? { CommitTells(s, e.id, s.history[e.id][e.seen], e.request); }
    }
  }

  lemma {:induction false} FollowTells(s: State, more: seq<Event>)
    requires Good(s) && AllTell(s)
    ensures AllTell(Follow(s, more))
  {
    FollowIsGood(s, more);
    if more != [] {
      var before := more[..|more| - 1];
      FollowIsGood(s, before);
      FollowTells(s, before);
      StepTells(Follow(s, before), more[|more| - 1]);
    }
  }

  /** In every run an issue is CLOSED exactly when a close of it has committed and INVALID exactly when an invalidation
      has; otherwise it is PENDING_REVIEW exactly when the last of its resolves and reopens is a resolve, and OPEN
      exactly when that is a reopen or there is none. It is deleted exactly when its deletions outnumber its
      restorations. Resolver, photo and time are those of the last resolve, the rating is that of the close, category
      and location are those last patched, and creator and UUID never change. */
  lemma StatusOfIssue(events: seq<Event>, id: int)
    requires id in Run(events).db.issues
    ensures var s := Run(events);
            var i, txs := s.db.issues[id], TxsOf(s.log, id);
            && TellsStatus(i.status, txs)
            && (i.deleted <==> Deletions(txs) > Restorations(txs))
            && TellsResolution(i, txs) && TellsRating(i.rating, txs)
    ensures var s := Run(events);
            var i, txs := s.db.issues[id], TxsOf(s.log, id);
            && id in s.history && |s.history[id]| > 0
            && var first := s.history[id][0];
               && i.uuid == first.uuid && i.creator == first.creator
               && TellsCategory(i.category, txs, first.category) && TellsLocation(i.location, txs, first.location)
  {
    RunIsGood([]);
    FollowTells(START, events);
  }
}

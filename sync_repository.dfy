/** `SupabaseSyncRepository`: the one-shot download into an empty table and
    the two-way reconciliation (push of pending rows, then pull of the
    user's remote rows). The server enters as inputs: the signed-in user's
    id, the reply to each request sent, and the fetched remote rows with
    `deleted_at` already read as epoch milliseconds. */
module Sync {
  import opened Results
  import opened Entity
  import opened Text
  import Dao
  import Settings

  /** A row of the remote `expenses` table (`updated_at` is never read). */
  datatype RemoteExpense = RemoteExpense(
    id: Option<string>,
    userId: Option<string>,
    name: Option<string>,
    amount: int,
    category: int,
    note: Option<string>,
    createdDate: int,
    modifiedDate: int,
    deletedAt: Option<int>)

  datatype SyncResult = SyncResult(inserted: int, skipped: bool)

  /** What the push sends to the server for one row. */
  datatype Request =
    | Insert(payload: RemoteExpense)
    | Upsert(payload: RemoteExpense)
    | SoftDelete(remoteId: string, deletedAt: int)

  /** The server's reply to the n-th request sent: the id of the row it
      returns (null when it has none), or an exception. */
  type Server = (nat, Request) -> Call<Option<string>>

  /** The local row a remote row becomes, stored under `id`: SYNCED and not
      deleted. */
  function FromRemote(r: RemoteExpense, id: int): (e: ExpenseEnt)
    ensures e.expenseId == id && e.remoteId == r.id && e.deletedAt == None && e.syncState == SYNCED
    ensures e.name == r.name && GetStore(e.amount) == r.amount && e.category == r.category && e.note == r.note
    ensures e.createdDate == r.createdDate && e.modifiedDate == r.modifiedDate
  {
    ExpenseEnt(id, r.id, r.name, CreateFromStore(r.amount), r.category, r.note,
               r.createdDate, r.modifiedDate, None, SYNCED)
  }

  /** The payload pushed for a DIRTY row. */
  function Payload(local: ExpenseEnt, userId: string): (p: RemoteExpense)
    ensures p.id == local.remoteId && p.userId == Some(userId) && p.deletedAt == None
  {
    RemoteExpense(local.remoteId, Some(userId), local.name, GetStore(local.amount), local.category,
                  local.note, local.createdDate, local.modifiedDate, None)
  }

  /** What is pushed is what a pull of it gives back: every field of the
      row, now SYNCED and not deleted. */
  lemma PayloadRoundTrip(local: ExpenseEnt, userId: string)
    ensures FromRemote(Payload(local, userId), local.expenseId) == local.(deletedAt := None, syncState := SYNCED)
  {
    StoreRoundTrip(0, local.amount);
  }

  // ----------------------------------------------------------------- push

  /** The request pushed for a pending row, if any. */
  function PushRequest(local: ExpenseEnt, userId: string, now: int): Option<Request> {
    if local.syncState == DIRTY then
      if IsNullOrBlank(local.remoteId) then Some(Insert(Payload(local, userId)))
      else Some(Upsert(Payload(local, userId)))
    else if local.syncState == DELETED then
      if !IsNullOrBlank(local.remoteId) then Some(SoftDelete(local.remoteId.value, local.deletedAt.GetOr(now)))
      else None
    else None
  }

  /** A DIRTY row is sent by insert exactly when it has no remote id yet and
      by upsert otherwise; a DELETED row is soft-deleted remotely exactly
      when it has a remote id, at its own deletion time or else `now`; any
      other state sends nothing. */
  lemma PushRequestChoice(local: ExpenseEnt, userId: string, now: int)
    ensures (PushRequest(local, userId, now).Some? && PushRequest(local, userId, now).value.Insert?) <==>
            local.syncState == DIRTY && IsNullOrBlank(local.remoteId)
    ensures (PushRequest(local, userId, now).Some? && PushRequest(local, userId, now).value.Upsert?) <==>
            local.syncState == DIRTY && !IsNullOrBlank(local.remoteId)
    ensures (PushRequest(local, userId, now).Some? && PushRequest(local, userId, now).value.SoftDelete?) <==>
            local.syncState == DELETED && !IsNullOrBlank(local.remoteId)
    ensures PushRequest(local, userId, now).Some? && !PushRequest(local, userId, now).value.SoftDelete? ==>
            PushRequest(local, userId, now).value.payload == Payload(local, userId)
    ensures PushRequest(local, userId, now).Some? && PushRequest(local, userId, now).value.SoftDelete? ==>
            PushRequest(local, userId, now).value == SoftDelete(local.remoteId.value, local.deletedAt.GetOr(now))
  {
  }

  /** The row after its push, given the state it was pushed in and the
      server's reply. */
  function Pushed(row: ExpenseEnt, state: int, reply: Option<string>): ExpenseEnt {
    if state == DIRTY then
      if !IsNullOrBlank(reply) then row.(remoteId := reply, syncState := SYNCED) else row.(syncState := SYNCED)
    else if state == DELETED then row.(syncState := SYNCED)
    else row
  }

  /** The local write after a row's push. */
  function PushRow(s: Dao.Store, local: ExpenseEnt, reply: Option<string>): Dao.Store {
    if local.syncState == DIRTY then
      if !IsNullOrBlank(reply) then Dao.SetRemoteIdAndSyncState(s, local.expenseId, reply.value, SYNCED)
      else Dao.SetSyncState(s, local.expenseId, SYNCED)
    else if local.syncState == DELETED then Dao.SetSyncState(s, local.expenseId, SYNCED)
    else s
  }

  /** A push writes only the pushed row's id, and writes it as `Pushed`. */
  lemma PushRowEffect(s: Dao.Store, local: ExpenseEnt, reply: Option<string>)
    ensures Dao.SameIds(s, PushRow(s, local, reply))
    ensures forall j :: 0 <= j < |s.rows| && s.rows[j].expenseId != local.expenseId ==>
              PushRow(s, local, reply).rows[j] == s.rows[j]
    ensures forall j :: 0 <= j < |s.rows| && s.rows[j].expenseId == local.expenseId ==>
              PushRow(s, local, reply).rows[j] == Pushed(s.rows[j], local.syncState, reply)
  {
  }

  /** A pushed row differs from the original only in its remote id and
      state, and a DELETED row keeps its remote id. */
  predicate OnlySyncFieldsChanged(before: ExpenseEnt, after: ExpenseEnt) {
    after.(remoteId := before.remoteId, syncState := before.syncState) == before &&
    (before.syncState == DELETED ==> after.remoteId == before.remoteId)
  }

  /** The outcome of the push loop: the table, the requests sent, and the
      exception that stopped it, if one did. */
  datatype PushOutcome = PushOutcome(store: Dao.Store, sent: seq<Request>, failure: Option<Exception>)

  /** Sending the request for `local`, if it has one: the server's reply
      (none when nothing is sent) and the requests sent so far. */
  function Exchange(local: ExpenseEnt, userId: string, server: Server, now: int,
                    sent: seq<Request>): (Call<Option<string>>, seq<Request>)
  {
    var req := PushRequest(local, userId, now);
    if req.Some? then (server(|sent|, req.value), sent + [req.value]) else (Returned(None), sent)
  }

  /** The push loop over `pending` (a snapshot taken before it starts). */
  function PushFrom(s: Dao.Store, pending: seq<ExpenseEnt>, userId: string, server: Server, now: int,
                    sent: seq<Request>): PushOutcome
    decreases |pending|
  {
    if pending == [] then PushOutcome(s, sent, None)
    else
      var x := Exchange(pending[0], userId, server, now, sent);
      if x.0.Threw? then PushOutcome(s, x.1, Some(x.0.exception))
      else PushFrom(PushRow(s, pending[0], x.0.value), pending[1..], userId, server, now, x.1)
  }

  predicate ListsId(p: seq<ExpenseEnt>, id: int) {
    exists k :: 0 <= k < |p| && p[k].expenseId == id
  }

  predicate WasPushable(e: ExpenseEnt) {
    e.syncState == DIRTY || e.syncState == DELETED
  }

  /** The push loop over a snapshot of rows of the table, each listed once:
      rows not listed, or listed in a state other than DIRTY and DELETED,
      stay as they were; the others change only in remote id and state;
      and when no request throws, every listed DIRTY or DELETED row ends
      SYNCED. No row is added, dropped or moved. */
  lemma {:induction false} PushSyncsPendingRows(s: Dao.Store, p: seq<ExpenseEnt>, userId: string,
                                               server: Server, now: int, sent: seq<Request>)
    requires Dao.Consistent(s)
    requires Dao.IdsIncreasing(p)
    requires forall k :: 0 <= k < |p| ==> p[k] in s.rows
    ensures var o := PushFrom(s, p, userId, server, now, sent);
            && Dao.SameIds(s, o.store)
            && (forall j :: 0 <= j < |s.rows| && !(ListsId(p, s.rows[j].expenseId) && WasPushable(s.rows[j])) ==>
                  o.store.rows[j] == s.rows[j])
            && (forall j :: 0 <= j < |s.rows| ==> OnlySyncFieldsChanged(s.rows[j], o.store.rows[j]))
            && (o.failure.None? ==>
                  forall j :: 0 <= j < |s.rows| && ListsId(p, s.rows[j].expenseId) && WasPushable(s.rows[j]) ==>
                    o.store.rows[j].syncState == SYNCED)
    decreases |p|
  {
    if p != [] {
      var x := Exchange(p[0], userId, server, now, sent);
      if x.0.Returned? {
        var reply := x.0.value;
        var s1 := PushRow(s, p[0], reply);
        PushRowEffect(s, p[0], reply);
        Dao.SameIdsKeepConsistency(s, s1);
        var j0 := RestStillInTable(s, p, reply);
        var rest := p[1..];
        PushSyncsPendingRows(s1, rest, userId, server, now, x.1);
        var o := PushFrom(s, p, userId, server, now, sent);
        assert o == PushFrom(s1, rest, userId, server, now, x.1);
        forall j | 0 <= j < |s.rows|
          ensures !(ListsId(p, s.rows[j].expenseId) && WasPushable(s.rows[j])) ==> o.store.rows[j] == s.rows[j]
          ensures OnlySyncFieldsChanged(s.rows[j], o.store.rows[j])
          ensures o.failure.None? && ListsId(p, s.rows[j].expenseId) && WasPushable(s.rows[j]) ==>
                    o.store.rows[j].syncState == SYNCED
        {
          ComposeAt(s, s1, o.store, p, reply, j0, j, o.failure.None?);
        }
      }
    }
  }

  /** After the push of `p[0]`, the rest of the snapshot is still in the
      table, since each row's id is listed once; `j0` is where `p[0]` is. */
  lemma RestStillInTable(s: Dao.Store, p: seq<ExpenseEnt>, reply: Option<string>) returns (j0: int)
    requires Dao.Consistent(s) && Dao.IdsIncreasing(p) && p != []
    requires forall k :: 0 <= k < |p| ==> p[k] in s.rows
    ensures 0 <= j0 < |s.rows| && s.rows[j0] == p[0]
    ensures forall k :: 0 <= k < |p[1..]| ==> p[1..][k] in PushRow(s, p[0], reply).rows
  {
    var s1 := PushRow(s, p[0], reply);
    PushRowEffect(s, p[0], reply);
    j0 :| 0 <= j0 < |s.rows| && s.rows[j0] == p[0];
    forall k | 1 <= k < |p| ensures p[k] in s1.rows {
      var j :| 0 <= j < |s.rows| && s.rows[j] == p[k];
      assert p[0].expenseId < p[k].expenseId;
      assert s1.rows[j] == p[k];
    }
    forall k | 0 <= k < |p[1..]| ensures p[1..][k] in s1.rows {
      assert p[1..][k] == p[k + 1];
    }
  }

  /** The push over the pending list (`getPendingSync`: every non-SYNCED
      row, in table order) leaves, when no request throws, no DIRTY or
      DELETED row unsynced; whatever happens it only touches the remote id
      and state of DIRTY and DELETED rows. */
  lemma PushSettlesPendingRows(s: Dao.Store, p: seq<ExpenseEnt>, userId: string, server: Server, now: int)
    requires Dao.Consistent(s)
    requires forall x :: x in p <==> x in s.rows && Dao.IsPending(x)
    requires Dao.IdsIncreasing(p)
    ensures var o := PushFrom(s, p, userId, server, now, []);
            && Dao.SameIds(s, o.store)
            && (forall j :: 0 <= j < |s.rows| && !WasPushable(s.rows[j]) ==> o.store.rows[j] == s.rows[j])
            && (forall j :: 0 <= j < |s.rows| ==> OnlySyncFieldsChanged(s.rows[j], o.store.rows[j]))
            && (o.failure.None? ==> forall j :: 0 <= j < |s.rows| && WasPushable(s.rows[j]) ==> o.store.rows[j].syncState == SYNCED)
    ensures var o := PushFrom(s, p, userId, server, now, []);
            var n := FirstThrow(p, userId, server, now, [], 0);
            && (o.failure.None? <==> n == |p|)
            && (n < |p| ==> o.failure == Some(Reply(p, n, userId, server, now, []).exception))
            && (n < |p| ==> o.sent == Requests(p[..n + 1], userId, now))
            && (n == |p| ==> o.sent == Requests(p, userId, now))
            && (forall j, k :: 0 <= j < |s.rows| && 0 <= k < n && s.rows[j] == p[k] ==>
                  o.store.rows[j] == Pushed(s.rows[j], s.rows[j].syncState, Reply(p, k, userId, server, now, []).value))
            && (forall j :: 0 <= j < |s.rows| && !ListsId(p[..n], s.rows[j].expenseId) ==> o.store.rows[j] == s.rows[j])
  {
    PushSyncsPendingRows(s, p, userId, server, now, []);
    PushSendsInOrder(s, p, userId, server, now, []);
    PushWritesReplies(s, p, userId, server, now, []);
    assert forall r: seq<Request> :: [] + r == r;
    forall j | 0 <= j < |s.rows| && WasPushable(s.rows[j]) ensures ListsId(p, s.rows[j].expenseId) {
      assert s.rows[j] in p;
      var k :| 0 <= k < |p| && p[k] == s.rows[j];
    }
  }

  /** One row through a push step on `p[0]` and then the rest of the push. */
  lemma ComposeAt(s: Dao.Store, s1: Dao.Store, t: Dao.Store, p: seq<ExpenseEnt>, reply: Option<string>,
                  j0: int, j: int, done: bool)
    requires Dao.Consistent(s) && Dao.IdsIncreasing(p) && p != []
    requires 0 <= j0 < |s.rows| && s.rows[j0] == p[0]
    requires 0 <= j < |s.rows| && |s1.rows| == |s.rows| && |t.rows| == |s.rows|
    requires s1.rows[j] == if s.rows[j].expenseId == p[0].expenseId then Pushed(s.rows[j], p[0].syncState, reply)
                           else s.rows[j]
    requires !(ListsId(p[1..], s1.rows[j].expenseId) && WasPushable(s1.rows[j])) ==> t.rows[j] == s1.rows[j]
    requires OnlySyncFieldsChanged(s1.rows[j], t.rows[j])
    requires done && ListsId(p[1..], s1.rows[j].expenseId) && WasPushable(s1.rows[j]) ==> t.rows[j].syncState == SYNCED
    ensures !(ListsId(p, s.rows[j].expenseId) && WasPushable(s.rows[j])) ==> t.rows[j] == s.rows[j]
    ensures OnlySyncFieldsChanged(s.rows[j], t.rows[j])
    ensures done && ListsId(p, s.rows[j].expenseId) && WasPushable(s.rows[j]) ==> t.rows[j].syncState == SYNCED
  {
    var id := s.rows[j].expenseId;
    var rest := p[1..];
    assert s1.rows[j].expenseId == id;
    if id == p[0].expenseId {
      assert j == j0;
      assert !ListsId(rest, id) by {
        forall k | 0 <= k < |rest| ensures rest[k].expenseId != id {
          assert rest[k] == p[k + 1];
        }
      }
      assert ListsId(p, id) by { assert p[0].expenseId == id; }
      assert t.rows[j] == s1.rows[j];
    } else {
      assert ListsId(p, id) <==> ListsId(rest, id) by {
        if ListsId(p, id) {
          var k :| 0 <= k < |p| && p[k].expenseId == id;
          assert rest[k - 1].expenseId == id;
        }
        if ListsId(rest, id) {
          var k :| 0 <= k < |rest| && rest[k].expenseId == id;
          assert p[k + 1].expenseId == id;
        }
      }
    }
  }

  // ------------------------------------------------- push, reply by reply

  /** The request `local` sends, as a sequence of zero or one. */
  function SentFor(local: ExpenseEnt, userId: string, now: int): seq<Request> {
    var req := PushRequest(local, userId, now);
    if req.Some? then [req.value] else []
  }

  /** The requests of the rows of `p`, in order. */
  function Requests(p: seq<ExpenseEnt>, userId: string, now: int): seq<Request>
    decreases |p|
  {
    if p == [] then [] else SentFor(p[0], userId, now) + Requests(p[1..], userId, now)
  }

  /** The server's answer for `p[k]`: its request goes out after those of
      the rows before it, so it is answered as the request numbered by
      everything sent before. */
  function Reply(p: seq<ExpenseEnt>, k: int, userId: string, server: Server, now: int,
                 sent: seq<Request>): Call<Option<string>>
    requires 0 <= k < |p|
  {
    Exchange(p[k], userId, server, now, sent + Requests(p[..k], userId, now)).0
  }

  /** The first row from `from` on whose request throws, or `|p|` when
      none does. */
  function FirstThrow(p: seq<ExpenseEnt>, userId: string, server: Server, now: int,
                      sent: seq<Request>, from: nat): (n: nat)
    requires from <= |p|
    ensures from <= n <= |p|
    ensures forall k :: from <= k < n ==> Reply(p, k, userId, server, now, sent).Returned?
    ensures n < |p| ==> Reply(p, n, userId, server, now, sent).Threw?
    decreases |p| - from
  {
    if from == |p| then from
    else if Reply(p, from, userId, server, now, sent).Threw? then from
    else FirstThrow(p, userId, server, now, sent, from + 1)
  }

  /** `FirstThrow` from `from` is the only index from there on with its
      two properties. */
  lemma {:induction false} FirstThrowUnique(p: seq<ExpenseEnt>, userId: string, server: Server, now: int,
                                            sent: seq<Request>, from: nat, m: nat)
    requires from <= m <= |p|
    requires forall k :: from <= k < m ==> Reply(p, k, userId, server, now, sent).Returned?
    requires m < |p| ==> Reply(p, m, userId, server, now, sent).Threw?
    ensures FirstThrow(p, userId, server, now, sent, from) == m
    decreases m - from
  {
    if from < m {
      FirstThrowUnique(p, userId, server, now, sent, from + 1, m);
    }
  }

  /** The requests of a prefix of `p` are those of `p[0]` and then those of
      the prefix of the rest. */
  lemma RequestsOfPrefix(p: seq<ExpenseEnt>, m: int, userId: string, now: int)
    requires 1 <= m <= |p|
    ensures Requests(p[..m], userId, now) == SentFor(p[0], userId, now) + Requests(p[1..][..m - 1], userId, now)
  {
    assert p[..m][1..] == p[1..][..m - 1];
  }

  /** After `p[0]` is exchanged, the rest of the push answers the same. */
  lemma ReplyShift(p: seq<ExpenseEnt>, k: int, userId: string, server: Server, now: int, sent: seq<Request>)
    requires 0 <= k < |p| - 1
    ensures Reply(p, k + 1, userId, server, now, sent) ==
            Reply(p[1..], k, userId, server, now, sent + SentFor(p[0], userId, now))
  {
    RequestsOfPrefix(p, k + 1, userId, now);
    assert p[1..][k] == p[k + 1];
    assert sent + Requests(p[..k + 1], userId, now) ==
           sent + SentFor(p[0], userId, now) + Requests(p[1..][..k], userId, now);
  }

  /** When `p[0]` is answered, the first throw of `p` is one past that of
      the rest. */
  lemma FirstThrowShift(p: seq<ExpenseEnt>, userId: string, server: Server, now: int, sent: seq<Request>)
    requires p != [] && Reply(p, 0, userId, server, now, sent).Returned?
    ensures FirstThrow(p, userId, server, now, sent, 0) ==
            1 + FirstThrow(p[1..], userId, server, now, sent + SentFor(p[0], userId, now), 0)
  {
    var sent1 := sent + SentFor(p[0], userId, now);
    var n1 := FirstThrow(p[1..], userId, server, now, sent1, 0);
    AnsweredShift(p, userId, server, now, sent, n1);
    if 1 + n1 < |p| {
      ReplyShift(p, n1, userId, server, now, sent);
    }
    FirstThrowUnique(p, userId, server, now, sent, 0, 1 + n1);
  }

  /** The rows answered in the rest, shifted by one, are answered in `p`. */
  lemma AnsweredShift(p: seq<ExpenseEnt>, userId: string, server: Server, now: int, sent: seq<Request>, n1: nat)
    requires p != [] && n1 <= |p| - 1 && Reply(p, 0, userId, server, now, sent).Returned?
    requires forall q :: 0 <= q < n1 ==>
               Reply(p[1..], q, userId, server, now, sent + SentFor(p[0], userId, now)).Returned?
    ensures forall k :: 0 <= k < 1 + n1 ==> Reply(p, k, userId, server, now, sent).Returned?
  {
    forall k | 1 <= k < 1 + n1 ensures Reply(p, k, userId, server, now, sent).Returned? {
      ReplyShift(p, k - 1, userId, server, now, sent);
    }
  }

  /** The first exchange of a push is the reply for `p[0]`. */
  lemma ExchangeFirst(p: seq<ExpenseEnt>, userId: string, server: Server, now: int, sent: seq<Request>)
    requires p != []
    ensures Exchange(p[0], userId, server, now, sent).0 == Reply(p, 0, userId, server, now, sent)
    ensures Exchange(p[0], userId, server, now, sent).1 == sent + SentFor(p[0], userId, now)
  {
    assert p[..0] == [];
    assert sent + Requests([], userId, now) == sent;
  }

  /** `o` is what a push of `p` ends with: the requests of the rows in
      order, up to and including the first that throws, and that
      exception; with no throw, every row's request and no failure. */
  ghost predicate SentInOrder(o: PushOutcome, p: seq<ExpenseEnt>, userId: string, server: Server, now: int,
                              sent: seq<Request>)
  {
    var n := FirstThrow(p, userId, server, now, sent, 0);
    && (o.failure.None? <==> n == |p|)
    && (n < |p| ==> o.failure == Some(Reply(p, n, userId, server, now, sent).exception))
    && (n < |p| ==> o.sent == sent + Requests(p[..n + 1], userId, now))
    && (n == |p| ==> o.sent == sent + Requests(p, userId, now))
  }

  /** The push sends the requests of the rows in order, up to and including
      the first that throws, and stops with that exception; with no throw
      every row's request is sent. */
  lemma {:induction false} PushSendsInOrder(s: Dao.Store, p: seq<ExpenseEnt>, userId: string,
                                            server: Server, now: int, sent: seq<Request>)
    ensures SentInOrder(PushFrom(s, p, userId, server, now, sent), p, userId, server, now, sent)
    decreases |p|
  {
    if p != [] {
      ExchangeFirst(p, userId, server, now, sent);
      var x := Exchange(p[0], userId, server, now, sent);
      if x.0.Threw? {
        RequestsOfPrefix(p, 1, userId, now);
        assert p[1..][..0] == [];
      } else {
        var s1 := PushRow(s, p[0], x.0.value);
        PushSendsInOrder(s1, p[1..], userId, server, now, x.1);
        assert PushFrom(s, p, userId, server, now, sent) == PushFrom(s1, p[1..], userId, server, now, x.1);
        SentStep(PushFrom(s, p, userId, server, now, sent), p, userId, server, now, sent);
      }
    }
  }

  /** The answered exchange of `p[0]` followed by the push of the rest. */
  lemma SentStep(o: PushOutcome, p: seq<ExpenseEnt>, userId: string, server: Server, now: int, sent: seq<Request>)
    requires p != [] && Reply(p, 0, userId, server, now, sent).Returned?
    requires SentInOrder(o, p[1..], userId, server, now, sent + SentFor(p[0], userId, now))
    ensures SentInOrder(o, p, userId, server, now, sent)
  {
    var sent1 := sent + SentFor(p[0], userId, now);
    var rest := p[1..];
    FirstThrowShift(p, userId, server, now, sent);
    var n1 := FirstThrow(rest, userId, server, now, sent1, 0);
    if n1 < |rest| {
      ReplyShift(p, n1, userId, server, now, sent);
      RequestsOfPrefix(p, n1 + 2, userId, now);
      ConcatAssoc(sent, SentFor(p[0], userId, now), Requests(rest[..n1 + 1], userId, now));
    } else {
      ConcatAssoc(sent, SentFor(p[0], userId, now), Requests(rest, userId, now));
    }
  }

  lemma ConcatAssoc(a: seq<Request>, b: seq<Request>, c: seq<Request>)
    ensures a + (b + c) == (a + b) + c
  {
  }

  /** The head's id is not in the rest of an id-ordered snapshot. */
  lemma HeadNotInRest(p: seq<ExpenseEnt>, m: int)
    requires Dao.IdsIncreasing(p) && p != [] && 0 <= m <= |p| - 1
    ensures !ListsId(p[1..][..m], p[0].expenseId)
  {
    forall k | 0 <= k < m ensures p[1..][..m][k].expenseId != p[0].expenseId {
      assert p[1..][..m][k] == p[k + 1];
    }
  }

  /** An id not among the first `m + 1` rows is neither the head's nor
      among the first `m` of the rest. */
  lemma UnlistedInRest(p: seq<ExpenseEnt>, m: int, id: int)
    requires p != [] && 0 <= m <= |p| - 1 && !ListsId(p[..m + 1], id)
    ensures id != p[0].expenseId && !ListsId(p[1..][..m], id)
  {
    assert p[..m + 1][0] == p[0];
    forall k | 0 <= k < m ensures p[1..][..m][k].expenseId != id {
      assert p[1..][..m][k] == p[..m + 1][k + 1];
    }
  }

  /** One listed row through a push step on `p[0]` and then the rest: it
      ends written with its own reply. */
  lemma WrittenWithReply(s: Dao.Store, s1: Dao.Store, t: Dao.Store, p: seq<ExpenseEnt>, userId: string,
                         server: Server, now: int, sent: seq<Request>, n1: nat, j: int, k: int)
    requires Dao.Consistent(s) && Dao.IdsIncreasing(p) && p != [] && n1 <= |p| - 1
    requires forall q :: 0 <= q < 1 + n1 ==> Reply(p, q, userId, server, now, sent).Returned?
    requires n1 == FirstThrow(p[1..], userId, server, now, sent + SentFor(p[0], userId, now), 0)
    requires 0 <= j < |s.rows| && |t.rows| == |s.rows| && 0 <= k < 1 + n1 && s.rows[j] == p[k]
    requires PushRow(s, p[0], Reply(p, 0, userId, server, now, sent).value) == s1
    requires forall i :: 0 <= i < |s.rows| && s.rows[i].expenseId != p[0].expenseId ==> s1.rows[i] == s.rows[i]
    requires forall i :: 0 <= i < |s.rows| && s.rows[i].expenseId == p[0].expenseId ==>
               s1.rows[i] == Pushed(s.rows[i], p[0].syncState, Reply(p, 0, userId, server, now, sent).value)
    requires forall i :: 0 <= i < |s.rows| && !ListsId(p[1..][..n1], s1.rows[i].expenseId) ==> t.rows[i] == s1.rows[i]
    requires forall i, q :: 0 <= i < |s.rows| && 0 <= q < n1 && s1.rows[i] == p[1..][q] ==>
               t.rows[i] == Pushed(s1.rows[i], s1.rows[i].syncState,
                                   Reply(p[1..], q, userId, server, now, sent + SentFor(p[0], userId, now)).value)
    ensures t.rows[j] == Pushed(s.rows[j], s.rows[j].syncState, Reply(p, k, userId, server, now, sent).value)
  {
    if k == 0 {
      HeadNotInRest(p, n1);
      assert s1.rows[j].expenseId == p[0].expenseId;
    } else {
      assert p[0].expenseId < p[k].expenseId;
      assert s1.rows[j] == p[1..][k - 1];
      ReplyShift(p, k - 1, userId, server, now, sent);
    }
  }

  /** Every row through a push step on `p[0]` and then the rest: the rows
      answered are written with their own replies, the others stay. */
  lemma ComposeReplies(s: Dao.Store, s1: Dao.Store, t: Dao.Store, p: seq<ExpenseEnt>, userId: string,
                       server: Server, now: int, sent: seq<Request>, n1: nat)
    requires Dao.Consistent(s) && Dao.IdsIncreasing(p) && p != [] && n1 <= |p| - 1
    requires forall q :: 0 <= q < 1 + n1 ==> Reply(p, q, userId, server, now, sent).Returned?
    requires n1 == FirstThrow(p[1..], userId, server, now, sent + SentFor(p[0], userId, now), 0)
    requires |t.rows| == |s.rows|
    requires PushRow(s, p[0], Reply(p, 0, userId, server, now, sent).value) == s1
    requires forall i :: 0 <= i < |s.rows| && s.rows[i].expenseId != p[0].expenseId ==> s1.rows[i] == s.rows[i]
    requires forall i :: 0 <= i < |s.rows| && s.rows[i].expenseId == p[0].expenseId ==>
               s1.rows[i] == Pushed(s.rows[i], p[0].syncState, Reply(p, 0, userId, server, now, sent).value)
    requires forall i :: 0 <= i < |s.rows| && !ListsId(p[1..][..n1], s1.rows[i].expenseId) ==> t.rows[i] == s1.rows[i]
    requires forall i, q :: 0 <= i < |s.rows| && 0 <= q < n1 && s1.rows[i] == p[1..][q] ==>
               t.rows[i] == Pushed(s1.rows[i], s1.rows[i].syncState,
                                   Reply(p[1..], q, userId, server, now, sent + SentFor(p[0], userId, now)).value)
    ensures forall j, k :: 0 <= j < |s.rows| && 0 <= k < 1 + n1 && s.rows[j] == p[k] ==>
              t.rows[j] == Pushed(s.rows[j], s.rows[j].syncState, Reply(p, k, userId, server, now, sent).value)
    ensures forall j :: 0 <= j < |s.rows| && !ListsId(p[..1 + n1], s.rows[j].expenseId) ==> t.rows[j] == s.rows[j]
  {
    forall j, k | 0 <= j < |s.rows| && 0 <= k < 1 + n1 && s.rows[j] == p[k]
      ensures t.rows[j] == Pushed(s.rows[j], s.rows[j].syncState, Reply(p, k, userId, server, now, sent).value)
    {
      WrittenWithReply(s, s1, t, p, userId, server, now, sent, n1, j, k);
    }
    forall j | 0 <= j < |s.rows| && !ListsId(p[..1 + n1], s.rows[j].expenseId)
      ensures t.rows[j] == s.rows[j]
    {
      UnlistedInRest(p, n1, s.rows[j].expenseId);
    }
  }

  /** `t` is `s` after a push of `p` as far as the first throw: each row
      answered before it is written as `Pushed`, in the state it was listed
      in, with the server's reply to its own request; every other row stays
      as it was. */
  ghost predicate RepliesWritten(s: Dao.Store, t: Dao.Store, p: seq<ExpenseEnt>, userId: string,
                                 server: Server, now: int, sent: seq<Request>)
  {
    var n := FirstThrow(p, userId, server, now, sent, 0);
    && |t.rows| == |s.rows|
    && (forall j, k :: 0 <= j < |s.rows| && 0 <= k < n && s.rows[j] == p[k] ==>
          t.rows[j] == Pushed(s.rows[j], s.rows[j].syncState, Reply(p, k, userId, server, now, sent).value))
    && (forall j :: 0 <= j < |s.rows| && !ListsId(p[..n], s.rows[j].expenseId) ==> t.rows[j] == s.rows[j])
  }

  /** The push writes each row with its own reply, as far as the first
      throw, and leaves every other row as it was. */
  lemma {:induction false} PushWritesReplies(s: Dao.Store, p: seq<ExpenseEnt>, userId: string,
                                             server: Server, now: int, sent: seq<Request>)
    requires Dao.Consistent(s)
    requires Dao.IdsIncreasing(p)
    requires forall k :: 0 <= k < |p| ==> p[k] in s.rows
    ensures RepliesWritten(s, PushFrom(s, p, userId, server, now, sent).store, p, userId, server, now, sent)
    decreases |p|
  {
    if p != [] {
      ExchangeFirst(p, userId, server, now, sent);
      var x := Exchange(p[0], userId, server, now, sent);
      if x.0.Returned? {
        var s1 := PushRow(s, p[0], x.0.value);
        PushStepKeeps(s, p, x.0.value);
        PushWritesReplies(s1, p[1..], userId, server, now, x.1);
        PushReplyStep(s, p, userId, server, now, sent);
      } else {
        assert p[..0] == [];
        assert FirstThrow(p, userId, server, now, sent, 0) == 0;
        assert PushFrom(s, p, userId, server, now, sent).store == s;
      }
    }
  }

  /** A push step keeps what the push of the rest needs. */
  lemma PushStepKeeps(s: Dao.Store, p: seq<ExpenseEnt>, reply: Option<string>)
    requires Dao.Consistent(s) && Dao.IdsIncreasing(p) && p != []
    requires forall k :: 0 <= k < |p| ==> p[k] in s.rows
    ensures Dao.Consistent(PushRow(s, p[0], reply))
    ensures Dao.IdsIncreasing(p[1..])
    ensures forall k :: 0 <= k < |p[1..]| ==> p[1..][k] in PushRow(s, p[0], reply).rows
  {
    PushRowEffect(s, p[0], reply);
    Dao.SameIdsKeepConsistency(s, PushRow(s, p[0], reply));
    var _ := RestStillInTable(s, p, reply);
  }

  /** The answered push of `p[0]` followed by the push of the rest. */
  lemma PushReplyStep(s: Dao.Store, p: seq<ExpenseEnt>, userId: string, server: Server, now: int,
                      sent: seq<Request>)
    requires Dao.Consistent(s) && Dao.IdsIncreasing(p) && p != []
    requires forall k :: 0 <= k < |p| ==> p[k] in s.rows
    requires Reply(p, 0, userId, server, now, sent).Returned?
    requires var s1 := PushRow(s, p[0], Reply(p, 0, userId, server, now, sent).value);
             var sent1 := sent + SentFor(p[0], userId, now);
             RepliesWritten(s1, PushFrom(s1, p[1..], userId, server, now, sent1).store, p[1..], userId, server, now, sent1)
    ensures RepliesWritten(s, PushFrom(s, p, userId, server, now, sent).store, p, userId, server, now, sent)
  {
    ExchangeFirst(p, userId, server, now, sent);
    var reply := Reply(p, 0, userId, server, now, sent).value;
    var s1 := PushRow(s, p[0], reply);
    var sent1 := sent + SentFor(p[0], userId, now);
    PushRowEffect(s, p[0], reply);
    FirstThrowShift(p, userId, server, now, sent);
    var o := PushFrom(s, p, userId, server, now, sent);
    assert o == PushFrom(s1, p[1..], userId, server, now, sent1);
    var n1 := FirstThrow(p[1..], userId, server, now, sent1, 0);
    ComposeReplies(s, s1, o.store, p, userId, server, now, sent, n1);
  }

  // ----------------------------------------------------------------- pull

  /** The local write for one fetched remote row: skipped without an id; a
      deleted remote row marks the local row with that remote id (if any)
      deleted at the remote instant; a live one overwrites that local row,
      keeping its id, or is inserted as a new row. */
  function PullRow(s: Dao.Store, remote: RemoteExpense): Dao.Store {
    if remote.id.None? then s
    else
      var existing := Dao.FirstWithRemoteId(s.rows, remote.id.value);
      if remote.deletedAt.Some? then
        if existing.Some? then Dao.MarkDeleted(s, {existing.value.expenseId}, remote.deletedAt.value, SYNCED) else s
      else if existing.None? then Dao.InsertReplace(s, FromRemote(remote, 0))
      else Dao.Update(s, FromRemote(remote, existing.value.expenseId))
  }

  /** The pull loop over the fetched rows, in order. */
  function PullAll(s: Dao.Store, remotes: seq<RemoteExpense>): Dao.Store
    decreases |remotes|
  {
    if remotes == [] then s else PullAll(PullRow(s, remotes[0]), remotes[1..])
  }

  lemma PullKeepsConsistency(s: Dao.Store, remote: RemoteExpense)
    requires Dao.Consistent(s)
    ensures Dao.Consistent(PullRow(s, remote))
  {
    if remote.id.Some? {
      var existing := Dao.FirstWithRemoteId(s.rows, remote.id.value);
      if remote.deletedAt.Some? && existing.Some? {
        Dao.SameIdsKeepConsistency(s, PullRow(s, remote));
      } else if remote.deletedAt.None? && existing.Some? {
        Dao.InPlaceWritesKeepIds(s, FromRemote(remote, existing.value.expenseId), {}, 0, 0, 0, "");
        Dao.SameIdsKeepConsistency(s, PullRow(s, remote));
      }
    }
  }

  /** Remote rows without an id are skipped, and a deleted remote row with
      no local counterpart creates nothing. */
  lemma PullSkips(s: Dao.Store, remote: RemoteExpense)
    requires remote.id.None? ||
             (remote.deletedAt.Some? &&
              forall i :: 0 <= i < |s.rows| ==> !Dao.HasRemoteId(s.rows[i], remote.id.value))
    ensures PullRow(s, remote) == s
  {
  }

  /** A deleted remote row marks the local row with its remote id deleted
      at the remote instant, SYNCED, and changes nothing else. */
  lemma PullMarksDeleted(s: Dao.Store, remote: RemoteExpense, j: int)
    requires Dao.Consistent(s)
    requires remote.id.Some? && remote.deletedAt.Some?
    requires 0 <= j < |s.rows| && Dao.FirstWithRemoteId(s.rows, remote.id.value) == Some(s.rows[j])
    ensures |PullRow(s, remote).rows| == |s.rows|
    ensures PullRow(s, remote).rows[j] == s.rows[j].(deletedAt := remote.deletedAt, syncState := SYNCED)
    ensures forall i :: 0 <= i < |s.rows| && i != j ==> PullRow(s, remote).rows[i] == s.rows[i]
  {
    forall i | 0 <= i < |s.rows| && i != j ensures s.rows[i].expenseId != s.rows[j].expenseId {
      if i < j { assert s.rows[i].expenseId < s.rows[j].expenseId; }
      if j < i { assert s.rows[j].expenseId < s.rows[i].expenseId; }
    }
  }

  /** A live remote row with a local counterpart overwrites it in place,
      keeping its `expenseId`, not deleted and SYNCED. */
  lemma PullOverwrites(s: Dao.Store, remote: RemoteExpense, j: int)
    requires Dao.Consistent(s)
    requires remote.id.Some? && remote.deletedAt.None?
    requires 0 <= j < |s.rows| && Dao.FirstWithRemoteId(s.rows, remote.id.value) == Some(s.rows[j])
    ensures |PullRow(s, remote).rows| == |s.rows|
    ensures PullRow(s, remote).rows[j] == FromRemote(remote, s.rows[j].expenseId)
    ensures forall i :: 0 <= i < |s.rows| && i != j ==> PullRow(s, remote).rows[i] == s.rows[i]
  {
    forall i | 0 <= i < |s.rows| && i != j ensures s.rows[i].expenseId != s.rows[j].expenseId {
      if i < j { assert s.rows[i].expenseId < s.rows[j].expenseId; }
      if j < i { assert s.rows[j].expenseId < s.rows[i].expenseId; }
    }
  }

  /** A live remote row without a local counterpart is appended as a new
      SYNCED row with a fresh id. */
  lemma PullInserts(s: Dao.Store, remote: RemoteExpense)
    requires Dao.Consistent(s)
    requires remote.id.Some? && remote.deletedAt.None?
    requires forall i :: 0 <= i < |s.rows| ==> !Dao.HasRemoteId(s.rows[i], remote.id.value)
    ensures PullRow(s, remote).rows == s.rows + [FromRemote(remote, s.nextId)]
  {
    Dao.InsertReplaceRows(s, FromRemote(remote, 0));
  }

  /** After a live remote row is pulled, the table's row for that remote id
      is the remote row itself. */
  lemma PullThenLookup(s: Dao.Store, remote: RemoteExpense)
    requires Dao.Consistent(s)
    requires remote.id.Some? && remote.deletedAt.None?
    ensures var t := PullRow(s, remote);
            var found := Dao.FirstWithRemoteId(t.rows, remote.id.value);
            found.Some? && found.value == FromRemote(remote, found.value.expenseId)
  {
    var rid := remote.id.value;
    var t := PullRow(s, remote);
    var existing := Dao.FirstWithRemoteId(s.rows, rid);
    if existing.None? {
      PullInserts(s, remote);
      FirstAfterAppend(s.rows, FromRemote(remote, s.nextId), rid);
    } else {
      var j :| 0 <= j < |s.rows| && s.rows[j] == existing.value;
      PullOverwrites(s, remote, j);
      FirstAfterOverwrite(s.rows, t.rows, j, rid);
    }
  }

  lemma {:induction false} FirstAfterAppend(rows: seq<ExpenseEnt>, e: ExpenseEnt, rid: string)
    requires forall i :: 0 <= i < |rows| ==> !Dao.HasRemoteId(rows[i], rid)
    requires Dao.HasRemoteId(e, rid)
    ensures Dao.FirstWithRemoteId(rows + [e], rid) == Some(e)
  {
    if rows != [] {
      assert (rows + [e])[1..] == rows[1..] + [e];
      FirstAfterAppend(rows[1..], e, rid);
    }
  }

  lemma {:induction false} FirstAfterOverwrite(before: seq<ExpenseEnt>, after: seq<ExpenseEnt>, j: int, rid: string)
    requires |before| == |after| && 0 <= j < |before|
    requires Dao.FirstWithRemoteId(before, rid) == Some(before[j])
    requires forall i :: 0 <= i < |before| && i != j ==> after[i] == before[i]
    requires Dao.HasRemoteId(after[j], rid)
    requires forall i :: 0 <= i < j ==> !Dao.HasRemoteId(before[i], rid)
    ensures Dao.FirstWithRemoteId(after, rid) == Some(after[j])
    decreases j
  {
    if j > 0 {
      assert !Dao.HasRemoteId(before[0], rid);
      assert after[0] == before[0];
      assert forall i :: 0 <= i < |before[1..]| && i != j - 1 ==> after[1..][i] == before[1..][i];
      FirstAfterOverwrite(before[1..], after[1..], j - 1, rid);
    }
  }

  // ------------------------------------------------------------- two-way

  /** The outcome of a two-way sync: its result, the table after it, and
      the requests it sent. */
  datatype TwoWay = TwoWay(result: Result<SyncResult>, store: Dao.Store, sent: seq<Request>)

  /** The two-way sync on table `s`: no user, no work; else the push of the
      pending rows, stopped by the first request that throws; then, if the
      fetch succeeds, the pull of every fetched row. */
  function TwoWaySpec(s: Dao.Store, userId: Option<string>, server: Server, now: int,
                      fetched: Call<seq<RemoteExpense>>): TwoWay
  {
    if userId.None? then TwoWay(Error(Failure("Not authenticated")), s, [])
    else
      var push := PushFrom(s, Dao.PendingRows(s.rows), userId.value, server, now, []);
      if push.failure.Some? then TwoWay(Error(push.failure.value), push.store, push.sent)
      else if fetched.Threw? then TwoWay(Error(fetched.exception), push.store, push.sent)
      else TwoWay(Success(SyncResult(|fetched.value|, false)), PullAll(push.store, fetched.value), push.sent)
  }

  /** Without a signed-in user the sync fails with "Not authenticated",
      sends nothing and writes nothing. The sync succeeds exactly when no
      push request throws and the fetch succeeds, and then counts every
      fetched row, skipped ones included. A failure keeps the push writes
      already made. This is the case split of `TwoWaySpec`, stated in the
      terms its callers use; it holds by unfolding the definition. */
  lemma TwoWayOutcomes(s: Dao.Store, userId: Option<string>, server: Server, now: int,
                       fetched: Call<seq<RemoteExpense>>)
    ensures var spec := TwoWaySpec(s, userId, server, now, fetched);
            userId.None? ==> spec == TwoWay(Error(Failure("Not authenticated")), s, [])
    ensures var spec := TwoWaySpec(s, userId, server, now, fetched);
            userId.Some? ==>
              var push := PushFrom(s, Dao.PendingRows(s.rows), userId.value, server, now, []);
              && spec.sent == push.sent
              && (spec.result.Success? <==> push.failure.None? && fetched.Returned?)
              && (spec.result.Success? ==> spec.result.data == SyncResult(|fetched.value|, false) &&
                                           spec.store == PullAll(push.store, fetched.value))
              && (!spec.result.Success? ==> spec.result.Error? && spec.store == push.store)
  {
  }

  /** After a successful sync no row of the table is DIRTY or DELETED. */
  lemma SuccessLeavesNothingToPush(s: Dao.Store, userId: Option<string>, server: Server, now: int,
                                   fetched: Call<seq<RemoteExpense>>)
    requires Dao.Consistent(s)
    ensures var spec := TwoWaySpec(s, userId, server, now, fetched);
            spec.result.Success? ==> forall x :: x in spec.store.rows ==> !WasPushable(x)
  {
    if userId.Some? {
      var p := Dao.PendingRows(s.rows);
      var push := PushFrom(s, p, userId.value, server, now, []);
      if push.failure.None? && fetched.Returned? {
        PushSettlesPendingRows(s, p, userId.value, server, now);
        Dao.SameIdsKeepConsistency(s, push.store);
        forall x | x in push.store.rows ensures !WasPushable(x) {
          var j :| 0 <= j < |push.store.rows| && push.store.rows[j] == x;
        }
        PullAllKeepsNothingToPush(push.store, fetched.value);
      }
    }
  }

  predicate NothingToPush(s: Dao.Store) {
    forall x :: x in s.rows ==> !WasPushable(x)
  }

  lemma PullKeepsNothingToPush(s: Dao.Store, remote: RemoteExpense)
    requires Dao.Consistent(s) && NothingToPush(s)
    ensures Dao.Consistent(PullRow(s, remote)) && NothingToPush(PullRow(s, remote))
  {
    PullKeepsConsistency(s, remote);
    var t := PullRow(s, remote);
    if remote.id.Some? {
      var existing := Dao.FirstWithRemoteId(s.rows, remote.id.value);
      if existing.Some? {
        var j :| 0 <= j < |s.rows| && s.rows[j] == existing.value;
        if remote.deletedAt.Some? {
          PullMarksDeleted(s, remote, j);
        } else {
          PullOverwrites(s, remote, j);
        }
        OneRowSynced(s, t, j);
      } else if remote.deletedAt.None? {
        PullInserts(s, remote);
        AppendSynced(s, t, FromRemote(remote, s.nextId));
      }
    }
  }

  /** Overwriting one row with a row not to push leaves nothing to push. */
  lemma OneRowSynced(s: Dao.Store, t: Dao.Store, j: int)
    requires NothingToPush(s) && |t.rows| == |s.rows| && 0 <= j < |s.rows| && !WasPushable(t.rows[j])
    requires forall i :: 0 <= i < |s.rows| && i != j ==> t.rows[i] == s.rows[i]
    ensures NothingToPush(t)
  {
    forall x | x in t.rows ensures !WasPushable(x) {
      var i :| 0 <= i < |t.rows| && t.rows[i] == x;
      if i != j {
        assert s.rows[i] in s.rows;
      }
    }
  }

  /** Appending a row not to push leaves nothing to push. */
  lemma AppendSynced(s: Dao.Store, t: Dao.Store, e: ExpenseEnt)
    requires NothingToPush(s) && t.rows == s.rows + [e] && !WasPushable(e)
    ensures NothingToPush(t)
  {
    forall x | x in t.rows ensures !WasPushable(x) {
      var i :| 0 <= i < |t.rows| && t.rows[i] == x;
      if i < |s.rows| {
        assert s.rows[i] in s.rows;
      }
    }
  }

  lemma {:induction false} PullAllKeepsNothingToPush(s: Dao.Store, remotes: seq<RemoteExpense>)
    requires Dao.Consistent(s) && NothingToPush(s)
    ensures NothingToPush(PullAll(s, remotes))
    decreases |remotes|
  {
    if remotes != [] {
      PullKeepsNothingToPush(s, remotes[0]);
      PullAllKeepsNothingToPush(PullRow(s, remotes[0]), remotes[1..]);
    }
  }

  // ---------------------------------------------------------------- class

  /** The rows a download stores: every fetched row, new, SYNCED. */
  function Downloaded(remotes: seq<RemoteExpense>): (es: seq<ExpenseEnt>)
    ensures |es| == |remotes|
    ensures forall i :: 0 <= i < |remotes| ==> es[i] == FromRemote(remotes[i], 0) && AsksForFreshId(es[i])
  {
    seq(|remotes|, i requires 0 <= i < |remotes| => FromRemote(remotes[i], 0))
  }

  /** Into an empty table, the download stores every fetched row in order
      under consecutive fresh ids. */
  lemma DownloadStores(s: Dao.Store, remotes: seq<RemoteExpense>)
    requires Dao.Consistent(s) && s.rows == []
    ensures Dao.InsertAll(s, Downloaded(remotes)).Returned?
    ensures var t := Dao.InsertAll(s, Downloaded(remotes)).value.0;
            && |t.rows| == |remotes| && t.nextId == s.nextId + |remotes|
            && forall i :: 0 <= i < |remotes| ==> t.rows[i] == FromRemote(remotes[i], s.nextId + i)
  {
    var es := Downloaded(remotes);
    Dao.InsertAllFresh(s, es, []);
    Dao.NumberedAt(es, s.nextId);
    assert s.rows + Dao.Numbered(es, s.nextId) == Dao.Numbered(es, s.nextId);
  }

  class SupabaseSyncRepository {
    const expenseDao: Dao.ExpenseDao
    const settingsRepository: Settings.SettingsRepository

    constructor(expenseDao: Dao.ExpenseDao, settingsRepository: Settings.SettingsRepository)
      ensures this.expenseDao == expenseDao && this.settingsRepository == settingsRepository
    {
      this.expenseDao := expenseDao;
      this.settingsRepository := settingsRepository;
    }

    /** `syncDownExpenses`: a table that has any row is left alone and the
        download reported skipped; otherwise every fetched row is stored,
        in order, under consecutive fresh ids, and counted. A failed fetch
        is reported and changes nothing. */
    method SyncDownExpenses(fetched: Call<seq<RemoteExpense>>) returns (r: Result<SyncResult>)
      requires expenseDao.Valid()
      modifies expenseDao
      ensures expenseDao.Valid()
      ensures old(expenseDao.rows) != [] ==>
                r == Success(SyncResult(0, true)) && expenseDao.State() == old(expenseDao.State())
      ensures old(expenseDao.rows) == [] && fetched.Threw? ==>
                r == Error(fetched.exception) && expenseDao.State() == old(expenseDao.State())
      ensures old(expenseDao.rows) == [] && fetched.Returned? ==>
                && r == Success(SyncResult(|fetched.value|, false))
                && |expenseDao.rows| == |fetched.value|
                && expenseDao.nextId == old(expenseDao.nextId) + |fetched.value|
                && forall i :: 0 <= i < |fetched.value| ==>
                     expenseDao.rows[i] == FromRemote(fetched.value[i], old(expenseDao.nextId) + i)
    {
      var localCount := |expenseDao.rows|;
      if localCount > 0 {
        return Success(SyncResult(0, true));
      }
      if fetched.Threw? {
        return Error(fetched.exception);
      }
      var remote := fetched.value;
      var entities := Downloaded(remote);
      ghost var s0 := expenseDao.State();
      if entities != [] {
        DownloadStores(s0, remote);
        var _ := expenseDao.InsertExpenseAll(entities);
      }
      r := Success(SyncResult(|entities|, false));
    }

    /** `syncTwoWay`, as `TwoWaySpec` says; the sync time is saved exactly
        when the sync succeeds. */
    method SyncTwoWay(userId: Option<string>, server: Server, now: int,
                      fetched: Call<seq<RemoteExpense>>, finishedAt: int)
      returns (r: Result<SyncResult>, sent: seq<Request>)
      requires expenseDao.Valid()
      modifies expenseDao, settingsRepository
      ensures expenseDao.Valid()
      ensures var spec := TwoWaySpec(old(expenseDao.State()), userId, server, now, fetched);
              && r == spec.result && sent == spec.sent && expenseDao.State() == spec.store
              && settingsRepository.settings ==
                   if r.Success? then old(settingsRepository.settings).(lastSyncAt := finishedAt)
                   else old(settingsRepository.settings)
    {
      sent := [];
      if userId.None? {
        return Error(Failure("Not authenticated")), sent;
      }
      var failure;
      failure, sent := PushPending(userId.value, server, now);
      if failure.Some? {
        return Error(failure.value), sent;
      }
      if fetched.Threw? {
        return Error(fetched.exception), sent;
      }
      PullRemote(fetched.value);
      var remoteChanges := fetched.value;
      settingsRepository.SetLastSyncAt(finishedAt);
      r := Success(SyncResult(|remoteChanges|, false));
    }

    /** The push loop of `syncTwoWay` over the rows pending at its start. */
    method PushPending(userId: string, server: Server, now: int) returns (failure: Option<Exception>, sent: seq<Request>)
      requires expenseDao.Valid()
      modifies expenseDao
      ensures expenseDao.Valid()
      ensures var push := PushFrom(old(expenseDao.State()), Dao.PendingRows(old(expenseDao.rows)), userId, server, now, []);
              failure == push.failure && sent == push.sent && expenseDao.State() == push.store
    {
      sent := [];
      failure := None;
      var pending := expenseDao.GetPendingSync();
      ghost var push := PushFrom(expenseDao.State(), pending, userId, server, now, []);
      var i := 0;
      while i < |pending|
        invariant 0 <= i <= |pending|
        invariant expenseDao.Valid()
        invariant push == PushFrom(expenseDao.State(), pending[i..], userId, server, now, sent)
      {
        var local := pending[i];
        ghost var before := expenseDao.State();
        var x := Exchange(local, userId, server, now, sent);
        var reply := x.0;
        sent := x.1;
        assert pending[i..][0] == local;
        if reply.Threw? {
          return Some(reply.exception), sent;
        }
        assert pending[i..][1..] == pending[i + 1..];
        WriteBack(local, reply.value);
        i := i + 1;
      }
      assert pending[i..] == [];
    }

    /** The local write after one row's push. */
    method WriteBack(local: ExpenseEnt, reply: Option<string>)
      requires expenseDao.Valid()
      modifies expenseDao
      ensures expenseDao.Valid()
      ensures expenseDao.State() == PushRow(old(expenseDao.State()), local, reply)
    {
      if local.syncState == DIRTY {
        if !IsNullOrBlank(reply) {
          expenseDao.UpdateRemoteIdAndSyncState(local.expenseId, reply.value, SYNCED);
        } else {
          expenseDao.UpdateSyncState(local.expenseId, SYNCED);
        }
      } else if local.syncState == DELETED {
        expenseDao.UpdateSyncState(local.expenseId, SYNCED);
      }
    }

    /** The pull loop of `syncTwoWay` over the fetched rows. */
    /** One pass of the pull loop: the local write for one fetched row. */
    method PullOne(remote: RemoteExpense)
      requires expenseDao.Valid()
      modifies expenseDao
      ensures expenseDao.Valid()
      ensures expenseDao.State() == PullRow(old(expenseDao.State()), remote)
    {
      if remote.id.Some? {
        var remoteId := remote.id.value;
        var existing := expenseDao.GetByRemoteId(remoteId);
        if remote.deletedAt.Some? {
          if existing.Some? {
            expenseDao.MarkDeletedById(existing.value.expenseId, remote.deletedAt.value, SYNCED);
          }
        } else {
          var entity := FromRemote(remote, if existing.Some? then existing.value.expenseId else 0);
          if existing.None? {
            var _ := expenseDao.InsertExpense(entity);
          } else {
            var _ := expenseDao.UpdateExpense(entity);
          }
        }
      }
    }

    method PullRemote(remoteChanges: seq<RemoteExpense>)
      requires expenseDao.Valid()
      modifies expenseDao
      ensures expenseDao.Valid()
      ensures expenseDao.State() == PullAll(old(expenseDao.State()), remoteChanges)
    {
      ghost var pulled := PullAll(expenseDao.State(), remoteChanges);
      var i := 0;
      while i < |remoteChanges|
        invariant 0 <= i <= |remoteChanges|
        invariant expenseDao.Valid()
        invariant pulled == PullAll(expenseDao.State(), remoteChanges[i..])
      {
        PullOne(remoteChanges[i]);
        assert remoteChanges[i..][1..] == remoteChanges[i + 1..];
        i := i + 1;
      }
      assert remoteChanges[i..] == [];
    }
  }
}

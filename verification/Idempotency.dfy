/** Idempotent creation: one payment per key, whatever requests race, replies are lost or cache
    entries expire. */
module Idempotency {
  import opened Domain
  import opened Tables
  import opened Journal
  import opened Protocol
  import opened Safety

  /** The body describes the payment of its key, in some state it has or had. */
  predicate Names(db: Db, key: string, body: Body) {
    && key in db.idem && body.id == db.idem[key].paymentId && body.id < |db.payments|
    && SamePurchase(body, ResponseOf(body.id, db.payments[body.id]))
  }

  /** The fields of a reply that never change. */
  predicate SamePurchase(a: Body, b: Body) {
    && a.id == b.id && a.amount == b.amount && a.currency == b.currency && a.metadata == b.metadata
    && a.correlationId == b.correlationId && a.createdAt == b.createdAt
  }

  predicate KeyOk(db: Db, key: string)
    requires key in db.idem
  {
    && db.idem[key].statusCode == 201 && Names(db, key, db.idem[key].body)
    && db.idem[key].paymentId == db.idem[key].body.id
  }

  predicate HasKey(db: Db, key: string, id: PaymentId) {
    key in db.idem && db.idem[key].paymentId == id
  }

  ghost predicate Keyed(db: Db, id: PaymentId) {
    exists k :: HasKey(db, k, id)
  }

  /** Keys and payments correspond one to one. */
  ghost predicate OneKeyEach(db: Db) {
    && (forall k | k in db.idem :: KeyOk(db, k))
    && (forall k, l | k in db.idem && l in db.idem && k != l :: db.idem[k].paymentId != db.idem[l].paymentId)
    && (forall id | 0 <= id < |db.payments| :: Keyed(db, id))
  }

  predicate ApiOk(db: Db, p: Proc) {
    match p
    case ApiCreated(key) => key in db.idem
    case ApiBuilt(key, body) => Names(db, key, body)
    case ApiReady(key, body) => Names(db, key, body)
    case _ => true
  }

  ghost predicate IdemInv(w: World) {
    && OneKeyEach(w.db)
    && (forall i | 0 <= i < |w.procs| :: ApiOk(w.db, w.procs[i]))
    && (forall k | k in w.cache :: Names(w.db, k, w.cache[k]))
    && (forall n | 0 <= n < |w.replies| :: Names(w.db, w.replies[n].key, w.replies[n].body))
  }

  lemma NamesPersist(db: Db, db': Db, key: string, body: Body)
    requires Evolves(db, db') && Names(db, key, body)
    ensures Names(db', key, body)
  {
    assert Later(db.payments[body.id], db'.payments[body.id]);
  }

  lemma ApiPersists(db: Db, db': Db, p: Proc)
    requires Evolves(db, db') && ApiOk(db, p)
    ensures ApiOk(db', p)
  {
    if p.ApiBuilt? || p.ApiReady? { NamesPersist(db, db', p.key, p.body); }
  }

  lemma CommitKeepsIdem(db: Db, tx: Tx)
    ensures tx.CreateTx? && tx.key !in db.idem ==>
              && |Commit(db, tx).payments| == |db.payments| + 1
              && Commit(db, tx).idem.Keys == db.idem.Keys + {tx.key}
              && KeyOk(Commit(db, tx), tx.key) && HasKey(Commit(db, tx), tx.key, |db.payments|)
    ensures !(tx.CreateTx? && tx.key !in db.idem) ==>
              |Commit(db, tx).payments| == |db.payments| && Commit(db, tx).idem == db.idem
  {
  }

  lemma CommitKeepsOneKey(db: Db, tx: Tx)
    requires OneKeyEach(db) && Admissible(db, tx)
    ensures OneKeyEach(Commit(db, tx))
  {
    var after := Commit(db, tx);
    CommitKeepsIdem(db, tx);
    CommitEvolves(db, tx);
    forall k | k in after.idem ensures KeyOk(after, k) {
      if k in db.idem {
        assert KeyOk(db, k);
        NamesPersist(db, after, k, db.idem[k].body);
      }
    }
    forall id | 0 <= id < |after.payments| ensures Keyed(after, id) {
      if id < |db.payments| {
        assert Keyed(db, id);
        var k :| HasKey(db, k, id);
        assert HasKey(after, k, id);
      } else {
        assert HasKey(after, tx.key, id);
      }
    }
  }

  /** What an API handler stores or answers is justified by the tables it has just read. */
  lemma ApiActs(w: World, p: Proc, c: Choice)
    requires IdemInv(w) && ApiOk(w.db, p)
    ensures var e := EffectOf(w, p, c);
            && ApiOk(Commit(w.db, e.tx), e.next)
            && (e.cached.Some? ==> Names(w.db, e.cached.value.key, e.cached.value.body))
            && (e.replied.Some? ==> Names(w.db, e.replied.value.key, e.replied.value.body))
  {
    if IsApi(p) {
      ApiMoves(w, p, c);
      assert EffectOf(w, p, c) == ApiEffect(w, p, c);
    } else {
      OthersAnswerNothing(w, p, c);
    }
  }

  lemma ApiMoves(w: World, p: Proc, c: Choice)
    requires IdemInv(w) && ApiOk(w.db, p) && IsApi(p)
    ensures var e := ApiEffect(w, p, c);
            && ApiOk(Commit(w.db, e.tx), e.next)
            && (e.cached.Some? ==> Names(w.db, e.cached.value.key, e.cached.value.body))
            && (e.replied.Some? ==> Names(w.db, e.replied.value.key, e.replied.value.body))
  {
    if (p.ApiMissed? || p.ApiCreated?) && p.key in w.db.idem { assert KeyOk(w.db, p.key); }
  }

  lemma OthersAnswerNothing(w: World, p: Proc, c: Choice)
    requires !IsApi(p)
    ensures var e := EffectOf(w, p, c); e.cached.None? && e.replied.None? && !IsApi(e.next)
  {
  }

  lemma AdvanceKeepsIdem(w: World, i: nat, c: Choice)
    requires Inv(w) && IdemInv(w) && i < |w.procs|
    ensures IdemInv(Apply(w, i, EffectOf(w, w.procs[i], c)))
  {
    var e := EffectOf(w, w.procs[i], c);
    assert ProcOk(w.db, w.bus, w.limit, w.procs[i]);
    ApiActs(w, w.procs[i], c);
    StageAdmissible(w, w.procs[i], c);
    ApplyKeepsIdem(w, i, e);
  }

  lemma ApplyKeepsIdem(w: World, i: nat, e: Effect)
    requires IdemInv(w) && i < |w.procs| && Admissible(w.db, e.tx) && ApiOk(Commit(w.db, e.tx), e.next)
    requires e.cached.Some? ==> Names(w.db, e.cached.value.key, e.cached.value.body)
    requires e.replied.Some? ==> Names(w.db, e.replied.value.key, e.replied.value.body)
    ensures IdemInv(Apply(w, i, e))
  {
    var w' := Apply(w, i, e);
    CommitKeepsOneKey(w.db, e.tx);
    CommitEvolves(w.db, e.tx);
    forall j | 0 <= j < |w'.procs| ensures ApiOk(w'.db, w'.procs[j]) {
      if j != i { ApiPersists(w.db, w'.db, w.procs[j]); }
    }
    forall k | k in w'.cache ensures Names(w'.db, k, w'.cache[k]) {
      NamesPersist(w.db, w'.db, k, w'.cache[k]);
    }
    forall n | 0 <= n < |w'.replies| ensures Names(w'.db, w'.replies[n].key, w'.replies[n].body) {
      NamesPersist(w.db, w'.db, w'.replies[n].key, w'.replies[n].body);
    }
  }

  lemma NextKeepsIdem(w: World, a: Action)
    requires Inv(w) && IdemInv(w) && Enabled(w, a)
    ensures IdemInv(Next(w, a))
  {
    if a.Advance? {
      AdvanceKeepsIdem(w, a.proc, a.choice);
    } else if a.PublishFails? {
      ApplyKeepsIdem(w, a.proc, Do(FailureTx(w.procs[a.proc].row, a.error), Gone));
    }
  }

  lemma {:induction false} HistoryIdem(ws: seq<World>, actions: seq<Action>, k: nat)
    requires IsHistory(ws, actions) && k < |ws|
    ensures IdemInv(ws[k])
  {
    if k > 0 {
      HistoryIdem(ws, actions, k - 1);
      HistoryInv(ws, actions, k - 1);
      NextKeepsIdem(ws[k - 1], actions[k - 1]);
    }
  }

  /** At every moment, keys and payments are in one-to-one correspondence, each payment has exactly one
      creation entry (the first of its journal) and one `payment.initiated` row, and a cached reply
      names the payment its table row names. */
  lemma OnePaymentPerKey(ws: seq<World>, actions: seq<Action>, k: nat)
    requires IsHistory(ws, actions) && k < |ws|
    ensures OneKeyEach(ws[k].db)
    ensures forall id | 0 <= id < |ws[k].db.payments| ::
              && CountTopic(LettersOf(ws[k].db.outbox, id), PaymentInitiated) == 1
              && LegalJournal(EventsOf(ws[k].db.events, id))
              && (forall n | 0 <= n < |EventsOf(ws[k].db.events, id)| ::
                    EventsOf(ws[k].db.events, id)[n] == Initiated <==> n == 0)
    ensures forall key | key in ws[k].cache ::
              key in ws[k].db.idem && ws[k].cache[key].id == ws[k].db.idem[key].paymentId
  {
    HistoryIdem(ws, actions, k);
    HistoryInv(ws, actions, k);
    forall id | 0 <= id < |ws[k].db.payments|
      ensures CountTopic(LettersOf(ws[k].db.outbox, id), PaymentInitiated) == 1
      ensures LegalJournal(EventsOf(ws[k].db.events, id))
      ensures forall n | 0 <= n < |EventsOf(ws[k].db.events, id)| ::
                EventsOf(ws[k].db.events, id)[n] == Initiated <==> n == 0
    {
      assert Journalled(ws[k].db, id);
      JournalAccounts(ws[k].db, id);
      LegalJournalShape(EventsOf(ws[k].db.events, id));
    }
  }

  /** All 201 replies ever sent for one key, from cache, table or creation, agree on id, amount,
      currency, metadata, correlation id and creation time. */
  lemma RepliesAgree(ws: seq<World>, actions: seq<Action>, k: nat, m: nat, n: nat)
    requires IsHistory(ws, actions) && k < |ws| && m < |ws[k].replies| && n < |ws[k].replies|
    requires ws[k].replies[m].key == ws[k].replies[n].key
    ensures SamePurchase(ws[k].replies[m].body, ws[k].replies[n].body)
  {
    HistoryIdem(ws, actions, k);
    assert Names(ws[k].db, ws[k].replies[m].key, ws[k].replies[m].body);
    assert Names(ws[k].db, ws[k].replies[n].key, ws[k].replies[n].body);
  }

  /** The blanks are ECMAScript's white space and line terminators: tab, line feed, vertical tab, form feed, carriage
      return, space, no-break space, the Unicode space separators, line and paragraph separator, and the byte order
      mark. */
  lemma BlankCodes(c: char)
    ensures IsBlank(c) <==>
              c as int in {9, 10, 11, 12, 13, 32, 160, 5760, 8192, 8193, 8194, 8195, 8196, 8197, 8198, 8199, 8200,
                           8201, 8202, 8232, 8233, 8239, 8287, 12288, 65279}
  {
  }

  predicate AllBlank(s: string) {
    forall i | 0 <= i < |s| :: IsBlank(s[i])
  }

  /** `t` is the part of `s` left when only blanks are dropped, at the ends. */
  predicate IsCore(s: string, i: nat, j: nat, t: string) {
    i <= j <= |s| && t == s[i..j] && AllBlank(s[..i]) && AllBlank(s[j..])
  }

  lemma CoreAfterFront(s: string, i: nat, j: nat, t: string)
    requires s != "" && IsBlank(s[0]) && IsCore(s[1..], i, j, t)
    ensures IsCore(s, i + 1, j + 1, t)
  {
    assert s[..i + 1] == [s[0]] + s[1..][..i];
    assert s[j + 1..] == s[1..][j..];
  }

  lemma CoreBeforeBack(s: string, i: nat, j: nat, t: string)
    requires s != "" && IsBlank(s[|s| - 1]) && IsCore(s[..|s| - 1], i, j, t)
    ensures IsCore(s, i, j, t)
  {
    assert s[..i] == s[..|s| - 1][..i];
    assert s[j..] == s[..|s| - 1][j..] + [s[|s| - 1]];
  }

  lemma {:induction false} TrimDropsBlanks(s: string) returns (i: nat, j: nat)
    ensures IsCore(s, i, j, Trim(s))
    decreases |s|
  {
    i, j := 0, |s|;
    if s != "" && IsBlank(s[0]) {
      i, j := TrimDropsBlanks(s[1..]);
      CoreAfterFront(s, i, j, Trim(s));
      i, j := i + 1, j + 1;
    } else if s != "" && IsBlank(s[|s| - 1]) {
      i, j := TrimDropsBlanks(s[..|s| - 1]);
      CoreBeforeBack(s, i, j, Trim(s));
    }
  }

  lemma {:induction false} TrimLeavesNoBlankEnd(s: string)
    ensures Trim(s) != "" ==> !IsBlank(Trim(s)[0]) && !IsBlank(Trim(s)[|Trim(s)| - 1])
    ensures Trim(Trim(s)) == Trim(s)
    decreases |s|
  {
    if s != "" {
      if IsBlank(s[0]) {
        TrimLeavesNoBlankEnd(s[1..]);
      } else if IsBlank(s[|s| - 1]) {
        TrimLeavesNoBlankEnd(s[..|s| - 1]);
      }
    }
  }

  /** The key of a request is its trimmed header: what is left has no blank at either end, what is dropped is
      only blanks at the ends, and trimming again changes nothing. */
  lemma TrimIsNormal(s: string)
    ensures Trim(s) != "" ==> !IsBlank(Trim(s)[0]) && !IsBlank(Trim(s)[|Trim(s)| - 1])
    ensures exists i: nat, j: nat :: IsCore(s, i, j, Trim(s))
    ensures Trim(Trim(s)) == Trim(s)
  {
    TrimLeavesNoBlankEnd(s);
    var i, j := TrimDropsBlanks(s);
  }
}

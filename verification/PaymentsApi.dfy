/** `POST /payments` as it runs: the idempotency middleware in front of the cache and the key table, then
    creation. The cache forgets, the table does not. */
module PaymentsApi {
  import opened Domain
  import opened Tables
  import opened Journal
  import opened Store
  import opened Protocol
  import opened Safety
  import opened Idempotency
  import opened Workers

  const TTL_MS: nat := 24 * 60 * 60 * 1000

  datatype Entry = Entry(body: Body, statusCode: nat, expiresAt: Instant)

  /** What the cache still answers for a key. */
  function Hit(entries: map<string, Entry>, key: string, now: Instant): Option<Entry> {
    if key in entries && now < entries[key].expiresAt then Some(entries[key]) else None
  }

  class IdempotencyCache {
    var entries: map<string, Entry>

    constructor ()
      ensures entries == map[]
    {
      entries := map[];
    }

    method GetCachedResponse(key: string, now: Instant) returns (hit: Option<Entry>)
      ensures hit == Hit(entries, key, now)
    {
      if key !in entries || entries[key].expiresAt <= now {
        return None;
      }
      hit := Some(entries[key]);
    }

    method SetCachedResponse(key: string, body: Body, statusCode: nat, now: Instant)
      modifies this
      ensures entries == old(entries)[key := Entry(body, statusCode, now + TTL_MS)]
      ensures forall t: nat :: Hit(entries, key, t).Some? <==> t < now + 86400000
    {
      entries := entries[key := Entry(body, statusCode, now + TTL_MS)];
    }

    method DeleteCachedResponse(key: string)
      modifies this
      ensures entries == old(entries) - {key}
    {
      entries := entries - {key};
    }
  }

  datatype HttpReply = Invalid | Answered(statusCode: nat, body: Body)

  /** Everything one request leaves behind. */
  datatype Posted = Posted(db: Db, entries: map<string, Entry>, reply: HttpReply)

  /** A request that meets no other. */
  function Post(db: Db, entries: map<string, Entry>, header: Option<string>, input: CreateInput, now: Instant): Posted {
    var key := if header.Some? then Trim(header.value) else "";
    var hit := Hit(entries, key, now);
    if key == "" then Posted(db, entries, Invalid)
    else if hit.Some? then Posted(db, entries, Answered(hit.value.statusCode, hit.value.body))
    else if key in db.idem then
      var row := db.idem[key];
      Posted(db, entries[key := Entry(row.body, row.statusCode, now + TTL_MS)], Answered(row.statusCode, row.body))
    else if input.amount <= 0.0 then Posted(db, entries, Invalid)
    else
      var body := ResponseOf(|db.payments|, NewPayment(input, now));
      Posted(Commit(db, CreateTx(key, input, now)), entries[key := Entry(body, 201, now + TTL_MS)], Answered(201, body))
  }

  /** Every cached reply is a 201 about the payment its key's row names. */
  ghost predicate Faithful(db: Db, entries: map<string, Entry>) {
    OneKeyEach(db) && forall k | k in entries :: entries[k].statusCode == 201 && Names(db, k, entries[k].body)
  }

  class Api {
    const store: PaymentStore
    const cache: IdempotencyCache

    constructor (store: PaymentStore, cache: IdempotencyCache)
      ensures this.store == store && this.cache == cache
    {
      this.store, this.cache := store, cache;
    }

    /** Middleware, controller and service in one go. An absent or blank header and an amount that is not
        positive are both refused before anything is written. */
    method Create(header: Option<string>, input: CreateInput, now: Instant) returns (reply: HttpReply)
      requires Faithful(store.View(), cache.entries)
      modifies store, cache
      ensures Faithful(store.View(), cache.entries)
      ensures Posted(store.View(), cache.entries, reply)
                == Post(old(store.View()), old(cache.entries), header, input, now)
    {
      PostKeepsFaith(store.View(), cache.entries, header, input, now);
      if header.None? || |Trim(header.value)| == 0 {
        return Invalid;
      }
      var normalized := Trim(header.value);
      var hit := cache.GetCachedResponse(normalized, now);
      if hit.Some? {
        return Answered(hit.value.statusCode, hit.value.body);
      }
      if normalized in store.idem {
        var row := store.idem[normalized];
        cache.SetCachedResponse(normalized, row.body, row.statusCode, now);
        return Answered(row.statusCode, row.body);
      }
      var body := store.CreatePayment(normalized, input, now);
      if body.None? {
        return Invalid;
      }
      cache.SetCachedResponse(normalized, body.value, 201, now);
      return Answered(201, body.value);
    }
  }

  lemma CachingKeepsFaith(db: Db, entries: map<string, Entry>, key: string, body: Body, expiresAt: Instant)
    requires Faithful(db, entries) && Names(db, key, body)
    ensures Faithful(db, entries[key := Entry(body, 201, expiresAt)])
  {
  }

  lemma CreatingKeepsFaith(db: Db, entries: map<string, Entry>, key: string, input: CreateInput, now: Instant)
    requires Faithful(db, entries) && key !in db.idem
    ensures var after := Commit(db, CreateTx(key, input, now));
            Faithful(after, entries) && Names(after, key, ResponseOf(|db.payments|, NewPayment(input, now)))
  {
    var tx := CreateTx(key, input, now);
    CommitKeepsOneKey(db, tx);
    CommitEvolves(db, tx);
    CommitKeepsIdem(db, tx);
    forall k | k in entries ensures Names(Commit(db, tx), k, entries[k].body) {
      NamesPersist(db, Commit(db, tx), k, entries[k].body);
    }
  }

  lemma PostKeepsFaith(db: Db, entries: map<string, Entry>, header: Option<string>, input: CreateInput, now: Instant)
    requires Faithful(db, entries)
    ensures Faithful(Post(db, entries, header, input, now).db, Post(db, entries, header, input, now).entries)
  {
    var key := if header.Some? then Trim(header.value) else "";
    if key != "" && Hit(entries, key, now).None? {
      if key in db.idem {
        assert KeyOk(db, key);
        CachingKeepsFaith(db, entries, key, db.idem[key].body, now + TTL_MS);
      } else if input.amount > 0.0 {
        var body := ResponseOf(|db.payments|, NewPayment(input, now));
        CreatingKeepsFaith(db, entries, key, input, now);
        CachingKeepsFaith(Commit(db, CreateTx(key, input, now)), entries, key, body, now + TTL_MS);
      }
    }
  }

  predicate CreatesOne(db: Db, after: Db) {
    && |after.payments| == |db.payments| + 1 && |after.events| == |db.events| + 1
    && |after.outbox| == |db.outbox| + 1 && |after.idem| == |db.idem| + 1
  }

  /** A request adds one payment, journal entry, outbox row and key exactly when its key is neither blank nor
      taken and its amount is positive, and changes no table otherwise: with a faithful cache, neither a hit nor
      a miss there makes a difference. */
  lemma CreatesExactlyWhenNew(
    db: Db, entries: map<string, Entry>, header: Option<string>, input: CreateInput, now: Instant)
    requires Faithful(db, entries)
    ensures var after := Post(db, entries, header, input, now).db;
            if header.Some? && Trim(header.value) != "" && Trim(header.value) !in db.idem && input.amount > 0.0
            then CreatesOne(db, after) else after == db
  {
    var key := if header.Some? then Trim(header.value) else "";
    if Hit(entries, key, now).Some? { assert Names(db, key, entries[key].body); }
    if key !in db.idem { GrowsByOne(db.idem, key, CreateCommit(db, key, input, now).idem[key]); }
  }

  lemma GrowsByOne(m: map<string, IdemRow>, key: string, row: IdemRow)
    requires key !in m
    ensures |m[key := row]| == |m| + 1
  {
    assert m[key := row].Keys == m.Keys + {key};
    assert |m[key := row].Keys| == |m[key := row]| && |m.Keys| == |m|;
  }

  /** A request is refused exactly when its key is blank, or new with an amount that is not positive; a refusal changes
      nothing. Any other is answered and leaves its answer in the cache: a hit word for word and untouched, a known key
      with its stored snapshot, each of the rest kept for another day; no other key's entry changes. */
  lemma AnswersAreCached(db: Db, entries: map<string, Entry>, header: string, input: CreateInput, now: Instant)
    requires Faithful(db, entries)
    ensures var key, after := Trim(header), Post(db, entries, Some(header), input, now);
            && (after.reply.Invalid? <==> key == "" || (key !in db.idem && input.amount <= 0.0))
            && (after.reply.Invalid? ==> after.db == db && after.entries == entries)
            && (after.reply.Answered? ==>
                  && key in after.entries && after.reply.body == after.entries[key].body
                  && after.reply.statusCode == after.entries[key].statusCode
                  && after.entries - {key} == entries - {key}
                  && (Hit(entries, key, now).Some? ==> after.entries == entries)
                  && (Hit(entries, key, now).None? ==> after.entries[key].expiresAt == now + 86400000)
                  && (Hit(entries, key, now).None? && key in db.idem ==>
                        after.reply.body == db.idem[key].body && after.reply.statusCode == db.idem[key].statusCode))
    ensures Post(db, entries, None, input, now) == Posted(db, entries, Invalid)
  {
    if Hit(entries, Trim(header), now).Some? { assert Names(db, Trim(header), entries[Trim(header)].body); }
  }

  /** The body of a reply shows the row column by column. */
  lemma ResponseShowsRow(id: PaymentId, p: Payment)
    ensures var b := ResponseOf(id, p);
            && b.id == id && b.amount == p.amount && b.currency == p.currency && b.metadata == p.metadata
            && b.correlationId == p.correlationId && b.createdAt == p.createdAt && b.status == p.status
            && b.gatewayRef == p.gatewayRef && b.failureReason == p.failureReason && b.retryCount == p.retryCount
  {
  }

  /** The purchase a new key is answered with is the one asked for, still untouched, and it is what the tables
      and the cache hold. */
  lemma NewPurchaseIsAsAsked(
    db: Db, entries: map<string, Entry>, header: Option<string>, input: CreateInput, now: Instant)
    requires Faithful(db, entries) && header.Some? && Trim(header.value) != "" && Trim(header.value) !in db.idem
    requires input.amount > 0.0
    ensures var after, id := Post(db, entries, header, input, now), |db.payments|;
            && after.reply.Answered? && after.reply.statusCode == 201
            && after.reply.body == Body(id, input.amount, input.currency, input.metadata, input.correlationId, now,
                                        Pending, None, None, 0)
            && after.reply.body == ResponseOf(id, after.db.payments[id]) == after.db.idem[Trim(header.value)].body
            && after.db.payments[..id] == db.payments
            && Hit(after.entries, Trim(header.value), now) == Some(Entry(after.reply.body, 201, now + TTL_MS))
  {
    CreatesExactlyWhenNew(db, entries, header, input, now);
  }

  /** Once a key has been answered, every later request with it, with any body, at any time, through any cache
      and after any other activity, is answered 201 about the same purchase, and writes no table. */
  lemma {:induction false} RepeatIsReplay(
    db: Db, entries: map<string, Entry>, header: Option<string>, input: CreateInput, now: Instant,
    db': Db, entries': map<string, Entry>, header': Option<string>, input': CreateInput, now': Instant)
    requires Faithful(db, entries) && Faithful(db', entries')
    requires Post(db, entries, header, input, now).reply.Answered?
    requires Evolves(Post(db, entries, header, input, now).db, db')
    requires header.Some? && header'.Some? && Trim(header'.value) == Trim(header.value)
    ensures var first, again := Post(db, entries, header, input, now), Post(db', entries', header', input', now');
            && again.db == db'
            && again.reply.Answered? && again.reply.statusCode == first.reply.statusCode == 201
            && SamePurchase(again.reply.body, first.reply.body)
  {
    var key := Trim(header.value);
    var first := Post(db, entries, header, input, now);
    AnswerNames(db, entries, header, input, now);
    NamesPersist(first.db, db', key, first.reply.body);
    AnswerNames(db', entries', header', input', now');
  }

  lemma AnswerNames(db: Db, entries: map<string, Entry>, header: Option<string>, input: CreateInput, now: Instant)
    requires Faithful(db, entries) && header.Some?
    ensures var after := Post(db, entries, header, input, now);
            && (after.reply.Answered? ==>
                  after.reply.statusCode == 201 && Names(after.db, Trim(header.value), after.reply.body))
            && (Trim(header.value) != "" && Trim(header.value) in db.idem ==> after.db == db && after.reply.Answered?)
  {
    var key := Trim(header.value);
    if key in db.idem { assert KeyOk(db, key); }
    CommitKeepsIdem(db, CreateTx(key, input, now));
  }

  // ---- A request alone is a run of the protocol -------------------------------------------

  lemma ApiStep(w: World, i: nat, c: Choice) returns (v: World)
    requires i < |w.procs| && IsApi(w.procs[i])
    ensures v == Apply(w, i, ApiEffect(w, w.procs[i], c))
    ensures forall end :: RunsTo(v, end, i, c) ==> RunsTo(w, end, i, c)
  {
    ApiAdvances(w, i, c);
    v := Next(w, Advance(i, c));
    forall end | RunsTo(v, end, i, c) ensures RunsTo(w, end, i, c) {
      RunsOn(w, end, i, c);
    }
  }

  lemma ApiAdvances(w: World, i: nat, c: Choice)
    requires i < |w.procs| && IsApi(w.procs[i])
    ensures Enabled(w, Advance(i, c)) && Next(w, Advance(i, c)) == Apply(w, i, ApiEffect(w, w.procs[i], c))
  {
    var p := w.procs[i];
    assert p != Gone && EffectOf(w, p, c) == ApiEffect(w, p, c);
  }

  /** The handler has answered: with this body, or not with a 201. */
  predicate Answers(w: World, end: World, i: nat, key: string, body: Option<Body>)
    requires i < |w.procs|
  {
    && end.procs == w.procs[i := Gone]
    && end.replies == w.replies + if body.Some? then [Reply(key, body.value)] else []
  }

  lemma BuiltRuns(w: World, i: nat, c: Choice) returns (end: World)
    requires i < |w.procs| && w.procs[i].ApiBuilt?
    ensures RunsTo(w, end, i, c) && end.db == w.db
    ensures Answers(w, end, i, w.procs[i].key, Some(w.procs[i].body))
    ensures end.cache == w.cache[w.procs[i].key := w.procs[i].body]
  {
    var v := ApiStep(w, i, c);
    end := ApiStep(v, i, c);
    RunsNowhere(end, i, c);
  }

  /** The reply of `Post` as the protocol sees it: its body, if it is a 201. */
  function BodyOf(reply: HttpReply): Option<Body> {
    if reply.Answered? then Some(reply.body) else None
  }

  lemma AdmittedRuns(w: World, i: nat, c: Choice) returns (end: World)
    requires i < |w.procs| && w.procs[i].ApiAdmitted? && w.procs[i].key !in w.db.idem
    ensures RunsTo(w, end, i, c)
    ensures var p, id := w.procs[i], |w.db.payments|;
            if p.input.amount <= 0.0 then end.db == w.db && Answers(w, end, i, p.key, None)
            else end.db == Commit(w.db, CreateTx(p.key, p.input, c.now))
                 && Answers(w, end, i, p.key, Some(ResponseOf(id, NewPayment(p.input, c.now))))
  {
    var v := ApiStep(w, i, c);
    if w.procs[i].input.amount <= 0.0 {
      end := v;
      RunsNowhere(end, i, c);
    } else {
      var x := ApiStep(v, i, c);
      end := BuiltRuns(x, i, c);
    }
  }

  /** A request that meets no other takes the tables, and answers, exactly as `Post` says, whatever of the
      cache is still alive. */
  lemma SoloRequestIsPost(w: World, i: nat, c: Choice, header: string, entries: map<string, Entry>) returns (end: World)
    requires i < |w.procs| && w.procs[i].ApiStarted? && w.procs[i].key == Trim(header) != ""
    requires var hit := Hit(entries, Trim(header), c.now);
             if hit.Some? then Trim(header) in w.cache && w.cache[Trim(header)] == hit.value.body
             else Trim(header) !in w.cache
    ensures RunsTo(w, end, i, c)
    ensures var after := Post(w.db, entries, Some(header), w.procs[i].input, c.now);
            end.db == after.db && Answers(w, end, i, Trim(header), BodyOf(after.reply))
  {
    var key := Trim(header);
    var v := ApiStep(w, i, c);
    if key in w.cache {
      end := v;
      RunsNowhere(end, i, c);
    } else {
      var x := ApiStep(v, i, c);
      if key in w.db.idem {
        end := BuiltRuns(x, i, c);
      } else {
        end := AdmittedRuns(x, i, c);
      }
    }
  }
}

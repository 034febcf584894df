/** The outbox publisher as it runs: claim up to fifty of the oldest unpublished rows, publish each, mark it
    published or note the failure; poll again. */
module OutboxPublisher {
  import opened Domain
  import opened Tables
  import opened Store
  import opened Protocol
  import opened OutboxBatches
  import opened OutboxProgress

  class Publisher {
    const store: PaymentStore
    var bus: seq<Message>

    constructor (store: PaymentStore)
      ensures this.store == store && bus == []
    {
      this.store, bus := store, [];
    }

    method ClaimBatch(limit: nat) returns (rows: seq<nat>)
      ensures rows == Batch(store.outbox, limit)
    {
      rows := PendingRows(store.outbox);
      if |rows| > limit {
        rows := rows[..limit];
      }
    }

    /** The body of the loop: publish then mark; an error in either is caught and noted on the row. */
    method PublishRow(r: nat, fate: Fate) returns (marked: bool)
      requires r < |store.outbox|
      modifies this`bus, store`outbox
      ensures store.outbox == old(store.outbox)[r := Dealt(old(store.outbox)[r], fate)]
      ensures bus == old(bus) + if fate.Sent() then [MessageOf(old(store.outbox)[r], r)] else []
      ensures var was, now, message := old(store.outbox)[r], store.outbox[r], bus[|old(bus)|..];
              match fate
              case Delivered => now.published && now.lastError == None && IsMessage(message, r, was)
              case Refused(_) => now.published == was.published && now.attempts == was.attempts + 1 && message == []
              case Unmarked(_) =>
                now.published == was.published && now.attempts == was.attempts + 1 && IsMessage(message, r, was)
              case Broken(sent) => now == was && if sent then IsMessage(message, r, was) else message == []
      ensures marked <==> fate.Delivered?
    {
      marked := false;
      if fate.Sent() {
        bus := bus + [MessageOf(store.outbox[r], r)];
      }
      match fate
      case Delivered =>
        store.MarkPublished(r);
        marked := true;
      case Refused(error) => store.MarkFailure(r, error);
      case Unmarked(markError) => store.MarkFailure(r, markError);
      case Broken(_) =>
    }

    method PublishPendingBatch(fate: nat -> Fate) returns (count: Option<nat>)
      modifies this`bus, store`outbox
      ensures old(bus) <= bus
      ensures BatchOutcome(old(store.outbox), fate, store.outbox, bus[|old(bus)|..], count)
    {
      var n := 0;
      ghost var was, sends := store.outbox, [];
      var rows := ClaimBatch(BATCH);
      NoneDealt(was, fate);
      for i := 0 to |rows|
        invariant DealtSoFar(was, i, fate, store.outbox, sends, n)
        invariant bus == old(bus) + sends
      {
        OneMore(was, i, fate, store.outbox, sends, n);
        sends := sends + Sent(store.outbox, rows[i], fate);
        var marked := PublishRow(rows[i], fate(rows[i]));
        if marked { n := n + 1; }
        if fate(rows[i]).Broken? {
          return None;
        }
      }
      AllDealt(was, fate, store.outbox, sends, n);
      count := Some(n);
    }

    /** `runLoop` until it has polled that often; an error that ends a batch is caught. */
    method RunLoop(polls: nat, fates: nat -> nat -> Fate)
      modifies this`bus, store`outbox
      ensures store.outbox == AfterPolls(old(store.outbox), fates, polls)
      ensures old(bus) <= bus && AtLeastOnce(old(store.outbox), store.outbox, bus[|old(bus)|..])
      ensures Drains(old(store.outbox), fates, polls, store.outbox)
    {
      ghost var was, sends := store.outbox, [];
      NothingPolled(was, fates);
      for poll := 0 to polls
        invariant bus == old(bus) + sends
        invariant PolledSoFar(was, fates, poll, store.outbox, sends)
      {
        ghost var now, before := store.outbox, bus;
        var count := PublishPendingBatch(fates(poll));
        PolledAgain(was, fates, poll, now, sends, store.outbox, bus[|before|..], count);
        sends := sends + bus[|before|..];
      }
      PollsDrain(was, fates, polls);
      assert bus[|old(bus)|..] == sends;
    }
  }

  /** The one message the row calls for. */
  predicate IsMessage(sent: seq<Message>, r: nat, row: OutboxRow) {
    sent == [Message(row.aggregateId, row.payload, Some(r), false)]
  }

  ghost predicate PolledSoFar(
    was: seq<OutboxRow>, fates: nat -> nat -> Fate, polls: nat, now: seq<OutboxRow>, sends: seq<Message>)
  {
    now == AfterPolls(was, fates, polls) && AtLeastOnce(was, now, sends)
  }

  lemma NothingPolled(was: seq<OutboxRow>, fates: nat -> nat -> Fate)
    ensures PolledSoFar(was, fates, 0, was, [])
  {
  }

  lemma PolledAgain(
    was: seq<OutboxRow>, fates: nat -> nat -> Fate, polls: nat, now: seq<OutboxRow>, sends: seq<Message>,
    next: seq<OutboxRow>, more: seq<Message>, count: Option<nat>)
    requires PolledSoFar(was, fates, polls, now, sends) && BatchOutcome(now, fates(polls), next, more, count)
    ensures PolledSoFar(was, fates, polls + 1, next, sends + more)
  {
    BatchIsAtLeastOnce(now, fates(polls), next, more, count);
    AtLeastOnceTwice(was, now, next, sends, more);
  }
}

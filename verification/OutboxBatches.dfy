/** Batches of the outbox: which rows are claimed, what becomes of each, and what is sent. */
module OutboxBatches {
  import opened Domain
  import opened Tables
  import opened Journal
  import opened Protocol
  import opened Safety

  const BATCH: nat := 50

  /** What becomes of one row: published and marked; refused by the broker; published, but the mark failed; or
      refused or unmarked with even the failure not recorded, which ends the batch. */
  datatype Fate = Delivered | Refused(error: string) | Unmarked(markError: string) | Broken(sent: bool)
  {
    predicate Sent() {
      !Refused? && (Broken? ==> sent)
    }
  }

  /** Unpublished rows, oldest first. */
  function PendingRows(outbox: seq<OutboxRow>): seq<nat> {
    if outbox == [] then []
    else
      var n := |outbox| - 1;
      PendingRows(outbox[..n]) + if outbox[n].published then [] else [n]
  }

  ghost function Unpublished(outbox: seq<OutboxRow>): set<nat> {
    set r: nat | r < |outbox| && !outbox[r].published
  }

  /** Distinct ids of unpublished rows, oldest first. */
  predicate Lists(rows: seq<nat>, outbox: seq<OutboxRow>) {
    Ascending(rows) && forall i | 0 <= i < |rows| :: rows[i] < |outbox| && !outbox[rows[i]].published
  }

  lemma ListsMore(rows: seq<nat>, outbox: seq<OutboxRow>, row: OutboxRow)
    requires Lists(rows, outbox)
    ensures Lists(rows, outbox + [row])
    ensures !row.published ==> Lists(rows + [|outbox|], outbox + [row])
  {
  }

  lemma {:induction false} PendingFacts(outbox: seq<OutboxRow>)
    ensures Lists(PendingRows(outbox), outbox)
  {
    if outbox != [] {
      var n := |outbox| - 1;
      var before := PendingRows(outbox[..n]);
      PendingFacts(outbox[..n]);
      ListsMore(before, outbox[..n], outbox[n]);
      assert outbox[..n] + [outbox[n]] == outbox;
      assert PendingRows(outbox) == if outbox[n].published then before else before + [n];
    }
  }

  lemma {:induction false} PendingComplete(outbox: seq<OutboxRow>)
    ensures Ids(PendingRows(outbox)) == Unpublished(outbox)
  {
    if outbox != [] {
      var n := |outbox| - 1;
      PendingComplete(outbox[..n]);
      assert Unpublished(outbox) == Unpublished(outbox[..n]) + if outbox[n].published then {} else {n};
      if !outbox[n].published {
        IdsLast(PendingRows(outbox));
        assert PendingRows(outbox)[..|PendingRows(outbox)| - 1] == PendingRows(outbox[..n]);
      } else {
        assert PendingRows(outbox) == PendingRows(outbox[..n]);
      }
    }
  }

  function Batch(outbox: seq<OutboxRow>, limit: nat): seq<nat> {
    var rows := PendingRows(outbox);
    if |rows| <= limit then rows else rows[..limit]
  }

  /** A row after the publisher has dealt with it. */
  function Dealt(row: OutboxRow, fate: Fate): OutboxRow {
    match fate
    case Delivered => row.(published := true, lastError := None)
    case Refused(e) => row.(attempts := row.attempts + 1, lastError := Some(Clip(e)))
    case Unmarked(e) => row.(attempts := row.attempts + 1, lastError := Some(Clip(e)))
    case Broken(_) => row
  }

  /** The rows a batch gets to, the one that ends it included. */
  function Reached(rows: seq<nat>, fate: nat -> Fate): (n: nat)
    ensures n <= |rows|
    ensures forall i | 0 <= i < n - 1 :: !fate(rows[i]).Broken?
    ensures n < |rows| ==> n > 0 && fate(rows[n - 1]).Broken?
  {
    if rows == [] then 0
    else if fate(rows[0]).Broken? then 1
    else 1 + Reached(rows[1..], fate)
  }

  predicate Completes(rows: seq<nat>, fate: nat -> Fate) {
    forall i | 0 <= i < |rows| :: !fate(rows[i]).Broken?
  }

  function MessageOf(row: OutboxRow, r: nat): Message {
    Message(row.aggregateId, row.payload, Some(r), false)
  }

  /** The messages sent for the rows, in order. */
  function Sends(outbox: seq<OutboxRow>, rows: seq<nat>, fate: nat -> Fate): seq<Message>
    requires forall i | 0 <= i < |rows| :: rows[i] < |outbox|
  {
    if rows == [] then []
    else
      var r := rows[|rows| - 1];
      Sends(outbox, rows[..|rows| - 1], fate)
      + if fate(r).Sent() then [MessageOf(outbox[r], r)] else []
  }

  /** The outbox after the rows have been dealt with in order. */
  function DealtAll(outbox: seq<OutboxRow>, rows: seq<nat>, fate: nat -> Fate): seq<OutboxRow> {
    if rows == [] then outbox
    else
      var now := DealtAll(outbox, rows[..|rows| - 1], fate);
      var r := rows[|rows| - 1];
      if r < |now| then now[r := Dealt(now[r], fate(r))] else now
  }

  function MarkedCount(rows: seq<nat>, fate: nat -> Fate): nat {
    if rows == [] then 0
    else MarkedCount(rows[..|rows| - 1], fate) + if fate(rows[|rows| - 1]).Delivered? then 1 else 0
  }

  predicate Ascending(rows: seq<nat>) {
    forall i, j | 0 <= i < j < |rows| :: rows[i] < rows[j]
  }

  function Ids(rows: seq<nat>): set<nat> {
    set i | 0 <= i < |rows| :: rows[i]
  }

  lemma {:induction false} DealtLength(outbox: seq<OutboxRow>, rows: seq<nat>, fate: nat -> Fate)
    ensures |DealtAll(outbox, rows, fate)| == |outbox|
  {
    if rows != [] { DealtLength(outbox, rows[..|rows| - 1], fate); }
  }

  /** The rows a batch gets to: all claimed ones, up to the first whose failure cannot be noted. */
  function GetsTo(outbox: seq<OutboxRow>, fate: nat -> Fate): seq<nat> {
    Batch(outbox, BATCH)[..Reached(Batch(outbox, BATCH), fate)]
  }

  /** The outbox after one batch. */
  function AfterBatch(outbox: seq<OutboxRow>, fate: nat -> Fate): seq<OutboxRow> {
    DealtAll(outbox, GetsTo(outbox, fate), fate)
  }

  /** What one batch does to the outbox, what it sends, and what it returns: each row it gets to is dealt with
      by its fate, in order, and no other row is touched. It gets to all claimed rows unless the note of a
      failure fails, and then throws; otherwise the count is the number of rows newly marked. */
  predicate BatchOutcome(
    was: seq<OutboxRow>, fate: nat -> Fate, now: seq<OutboxRow>, sends: seq<Message>, count: Option<nat>)
  {
    var rows := Batch(was, BATCH);
    BatchFacts(was);
    && now == AfterBatch(was, fate)
    && sends == Sends(was, GetsTo(was, fate), fate)
    && (count.Some? <==> Completes(rows, fate))
    && (count.Some? ==> Reached(rows, fate) == |rows| && count.value == MarkedCount(rows, fate))
  }

  /** Each claimed row is dealt with exactly once, by its own fate; every other row is untouched. */
  lemma {:induction false} DealtPointwise(outbox: seq<OutboxRow>, rows: seq<nat>, fate: nat -> Fate, r: nat)
    requires Ascending(rows) && r < |outbox|
    ensures |DealtAll(outbox, rows, fate)| == |outbox|
    ensures DealtAll(outbox, rows, fate)[r] == if r in Ids(rows) then Dealt(outbox[r], fate(r)) else outbox[r]
    decreases |rows|
  {
    if rows != [] {
      var n := |rows| - 1;
      DealtPointwise(outbox, rows[..n], fate, r);
      IdsLast(rows);
      assert rows[n] !in Ids(rows[..n]);
    }
  }

  lemma IdsPrefix(rows: seq<nat>, n: nat)
    requires n <= |rows|
    ensures Ids(rows[..n]) <= Ids(rows)
  {
    forall r | r in Ids(rows[..n]) ensures r in Ids(rows) {
      var i :| 0 <= i < n && rows[..n][i] == r;
      assert rows[i] == r;
    }
  }

  lemma BatchFacts(outbox: seq<OutboxRow>)
    ensures Ascending(Batch(outbox, BATCH))
    ensures forall j | 0 <= j < |Batch(outbox, BATCH)| :: Batch(outbox, BATCH)[j] < |outbox|
  {
    PendingFacts(outbox);
  }

  /** The loop has dealt with the first `i` rows of the batch and goes on. */
  predicate DealtSoFar(
    was: seq<OutboxRow>, i: nat, fate: nat -> Fate, now: seq<OutboxRow>, sends: seq<Message>, count: nat)
  {
    BatchFacts(was);
    && i <= |Batch(was, BATCH)| && Completes(Batch(was, BATCH)[..i], fate)
    && now == DealtAll(was, Batch(was, BATCH)[..i], fate)
    && sends == Sends(was, Batch(was, BATCH)[..i], fate)
    && count == MarkedCount(Batch(was, BATCH)[..i], fate)
  }

  function Sent(outbox: seq<OutboxRow>, r: nat, fate: nat -> Fate): seq<Message>
    requires r < |outbox|
  {
    if fate(r).Sent() then [MessageOf(outbox[r], r)] else []
  }

  lemma NoneDealt(was: seq<OutboxRow>, fate: nat -> Fate)
    ensures DealtSoFar(was, 0, fate, was, [], 0)
  {
    assert Batch(was, BATCH)[..0] == [];
  }

  /** One more row, which is still as it was claimed. */
  lemma OneMore(was: seq<OutboxRow>, i: nat, fate: nat -> Fate, now: seq<OutboxRow>, sends: seq<Message>, count: nat)
    requires i < |Batch(was, BATCH)| && DealtSoFar(was, i, fate, now, sends, count)
    ensures Batch(was, BATCH)[i] < |now|
    ensures var r := Batch(was, BATCH)[i];
            var now', sends' := now[r := Dealt(now[r], fate(r))], sends + Sent(now, r, fate);
            if fate(r).Broken? then BatchOutcome(was, fate, now', sends', None)
            else DealtSoFar(was, i + 1, fate, now', sends', count + if fate(r).Delivered? then 1 else 0)
  {
    var rows := Batch(was, BATCH);
    BatchFacts(was);
    Unroll(was, rows, i, fate);
    if fate(rows[i]).Broken? {
      forall j | 0 <= j < i ensures !fate(rows[j]).Broken? {
        assert rows[..i][j] == rows[j];
      }
      assert Reached(rows, fate) == i + 1;
    }
  }

  lemma Unroll(was: seq<OutboxRow>, rows: seq<nat>, i: nat, fate: nat -> Fate)
    requires i < |rows| && Ascending(rows) && forall j | 0 <= j < |rows| :: rows[j] < |was|
    ensures var r, now := rows[i], DealtAll(was, rows[..i], fate);
            && |now| == |was| && now[r] == was[r]
            && DealtAll(was, rows[..i + 1], fate) == now[r := Dealt(was[r], fate(r))]
            && Sends(was, rows[..i + 1], fate) == Sends(was, rows[..i], fate) + Sent(was, r, fate)
            && MarkedCount(rows[..i + 1], fate) == MarkedCount(rows[..i], fate) + if fate(r).Delivered? then 1 else 0
  {
    assert rows[..i + 1][..i] == rows[..i];
    DealtPointwise(was, rows[..i], fate, rows[i]);
    assert rows[i] !in Ids(rows[..i]);
  }

  lemma AllDealt(was: seq<OutboxRow>, fate: nat -> Fate, now: seq<OutboxRow>, sends: seq<Message>, count: nat)
    requires DealtSoFar(was, |Batch(was, BATCH)|, fate, now, sends, count)
    ensures BatchOutcome(was, fate, now, sends, Some(count))
  {
    var rows := Batch(was, BATCH);
    assert rows[..|rows|] == rows;
    assert Reached(rows, fate) == |rows|;
  }

  lemma IdsLast(rows: seq<nat>)
    requires rows != []
    ensures Ids(rows) == Ids(rows[..|rows| - 1]) + {rows[|rows| - 1]}
  {
    var n := |rows| - 1;
    forall r | r in Ids(rows) ensures r in Ids(rows[..n]) || r == rows[n] {
      var i :| 0 <= i < |rows| && rows[i] == r;
      if i < n { assert rows[..n][i] == r; }
    }
    forall r | r in Ids(rows[..n]) ensures r in Ids(rows) {
      var i :| 0 <= i < n && rows[..n][i] == r;
      assert rows[i] == r;
    }
    assert rows[n] in Ids(rows);
  }

  /** The message a row calls for: about its payment, with its payload, and undelivered. */
  predicate IsFrom(m: Message, r: nat, row: OutboxRow) {
    m.origin == Some(r) && m.paymentId == row.aggregateId && m.payload == row.payload && !m.acked
  }

  ghost predicate WasSent(sends: seq<Message>, r: nat, row: OutboxRow) {
    exists m :: 0 <= m < |sends| && IsFrom(sends[m], r, row)
  }

  /** Only messages the rows call for, at most one for each, in order. */
  ghost predicate AnswersOnly(outbox: seq<OutboxRow>, rows: seq<nat>, fate: nat -> Fate, sends: seq<Message>) {
    && (forall m | 0 <= m < |sends| :: Answers(outbox, rows, fate, sends[m]))
    && (forall m, n | 0 <= m < n < |sends| :: Precedes(sends[m], sends[n]))
  }

  lemma AnswersMore(outbox: seq<OutboxRow>, rows: seq<nat>, fate: nat -> Fate, sends: seq<Message>)
    requires rows != [] && Ascending(rows) && rows[|rows| - 1] < |outbox|
    requires AnswersOnly(outbox, rows[..|rows| - 1], fate, sends)
    ensures AnswersOnly(outbox, rows, fate, sends)
    ensures var r := rows[|rows| - 1];
            fate(r).Sent() ==> AnswersOnly(outbox, rows, fate, sends + [MessageOf(outbox[r], r)])
  {
    var n := |rows| - 1;
    IdsLast(rows);
    forall m | 0 <= m < |sends| ensures Answers(outbox, rows, fate, sends[m]) && sends[m].origin.value < rows[n] {
      assert Answers(outbox, rows[..n], fate, sends[m]);
      var i :| 0 <= i < n && rows[..n][i] == sends[m].origin.value;
    }
  }

  /** What is sent for the rows: for each that gets as far as the broker its message, in order, and nothing else. */
  lemma {:induction false} SendsExactly(outbox: seq<OutboxRow>, rows: seq<nat>, fate: nat -> Fate)
    requires Ascending(rows) && forall j | 0 <= j < |rows| :: rows[j] < |outbox|
    ensures AnswersOnly(outbox, rows, fate, Sends(outbox, rows, fate))
    ensures forall i | 0 <= i < |rows| && fate(rows[i]).Sent() ::
              WasSent(Sends(outbox, rows, fate), rows[i], outbox[rows[i]])
    decreases |rows|
  {
    forall i | 0 <= i < |rows| && fate(rows[i]).Sent()
      ensures WasSent(Sends(outbox, rows, fate), rows[i], outbox[rows[i]])
    {
      ReachedWereSent(outbox, rows, fate, i);
    }
    if rows != [] {
      SendsExactly(outbox, rows[..|rows| - 1], fate);
      AnswersMore(outbox, rows, fate, Sends(outbox, rows[..|rows| - 1], fate));
    }
  }

  predicate Answers(outbox: seq<OutboxRow>, rows: seq<nat>, fate: nat -> Fate, m: Message) {
    && m.origin.Some? && m.origin.value in Ids(rows) && m.origin.value < |outbox|
    && IsFrom(m, m.origin.value, outbox[m.origin.value]) && fate(m.origin.value).Sent()
  }

  predicate Precedes(m: Message, n: Message) {
    m.origin.Some? && n.origin.Some? && m.origin.value < n.origin.value
  }

  /** Every row that gets as far as the broker is sent, so every row a batch marks. */
  lemma {:induction false} ReachedWereSent(outbox: seq<OutboxRow>, rows: seq<nat>, fate: nat -> Fate, i: nat)
    requires forall j | 0 <= j < |rows| :: rows[j] < |outbox|
    requires i < |rows| && fate(rows[i]).Sent()
    ensures WasSent(Sends(outbox, rows, fate), rows[i], outbox[rows[i]])
    decreases |rows|
  {
    var n := |rows| - 1;
    var r := rows[i];
    var sends := Sends(outbox, rows, fate);
    if i == n {
      assert IsFrom(sends[|sends| - 1], r, outbox[r]);
    } else {
      ReachedWereSent(outbox, rows[..n], fate, i);
      var before := Sends(outbox, rows[..n], fate);
      var m :| 0 <= m < |before| && IsFrom(before[m], r, outbox[r]);
      assert IsFrom(sends[m], r, outbox[r]);
    }
  }

  /** A failure that is noted costs the row one attempt and leaves the error, cut to 2000 characters; a success clears
      it; nothing else about the row ever changes. */
  lemma NotedOnTheRow(row: OutboxRow, fate: Fate, error: string)
    requires fate == Refused(error) || fate == Unmarked(error)
    ensures var now := Dealt(row, fate);
            && now == row.(attempts := row.attempts + 1, lastError := now.lastError)
            && now.lastError == Some(if |error| <= 2000 then error else error[..2000])
    ensures Dealt(row, Delivered) == row.(published := true, lastError := None)
    ensures forall sent :: Dealt(row, Broken(sent)) == row
  {
  }

  /** A batch is the fifty oldest unpublished rows, or all of them. */
  lemma BatchOfFifty(outbox: seq<OutboxRow>)
    ensures |Batch(outbox, BATCH)| == if |PendingRows(outbox)| <= 50 then |PendingRows(outbox)| else 50
    ensures Batch(outbox, BATCH) <= PendingRows(outbox)
  {
  }

  /** Rows only move forward, each that became published was sent, and every message is that of a row that was
      waiting. */
  ghost predicate AtLeastOnce(was: seq<OutboxRow>, now: seq<OutboxRow>, sends: seq<Message>) {
    && |now| == |was|
    && (forall r: nat | r < |was| :: RowAtLeastOnce(was[r], now[r], r, sends))
    && (forall m | 0 <= m < |sends| :: FromWaiting(was, sends[m]))
  }

  ghost predicate RowAtLeastOnce(was: OutboxRow, now: OutboxRow, r: nat, sends: seq<Message>) {
    LaterRow(was, now) && (now.published && !was.published ==> WasSent(sends, r, was))
  }

  predicate FromWaiting(outbox: seq<OutboxRow>, m: Message) {
    && m.origin.Some? && m.origin.value < |outbox| && !outbox[m.origin.value].published
    && IsFrom(m, m.origin.value, outbox[m.origin.value])
  }

  /** Whatever the fates, a batch marks no row it has not sent, and sends nothing but what waiting rows call for. */
  lemma BatchIsAtLeastOnce(
    was: seq<OutboxRow>, fate: nat -> Fate, now: seq<OutboxRow>, sends: seq<Message>, count: Option<nat>)
    requires BatchOutcome(was, fate, now, sends, count)
    ensures AtLeastOnce(was, now, sends)
  {
    PendingFacts(was);
    DealtIsAtLeastOnce(was, GetsTo(was, fate), fate);
  }

  lemma DealtIsAtLeastOnce(was: seq<OutboxRow>, rows: seq<nat>, fate: nat -> Fate)
    requires Lists(rows, was)
    ensures AtLeastOnce(was, DealtAll(was, rows, fate), Sends(was, rows, fate))
  {
    DealtLength(was, rows, fate);
    forall r: nat | r < |was| ensures RowAtLeastOnce(was[r], DealtAll(was, rows, fate)[r], r, Sends(was, rows, fate)) {
      DealtPointwise(was, rows, fate, r);
      if r in Ids(rows) && fate(r).Delivered? {
        var i :| 0 <= i < |rows| && rows[i] == r;
        ReachedWereSent(was, rows, fate, i);
      }
    }
    SendsExactly(was, rows, fate);
    SendsFromWaiting(was, rows, fate, Sends(was, rows, fate));
  }

  lemma SendsFromWaiting(was: seq<OutboxRow>, rows: seq<nat>, fate: nat -> Fate, sends: seq<Message>)
    requires Lists(rows, was) && AnswersOnly(was, rows, fate, sends)
    ensures forall m | 0 <= m < |sends| :: FromWaiting(was, sends[m])
  {
    forall m | 0 <= m < |sends| ensures FromWaiting(was, sends[m]) {
      assert Answers(was, rows, fate, sends[m]);
      var i :| 0 <= i < |rows| && rows[i] == sends[m].origin.value;
    }
  }

  lemma AtLeastOnceTwice(
    a: seq<OutboxRow>, b: seq<OutboxRow>, c: seq<OutboxRow>, first: seq<Message>, then_: seq<Message>)
    requires AtLeastOnce(a, b, first) && AtLeastOnce(b, c, then_)
    ensures AtLeastOnce(a, c, first + then_)
  {
    var all := first + then_;
    forall r: nat | r < |a| ensures RowAtLeastOnce(a[r], c[r], r, all) {
      assert RowAtLeastOnce(a[r], b[r], r, first) && RowAtLeastOnce(b[r], c[r], r, then_);
      if b[r].published && !a[r].published {
        var m :| 0 <= m < |first| && IsFrom(first[m], r, a[r]);
        assert IsFrom(all[m], r, a[r]);
      } else if c[r].published && !b[r].published {
        var m :| 0 <= m < |then_| && IsFrom(then_[m], r, b[r]);
        assert IsFrom(all[|first| + m], r, a[r]);
      }
    }
    forall m | 0 <= m < |all| ensures FromWaiting(a, all[m]) {
      if m < |first| {
        assert FromWaiting(a, first[m]);
      } else {
        assert FromWaiting(b, then_[m - |first|]);
        assert RowAtLeastOnce(a[all[m].origin.value], b[all[m].origin.value], all[m].origin.value, first);
      }
    }
  }
}

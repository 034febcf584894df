/** How fast healthy rows drain past rows that always fail, and exactly which healthy rows never get out.

    Everything is stated for the rows below some position, so new rows may keep arriving behind them. */
module OutboxProgress {
  import opened Domain
  import opened Tables
  import opened OutboxBatches

  /** How the rows below n fare in a batch: those in `broken` fail so that not even the failure can be noted, the
      others in `poison` fail in some way that is noted, and the rest are delivered. Nothing is said of later rows. */
  ghost predicate Against(fate: nat -> Fate, poison: set<nat>, broken: set<nat>, n: nat) {
    forall p: nat | p < n ::
      (fate(p).Broken? <==> p in broken) && (fate(p).Delivered? <==> p !in poison && p !in broken)
  }

  ghost predicate AllAgainst(fates: nat -> nat -> Fate, poison: set<nat>, broken: set<nat>, n: nat) {
    forall t: nat :: Against(fates(t), poison, broken, n)
  }

  /** Unpublished rows below n. */
  ghost function Below(outbox: seq<OutboxRow>, n: nat): set<nat> {
    set r: nat | r < n && r < |outbox| && !outbox[r].published
  }

  ghost function FailingBelow(outbox: seq<OutboxRow>, poison: set<nat>, n: nat): set<nat> { Below(outbox, n) * poison }
  ghost function HealthyBelow(outbox: seq<OutboxRow>, poison: set<nat>, n: nat): set<nat> { Below(outbox, n) - poison }

  lemma {:induction false} DistinctCount(rows: seq<nat>)
    requires Ascending(rows)
    ensures |Ids(rows)| == |rows|
    decreases |rows|
  {
    if rows != [] {
      var n := |rows| - 1;
      DistinctCount(rows[..n]);
      IdsLast(rows);
      assert rows[n] !in Ids(rows[..n]);
    }
  }

  lemma {:induction false} PendingPrefix(outbox: seq<OutboxRow>, n: nat)
    requires n <= |outbox|
    ensures PendingRows(outbox[..n]) <= PendingRows(outbox)
    decreases |outbox|
  {
    if n == |outbox| {
      assert outbox[..n] == outbox;
    } else {
      var m := |outbox| - 1;
      PendingPrefix(outbox[..m], n);
      assert outbox[..m][..n] == outbox[..n];
    }
  }

  /** A batch takes the oldest rows: of those below n all that fit. */
  lemma ClaimsOldest(outbox: seq<OutboxRow>, n: nat)
    requires n <= |outbox|
    ensures |Ids(Batch(outbox, BATCH)) * Below(outbox, n)| ==
              if |Below(outbox, n)| <= BATCH then |Below(outbox, n)| else BATCH
    ensures |Below(outbox, n)| >= BATCH ==> Ids(Batch(outbox, BATCH)) <= Below(outbox, n)
  {
    var front, rows := PendingRows(outbox[..n]), PendingRows(outbox);
    PendingPrefix(outbox, n);
    PendingFacts(outbox[..n]);
    PendingComplete(outbox[..n]);
    DistinctCount(front);
    assert Unpublished(outbox[..n]) == Below(outbox, n);
    if |front| >= BATCH {
      assert Batch(outbox, BATCH) == front[..BATCH];
      IdsPrefix(front, BATCH);
      DistinctCount(front[..BATCH]);
      assert Ids(front[..BATCH]) * Below(outbox, n) == Ids(front[..BATCH]);
    } else {
      assert Batch(outbox, BATCH)[..|front|] == front;
      IdsPrefix(Batch(outbox, BATCH), |front|);
      assert Ids(Batch(outbox, BATCH)) * Below(outbox, n) == Below(outbox, n);
    }
  }

  lemma GetsToFacts(was: seq<OutboxRow>, fate: nat -> Fate)
    ensures Lists(GetsTo(was, fate), was) && Ids(GetsTo(was, fate)) <= Ids(Batch(was, BATCH))
    ensures |AfterBatch(was, fate)| == |was|
  {
    PendingFacts(was);
    IdsPrefix(Batch(was, BATCH), Reached(Batch(was, BATCH), fate));
    DealtLength(was, GetsTo(was, fate), fate);
  }

  /** Of the rows below n exactly those leave that a batch gets to and that are healthy. */
  lemma LeavesBelow(was: seq<OutboxRow>, poison: set<nat>, broken: set<nat>, fate: nat -> Fate, n: nat)
    requires Against(fate, poison, broken, n) && n <= |was|
    ensures |AfterBatch(was, fate)| == |was|
    ensures Below(AfterBatch(was, fate), n) == Below(was, n) - (Ids(GetsTo(was, fate)) - (poison + broken))
  {
    var now, rows := AfterBatch(was, fate), GetsTo(was, fate);
    GetsToFacts(was, fate);
    forall r: nat | r < n
      ensures r in Below(now, n) <==> r in Below(was, n) && !(r in Ids(rows) && r !in poison + broken)
    {
      DealtPointwise(was, rows, fate, r);
    }
  }

  /** With no broken row pending below n, a batch gets to every row below n that it has claimed. */
  lemma GetsPastUnbroken(was: seq<OutboxRow>, poison: set<nat>, broken: set<nat>, fate: nat -> Fate, n: nat)
    requires Against(fate, poison, broken, n) && Below(was, n) * broken == {}
    ensures Ids(GetsTo(was, fate)) * Below(was, n) == Ids(Batch(was, BATCH)) * Below(was, n)
  {
    var rows := Batch(was, BATCH);
    GetsToFacts(was, fate);
    PendingFacts(was);
    forall r | r in Ids(rows) && r in Below(was, n) ensures r in Ids(GetsTo(was, fate)) {
      var i :| 0 <= i < |rows| && rows[i] == r;
      forall j | 0 <= j <= i ensures !fate(rows[j]).Broken? {
        assert rows[j] in Below(was, n) && rows[j] !in Below(was, n) * broken;
      }
      ReachedPast(rows, fate, i);
      assert GetsTo(was, fate)[i] == r;
    }
  }

  lemma ReachedPast(rows: seq<nat>, fate: nat -> Fate, i: nat)
    requires i < |rows|
    ensures (forall j | 0 <= j <= i :: !fate(rows[j]).Broken?) ==> i < Reached(rows, fate)
    ensures fate(rows[i]).Broken? ==> Reached(rows, fate) <= i + 1
  {
  }

  lemma Shrinks(a: set<nat>, b: set<nat>)
    requires a <= b
    ensures |a| <= |b|
  {
    assert b == a + (b - a);
  }

  /** One batch: the failing and broken rows below n stay. With no broken and k < 50 failing rows pending below n,
      at least min(50 - k, h) of the h healthy ones leave. */
  lemma ProgressBelow(was: seq<OutboxRow>, poison: set<nat>, broken: set<nat>, fate: nat -> Fate, n: nat)
    requires Against(fate, poison, broken, n) && n <= |was|
    ensures var now := AfterBatch(was, fate);
            && |now| == |was| && FailingBelow(now, poison, n) == FailingBelow(was, poison, n)
            && Below(now, n) * broken == Below(was, n) * broken
    ensures var now, k, h := AfterBatch(was, fate), |FailingBelow(was, poison, n)|, |HealthyBelow(was, poison, n)|;
            Below(was, n) * broken == {} && k < BATCH ==>
              |HealthyBelow(now, poison, n)| <= if h <= BATCH - k then 0 else h - (BATCH - k)
  {
    LeavesBelow(was, poison, broken, fate, n);
    if Below(was, n) * broken == {} {
      UnbrokenProgress(was, poison, broken, fate, n);
    }
  }

  lemma UnbrokenProgress(was: seq<OutboxRow>, poison: set<nat>, broken: set<nat>, fate: nat -> Fate, n: nat)
    requires Against(fate, poison, broken, n) && n <= |was| && Below(was, n) * broken == {}
    ensures var now, k, h := AfterBatch(was, fate), |FailingBelow(was, poison, n)|, |HealthyBelow(was, poison, n)|;
            k < BATCH ==> |HealthyBelow(now, poison, n)| <= if h <= BATCH - k then 0 else h - (BATCH - k)
  {
    var u, after, claimed := Below(was, n), Below(AfterBatch(was, fate), n), Ids(Batch(was, BATCH)) * Below(was, n);
    LeavesBelow(was, poison, broken, fate, n);
    GetsPastUnbroken(was, poison, broken, fate, n);
    ClaimsOldest(was, n);
    LeavesClaimed(u, after, Ids(GetsTo(was, fate)), claimed, poison, broken);
    SetAccounts(u, after, claimed, poison);
  }

  lemma LeavesClaimed(
    u: set<nat>, after: set<nat>, got: set<nat>, claimed: set<nat>, poison: set<nat>, broken: set<nat>)
    requires after == u - (got - (poison + broken)) && u * broken == {} && got * u == claimed
    ensures after == u - (claimed - poison)
  {
    forall r | r in u ensures r in after <==> r in u - (claimed - poison) {
      assert r !in u * broken;
      assert r in got <==> r in got * u;
    }
  }

  lemma SetAccounts(u: set<nat>, after: set<nat>, claimed: set<nat>, poison: set<nat>)
    requires claimed <= u && after == u - (claimed - poison)
    ensures after * poison == u * poison
    ensures |after - poison| + |claimed - poison| == |u - poison|
    ensures |claimed| <= |claimed - poison| + |u * poison|
    ensures |u| == |u - poison| + |u * poison|
    ensures |claimed| == |u| ==> |claimed - poison| == |u - poison|
  {
    assert after - poison == (u - poison) - (claimed - poison) && claimed - poison <= u - poison;
    assert claimed == (claimed - poison) + (claimed * poison);
    Shrinks(claimed * poison, u * poison);
    assert u == (u - poison) + (u * poison);
    Shrinks(claimed, u);
    Shrinks(claimed - poison, u - poison);
  }

  /** What is marked of the rows a batch gets to is their healthy ones. */
  lemma {:induction false} CountHealthy(rows: seq<nat>, poison: set<nat>, broken: set<nat>, fate: nat -> Fate, n: nat)
    requires Ascending(rows) && Against(fate, poison, broken, n) && forall i | 0 <= i < |rows| :: rows[i] < n
    ensures MarkedCount(rows, fate) == |Ids(rows) - (poison + broken)|
    decreases |rows|
  {
    if rows != [] {
      var m, bad := |rows| - 1, poison + broken;
      CountHealthy(rows[..m], poison, broken, fate, n);
      IdsLast(rows);
      assert rows[m] !in Ids(rows[..m]);
      if rows[m] in bad {
        assert Ids(rows) - bad == Ids(rows[..m]) - bad;
      } else {
        assert Ids(rows) - bad == (Ids(rows[..m]) - bad) + {rows[m]};
      }
    }
  }

  ghost function Poisoned(outbox: seq<OutboxRow>, poison: set<nat>): nat { |FailingBelow(outbox, poison, |outbox|)| }
  ghost function Healthy(outbox: seq<OutboxRow>, poison: set<nat>): nat { |HealthyBelow(outbox, poison, |outbox|)| }

  /** With no broken, k < 50 failing and n healthy rows pending in all, a batch marks at least min(50 - k, n) healthy
      rows and counts exactly those it marks, and the failing ones stay. */
  lemma BatchProgress(was: seq<OutboxRow>, poison: set<nat>, broken: set<nat>, fate: nat -> Fate)
    requires Against(fate, poison, broken, |was|) && Below(was, |was|) * broken == {} && Poisoned(was, poison) < BATCH
    ensures var now := AfterBatch(was, fate);
            var k, n, marked := Poisoned(was, poison), Healthy(was, poison), MarkedCount(Batch(was, BATCH), fate);
            && Completes(Batch(was, BATCH), fate)
            && Poisoned(now, poison) == k
            && Healthy(now, poison) + marked == n
            && marked >= if BATCH - k <= n then BATCH - k else n
  {
    var u, after, claimed := Below(was, |was|), Below(AfterBatch(was, fate), |was|), Ids(Batch(was, BATCH));
    LeavesBelow(was, poison, broken, fate, |was|);
    GetsPastUnbroken(was, poison, broken, fate, |was|);
    BatchSize(was);
    assert claimed * u == claimed;
    LeavesClaimed(u, after, Ids(GetsTo(was, fate)), claimed, poison, broken);
    SetAccounts(u, after, claimed, poison);
    UnbrokenCompletes(was, poison, broken, fate);
  }

  lemma UnbrokenCompletes(was: seq<OutboxRow>, poison: set<nat>, broken: set<nat>, fate: nat -> Fate)
    requires Against(fate, poison, broken, |was|) && Below(was, |was|) * broken == {}
    ensures Completes(Batch(was, BATCH), fate)
    ensures MarkedCount(Batch(was, BATCH), fate) == |Ids(Batch(was, BATCH)) - poison|
  {
    var rows := Batch(was, BATCH);
    PendingFacts(was);
    BatchSize(was);
    forall i | 0 <= i < |rows| ensures !fate(rows[i]).Broken? {
      assert rows[i] !in Below(was, |was|) * broken;
    }
    CountHealthy(rows, poison, broken, fate, |was|);
    forall r | r in Ids(rows) ensures r !in broken {
      assert r !in Below(was, |was|) * broken;
    }
    assert Ids(rows) - (poison + broken) == Ids(rows) - poison;
  }

  /** The batch as a set: only unpublished rows, as many as fit. */
  lemma BatchSize(was: seq<OutboxRow>)
    ensures Ids(Batch(was, BATCH)) <= Below(was, |was|)
    ensures |Ids(Batch(was, BATCH))| == if |Below(was, |was|)| <= BATCH then |Below(was, |was|)| else BATCH
  {
    PendingFacts(was);
    ClaimsOldest(was, |was|);
    assert Ids(Batch(was, BATCH)) * Below(was, |was|) == Ids(Batch(was, BATCH));
  }

  /** Whatever fails and however: a batch marks nothing exactly when every row it gets to fails, be it all fifty or
      those up to the first whose failure cannot be noted; then nothing leaves, and the next batch is the same. */
  lemma BatchStallsExactly(was: seq<OutboxRow>, poison: set<nat>, broken: set<nat>, fate: nat -> Fate)
    requires Against(fate, poison, broken, |was|)
    ensures var now, rows := AfterBatch(was, fate), GetsTo(was, fate);
            && (MarkedCount(rows, fate) == 0 <==> Ids(rows) <= poison + broken)
            && (MarkedCount(rows, fate) == 0 ==>
                  Below(now, |was|) == Below(was, |was|) && Batch(now, BATCH) == Batch(was, BATCH))
  {
    var ids, bad := Ids(GetsTo(was, fate)), poison + broken;
    LeavesBelow(was, poison, broken, fate, |was|);
    GetsToFacts(was, fate);
    CountHealthy(GetsTo(was, fate), poison, broken, fate, |was|);
    if ids - bad == {} {
      assert ids <= (ids - bad) + bad;
      SamePending(was, AfterBatch(was, fate));
    }
  }

  lemma {:induction false} SamePending(was: seq<OutboxRow>, now: seq<OutboxRow>)
    requires |now| == |was| && Below(now, |was|) == Below(was, |was|)
    ensures PendingRows(now) == PendingRows(was)
    decreases |was|
  {
    if was != [] {
      var n := |was| - 1;
      assert n in Below(now, |was|) <==> n in Below(was, |was|);
      assert Below(now[..n], n) == Below(now, |was|) - {n} && Below(was[..n], n) == Below(was, |was|) - {n};
      SamePending(was[..n], now[..n]);
    }
  }

  // ---- Polling for ever -------------------------------------------------------------------

  /** The outbox from poll to poll: each deals with one batch, and new rows may have arrived at the end. */
  ghost predicate IsPolling(trace: nat -> seq<OutboxRow>, fates: nat -> nat -> Fate) {
    forall t: nat :: PollsTo(trace(t), fates(t), trace(t + 1))
  }

  predicate PollsTo(was: seq<OutboxRow>, fate: nat -> Fate, next: seq<OutboxRow>) {
    AfterBatch(was, fate) <= next
  }

  predicate PublishedIn(outbox: seq<OutboxRow>, r: nat) {
    r < |outbox| && outbox[r].published
  }

  predicate PendingIn(outbox: seq<OutboxRow>, r: nat) {
    r < |outbox| && !outbox[r].published
  }

  lemma ArrivalsBelow(now: seq<OutboxRow>, next: seq<OutboxRow>, n: nat)
    requires now <= next && n <= |now|
    ensures Below(next, n) == Below(now, n)
  {
    assert forall r: nat | r < n :: next[r] == now[r];
  }

  /** What is left of n after t rounds that each take away up to `step`. */
  function Remaining(n: nat, step: nat, t: nat): nat {
    if t == 0 then n
    else var left := Remaining(n, step, t - 1); if left >= step then left - step else 0
  }

  lemma {:induction false} RemainingLinear(n: nat, step: nat, t: nat)
    ensures n <= t * step ==> Remaining(n, step, t) == 0
    ensures n >= t * step ==> Remaining(n, step, t) == n - t * step
  {
    if t > 0 {
      RemainingLinear(n, step, t - 1);
      assert t * step == (t - 1) * step + step;
    }
  }

  /** After t polls, with k < 50 failing rows below n: they are all still there, and every poll took its share
      off what was left of the healthy ones. */
  ghost predicate DrainingBelow(was: seq<OutboxRow>, now: seq<OutboxRow>, poison: set<nat>, n: nat, t: nat) {
    var k, h := |FailingBelow(was, poison, n)|, |HealthyBelow(was, poison, n)|;
    && FailingBelow(now, poison, n) == FailingBelow(was, poison, n)
    && (k < BATCH ==> |HealthyBelow(now, poison, n)| <= Remaining(h, BATCH - k, t))
  }

  /** The rows below n that fail, broken or not, stay for ever. */
  lemma {:induction false} FailingStay(
    trace: nat -> seq<OutboxRow>, fates: nat -> nat -> Fate, poison: set<nat>, broken: set<nat>, n: nat, t: nat)
    requires IsPolling(trace, fates) && AllAgainst(fates, poison, broken, n) && n <= |trace(0)|
    ensures n <= |trace(t)| && FailingBelow(trace(t), poison, n) == FailingBelow(trace(0), poison, n)
    ensures Below(trace(t), n) * broken == Below(trace(0), n) * broken
  {
    if t > 0 {
      FailingStay(trace, fates, poison, broken, n, t - 1);
      assert PollsTo(trace(t - 1), fates(t - 1), trace(t - 1 + 1));
      ProgressBelow(trace(t - 1), poison, broken, fates(t - 1), n);
      ArrivalsBelow(AfterBatch(trace(t - 1), fates(t - 1)), trace(t), n);
    }
  }

  lemma {:induction false} PollsBelow(
    trace: nat -> seq<OutboxRow>, fates: nat -> nat -> Fate, poison: set<nat>, broken: set<nat>, n: nat, t: nat)
    requires IsPolling(trace, fates) && AllAgainst(fates, poison, broken, n) && n <= |trace(0)|
    requires Below(trace(0), n) * broken == {}
    ensures n <= |trace(t)| && DrainingBelow(trace(0), trace(t), poison, n, t)
  {
    if t > 0 {
      PollsBelow(trace, fates, poison, broken, n, t - 1);
      FailingStay(trace, fates, poison, broken, n, t - 1);
      assert PollsTo(trace(t - 1), fates(t - 1), trace(t - 1 + 1));
      ProgressBelow(trace(t - 1), poison, broken, fates(t - 1), n);
      ArrivalsBelow(AfterBatch(trace(t - 1), fates(t - 1)), trace(t), n);
    }
  }

  /** So with h healthy, k < 50 failing and no broken rows pending below n, after ceil(h / (50 - k)) polls no healthy
      one is left there, whatever arrives or happens behind. */
  lemma DrainedAfter(
    trace: nat -> seq<OutboxRow>, fates: nat -> nat -> Fate, poison: set<nat>, broken: set<nat>, n: nat, t: nat)
    requires IsPolling(trace, fates) && AllAgainst(fates, poison, broken, n) && n <= |trace(0)|
    requires Below(trace(0), n) * broken == {} && |FailingBelow(trace(0), poison, n)| < BATCH
    requires t * (BATCH - |FailingBelow(trace(0), poison, n)|) >= |HealthyBelow(trace(0), poison, n)|
    ensures HealthyBelow(trace(t), poison, n) == {}
  {
    PollsBelow(trace, fates, poison, broken, n, t);
    RemainingLinear(|HealthyBelow(trace(0), poison, n)|, BATCH - |FailingBelow(trace(0), poison, n)|, t);
  }

  /** A row with fifty failing rows before it is in no batch. */
  lemma NotClaimed(outbox: seq<OutboxRow>, poison: set<nat>, r: nat)
    requires r < |outbox| && |FailingBelow(outbox, poison, r)| >= BATCH
    ensures r !in Ids(Batch(outbox, BATCH))
  {
    Shrinks(FailingBelow(outbox, poison, r), Below(outbox, r));
    ClaimsOldest(outbox, r);
  }

  lemma NotReachedStays(was: seq<OutboxRow>, fate: nat -> Fate, r: nat)
    requires PendingIn(was, r) && (r in Ids(GetsTo(was, fate)) ==> !fate(r).Delivered?)
    ensures PendingIn(AfterBatch(was, fate), r)
  {
    GetsToFacts(was, fate);
    DealtPointwise(was, GetsTo(was, fate), fate, r);
  }

  lemma {:induction false} StarvesBehindFifty(
    trace: nat -> seq<OutboxRow>, fates: nat -> nat -> Fate, poison: set<nat>, broken: set<nat>, r: nat, t: nat)
    requires IsPolling(trace, fates) && AllAgainst(fates, poison, broken, r) && PendingIn(trace(0), r)
    requires |FailingBelow(trace(0), poison, r)| >= BATCH
    ensures PendingIn(trace(t), r)
  {
    if t > 0 {
      StarvesBehindFifty(trace, fates, poison, broken, r, t - 1);
      FailingStay(trace, fates, poison, broken, r, t - 1);
      assert PollsTo(trace(t - 1), fates(t - 1), trace(t - 1 + 1));
      GetsToFacts(trace(t - 1), fates(t - 1));
      NotClaimed(trace(t - 1), poison, r);
      NotReachedStays(trace(t - 1), fates(t - 1), r);
    }
  }

  /** A batch gets to no row behind one whose failure cannot be noted. */
  lemma BrokenBlocks(was: seq<OutboxRow>, fate: nat -> Fate, p: nat, r: nat)
    requires p < r && PendingIn(was, p) && fate(p).Broken?
    ensures r !in Ids(GetsTo(was, fate))
  {
    var rows, all := GetsTo(was, fate), PendingRows(was);
    PendingFacts(was);
    PendingComplete(was);
    assert p in Ids(all);
    var i :| 0 <= i < |all| && all[i] == p;
    if i < |Batch(was, BATCH)| {
      ReachedPast(Batch(was, BATCH), fate, i);
    }
    forall j | 0 <= j < |rows| ensures rows[j] != r {
      assert j <= i && rows[j] == all[j];
    }
  }

  lemma {:induction false} StarvesBehindBroken(
    trace: nat -> seq<OutboxRow>, fates: nat -> nat -> Fate, p: nat, r: nat, t: nat)
    requires IsPolling(trace, fates) && forall u: nat :: fates(u)(p).Broken?
    requires p < r && PendingIn(trace(0), p) && PendingIn(trace(0), r)
    ensures PendingIn(trace(t), p) && PendingIn(trace(t), r)
  {
    if t > 0 {
      StarvesBehindBroken(trace, fates, p, r, t - 1);
      assert PollsTo(trace(t - 1), fates(t - 1), trace(t - 1 + 1));
      BrokenBlocks(trace(t - 1), fates(t - 1), p, r);
      NotReachedStays(trace(t - 1), fates(t - 1), p);
      NotReachedStays(trace(t - 1), fates(t - 1), r);
    }
  }

  /** Nothing that is sure to starve the row is before it: no pending row whose failure can never be noted, and
      fewer than fifty pending rows that always fail. */
  ghost predicate ClearAhead(outbox: seq<OutboxRow>, poison: set<nat>, broken: set<nat>, r: nat) {
    |FailingBelow(outbox, poison, r)| < BATCH && Below(outbox, r) * broken == {}
  }

  /** Every healthy row gets out at last exactly if the way ahead of it is clear, whatever becomes of the rows
      behind. */
  lemma PublishedEventuallyExactly(
    trace: nat -> seq<OutboxRow>, fates: nat -> nat -> Fate, poison: set<nat>, broken: set<nat>, r: nat)
    requires IsPolling(trace, fates) && AllAgainst(fates, poison, broken, r + 1)
    requires PendingIn(trace(0), r) && r !in poison && r !in broken
    ensures (exists t: nat :: PublishedIn(trace(t), r)) <==> ClearAhead(trace(0), poison, broken, r)
  {
    AgainstFewer(fates, poison, broken, r);
    if |FailingBelow(trace(0), poison, r)| >= BATCH {
      forall t: nat ensures !PublishedIn(trace(t), r) {
        StarvesBehindFifty(trace, fates, poison, broken, r, t);
      }
    } else if Below(trace(0), r) * broken != {} {
      var p :| p in Below(trace(0), r) * broken;
      AlwaysBroken(fates, poison, broken, r + 1, p);
      forall t: nat ensures !PublishedIn(trace(t), r) {
        StarvesBehindBroken(trace, fates, p, r, t);
      }
    } else {
      var t := OutInTime(trace, fates, poison, broken, r);
    }
  }

  /** One poll for each healthy row up to it is enough. */
  lemma OutInTime(
    trace: nat -> seq<OutboxRow>, fates: nat -> nat -> Fate, poison: set<nat>, broken: set<nat>, r: nat)
    returns (t: nat)
    requires IsPolling(trace, fates) && AllAgainst(fates, poison, broken, r + 1)
    requires PendingIn(trace(0), r) && r !in poison && r !in broken && ClearAhead(trace(0), poison, broken, r)
    ensures PublishedIn(trace(t), r) && t == |HealthyBelow(trace(0), poison, r + 1)|
  {
    t := |HealthyBelow(trace(0), poison, r + 1)|;
    ClearToo(trace(0), poison, broken, r);
    EnoughPolls(t, BATCH - |FailingBelow(trace(0), poison, r + 1)|);
    DrainedAfter(trace, fates, poison, broken, r + 1, t);
    FailingStay(trace, fates, poison, broken, r + 1, t);
    NoneLeft(trace(t), poison, r);
  }

  lemma ClearToo(outbox: seq<OutboxRow>, poison: set<nat>, broken: set<nat>, r: nat)
    requires r !in poison && r !in broken && ClearAhead(outbox, poison, broken, r)
    ensures ClearAhead(outbox, poison, broken, r + 1)
  {
    assert FailingBelow(outbox, poison, r + 1) == FailingBelow(outbox, poison, r);
    assert Below(outbox, r + 1) * broken == Below(outbox, r) * broken;
  }

  lemma NoneLeft(outbox: seq<OutboxRow>, poison: set<nat>, r: nat)
    requires r < |outbox| && r !in poison && HealthyBelow(outbox, poison, r + 1) == {}
    ensures PublishedIn(outbox, r)
  {
    assert r !in HealthyBelow(outbox, poison, r + 1);
  }

  lemma AgainstFewer(fates: nat -> nat -> Fate, poison: set<nat>, broken: set<nat>, n: nat)
    requires AllAgainst(fates, poison, broken, n + 1)
    ensures AllAgainst(fates, poison, broken, n)
  {
    forall t: nat ensures Against(fates(t), poison, broken, n) {
      assert Against(fates(t), poison, broken, n + 1);
    }
  }

  lemma AlwaysBroken(fates: nat -> nat -> Fate, poison: set<nat>, broken: set<nat>, n: nat, p: nat)
    requires AllAgainst(fates, poison, broken, n) && p < n && p in broken
    ensures forall t: nat :: fates(t)(p).Broken?
  {
    forall t: nat ensures fates(t)(p).Broken? {
      assert Against(fates(t), poison, broken, n);
    }
  }

  lemma EnoughPolls(t: nat, step: nat)
    requires step >= 1
    ensures t * step >= t
  {
  }

  // ---- The loop ---------------------------------------------------------------------------

  /** The outbox after some polls with nothing new arriving. */
  function AfterPolls(outbox: seq<OutboxRow>, fates: nat -> nat -> Fate, polls: nat): seq<OutboxRow> {
    if polls == 0 then outbox else AfterBatch(AfterPolls(outbox, fates, polls - 1), fates(polls - 1))
  }

  function TraceOf(outbox: seq<OutboxRow>, fates: nat -> nat -> Fate): nat -> seq<OutboxRow> {
    (t: nat) => AfterPolls(outbox, fates, t)
  }

  lemma TraceIsPolling(outbox: seq<OutboxRow>, fates: nat -> nat -> Fate)
    ensures IsPolling(TraceOf(outbox, fates), fates)
  {
    forall t: nat ensures PollsTo(TraceOf(outbox, fates)(t), fates(t), TraceOf(outbox, fates)(t + 1)) {
      assert AfterPolls(outbox, fates, t + 1) == AfterBatch(AfterPolls(outbox, fates, t), fates(t));
    }
  }

  /** Below any position with no pending broken row, and whichever rows always fail there, if fewer than fifty: the
      failing ones are all still there, every poll took its share off the healthy ones, and ceil(h / (50 - k))
      polls leave none. */
  ghost predicate Drains(was: seq<OutboxRow>, fates: nat -> nat -> Fate, polls: nat, now: seq<OutboxRow>) {
    forall poison: set<nat>, broken: set<nat>, n: nat | n <= |was| && AllAgainst(fates, poison, broken, n) ::
      ClearAhead(was, poison, broken, n) ==> DrainedOf(was, poison, n, polls, now)
  }

  ghost predicate DrainedOf(was: seq<OutboxRow>, poison: set<nat>, n: nat, polls: nat, now: seq<OutboxRow>) {
    && DrainingBelow(was, now, poison, n, polls)
    && (polls * (BATCH - |FailingBelow(was, poison, n)|) >= |HealthyBelow(was, poison, n)| ==>
          HealthyBelow(now, poison, n) == {})
  }

  lemma PollsDrain(outbox: seq<OutboxRow>, fates: nat -> nat -> Fate, polls: nat)
    ensures Drains(outbox, fates, polls, AfterPolls(outbox, fates, polls))
  {
    forall poison: set<nat>, broken: set<nat>, n: nat
      | n <= |outbox| && AllAgainst(fates, poison, broken, n) && ClearAhead(outbox, poison, broken, n)
      ensures DrainedOf(outbox, poison, n, polls, AfterPolls(outbox, fates, polls))
    {
      LoopDrains(outbox, fates, poison, broken, n, polls);
    }
  }

  lemma LoopDrains(
    outbox: seq<OutboxRow>, fates: nat -> nat -> Fate, poison: set<nat>, broken: set<nat>, n: nat, polls: nat)
    requires n <= |outbox| && AllAgainst(fates, poison, broken, n) && ClearAhead(outbox, poison, broken, n)
    ensures DrainedOf(outbox, poison, n, polls, AfterPolls(outbox, fates, polls))
  {
    var trace := TraceOf(outbox, fates);
    TraceIsPolling(outbox, fates);
    assert trace(0) == outbox && trace(polls) == AfterPolls(outbox, fates, polls);
    PollsBelow(trace, fates, poison, broken, n, polls);
    RemainingLinear(|HealthyBelow(outbox, poison, n)|, BATCH - |FailingBelow(outbox, poison, n)|, polls);
  }

  lemma {:induction false} AfterPollsLength(outbox: seq<OutboxRow>, fates: nat -> nat -> Fate, polls: nat)
    ensures |AfterPolls(outbox, fates, polls)| == |outbox|
  {
    if polls > 0 {
      var was := AfterPolls(outbox, fates, polls - 1);
      AfterPollsLength(outbox, fates, polls - 1);
      DealtLength(was, Batch(was, BATCH)[..Reached(Batch(was, BATCH), fates(polls - 1))], fates(polls - 1));
    }
  }

  // ---- An outbox that starves a row -------------------------------------------------------

  function FreshRows(n: nat): seq<OutboxRow> {
    seq(n, k requires 0 <= k < n => NewRow(k, InitiatedNote))
  }

  ghost predicate IsOneTo(s: set<nat>, n: nat) {
    forall p: nat :: p in s <==> 1 <= p <= n
  }

  lemma {:induction false} OneTo(n: nat) returns (s: set<nat>)
    ensures IsOneTo(s, n) && |s| == n
  {
    s := {};
    if n > 0 {
      var rest := OneTo(n - 1);
      s := rest + {n};
    }
  }

  function Refusing(n: nat): nat -> nat -> Fate {
    (t: nat) => (p: nat) => if 1 <= p <= n then Refused("too large") else Delivered
  }

  lemma RefusingIsAgainst(n: nat, poison: set<nat>, m: nat)
    requires IsOneTo(poison, n)
    ensures AllAgainst(Refusing(n), poison, {}, m)
  {
    forall t: nat ensures Against(Refusing(n)(t), poison, {}, m) {
    }
  }

  lemma FreshBelow(m: nat, n: nat)
    requires n <= m
    ensures forall p: nat :: p in Below(FreshRows(m), n) <==> p < n
  {
  }

  /** The last of n + 2 rows, of which 1 to n >= 50 are always refused, never gets out. */
  lemma LastRowStarves(n: nat, t: nat)
    requires n >= BATCH
    ensures PendingIn(AfterPolls(FreshRows(n + 2), Refusing(n), t), n + 1)
  {
    var poison := OneTo(n);
    RefusingIsAgainst(n, poison, n + 1);
    FreshBelow(n + 2, n + 1);
    assert FailingBelow(FreshRows(n + 2), poison, n + 1) == poison;
    LoopStarves(FreshRows(n + 2), Refusing(n), poison, n + 1, t);
  }

  lemma LoopStarves(outbox: seq<OutboxRow>, fates: nat -> nat -> Fate, poison: set<nat>, r: nat, t: nat)
    requires AllAgainst(fates, poison, {}, r) && PendingIn(outbox, r) && |FailingBelow(outbox, poison, r)| >= BATCH
    ensures PendingIn(AfterPolls(outbox, fates, t), r)
  {
    TraceIsPolling(outbox, fates);
    StarvesBehindFifty(TraceOf(outbox, fates), fates, poison, {}, r, t);
  }

  /** Yet the first poll does publish a row. */
  lemma FirstRowLeaves(n: nat)
    ensures PublishedIn(AfterPolls(FreshRows(n + 2), Refusing(n), 1), 0)
  {
    var poison := OneTo(n);
    RefusingIsAgainst(n, poison, 1);
    FreshBelow(n + 2, 1);
    assert FailingBelow(FreshRows(n + 2), poison, 1) == {} && HealthyBelow(FreshRows(n + 2), poison, 1) == {0};
    OldestLeaves(FreshRows(n + 2), Refusing(n), poison);
  }

  lemma OldestLeaves(outbox: seq<OutboxRow>, fates: nat -> nat -> Fate, poison: set<nat>)
    requires AllAgainst(fates, poison, {}, 1) && outbox != []
    requires FailingBelow(outbox, poison, 1) == {} && HealthyBelow(outbox, poison, 1) == {0}
    ensures PublishedIn(AfterPolls(outbox, fates, 1), 0)
  {
    AfterPollsLength(outbox, fates, 1);
    LoopDrains(outbox, fates, poison, {}, 1, 1);
    assert 0 !in HealthyBelow(AfterPolls(outbox, fates, 1), poison, 1);
  }

  /** Fifty-two rows of which 1 to 50 are always refused: row 0 gets out with the first poll, and row 51 never does. */
  lemma RowFiftyOneStarves()
    ensures PublishedIn(AfterPolls(FreshRows(52), Refusing(50), 1), 0)
    ensures forall t: nat :: PendingIn(AfterPolls(FreshRows(52), Refusing(50), t), 51)
  {
    FirstRowLeaves(50);
    forall t: nat ensures PendingIn(AfterPolls(FreshRows(52), Refusing(50), t), 51) {
      LastRowStarves(50, t);
    }
  }

  /** Row 0 can be neither published nor noted as failed; every other row would be delivered. */
  function Breaking(): nat -> nat -> Fate {
    (t: nat) => (p: nat) => if p == 0 then Broken(false) else Delivered
  }

  /** Two rows, and a single row that always fails in front: row 1 never gets out. */
  lemma RowOneStarves()
    ensures forall t: nat :: PendingIn(AfterPolls(FreshRows(2), Breaking(), t), 1)
  {
    TraceIsPolling(FreshRows(2), Breaking());
    forall t: nat ensures PendingIn(AfterPolls(FreshRows(2), Breaking(), t), 1) {
      StarvesBehindBroken(TraceOf(FreshRows(2), Breaking()), Breaking(), 0, 1, t);
    }
  }
}

/** The delivery loop of system/server/src/notificationOutbox.js over the store: claim, send, record
    the outcome, until nothing can be claimed. The clock stands still during one round. */
module NotificationOutbox {
  import opened Common
  import opened NotificationStore
  import Runs = NotificationRuns

  /** What becomes of one hand-out: the mail server takes it, refuses it, or no outcome can be recorded. A
      delivery whose outcome could not be recorded at first is recorded as a failure (Refused). */
  datatype Answer = Accepted | Refused(category: string) | Unanswered

  datatype Settings = Settings(maxAttempts: int, leaseMs: int, baseDelayMs: int, maxDelayMs: int)

  predicate Sound(o: Settings) { o.leaseMs > 0 && o.baseDelayMs > 0 && o.maxDelayMs > 0 }

  function RetryDelay(attempt: nat, o: Settings): (r: int)
    ensures r <= o.maxDelayMs
    ensures Sound(o) ==> r > 0
  {
    var factor := Power2(if attempt == 0 then 0 else attempt - 1);
    assert Sound(o) ==> o.baseDelayMs * factor > 0;
    if o.maxDelayMs < o.baseDelayMs * factor then o.maxDelayMs else o.baseDelayMs * factor
  }

  /** The first delay is the base delay, each later one doubles, and the cap ends it. */
  lemma DelayDoubles(attempt: nat, o: Settings)
    requires Sound(o)
    ensures RetryDelay(0, o) == RetryDelay(1, o)
    ensures RetryDelay(1, o) == if o.maxDelayMs < o.baseDelayMs then o.maxDelayMs else o.baseDelayMs
    ensures attempt >= 1 ==>
              RetryDelay(attempt + 1, o)
              == (if o.maxDelayMs < 2 * RetryDelay(attempt, o) then o.maxDelayMs else 2 * RetryDelay(attempt, o))
  {
    if attempt >= 1 {
      var factor := Power2(attempt - 1);
      assert Power2(attempt) == 2 * factor;
      assert o.baseDelayMs * (2 * factor) == 2 * (o.baseDelayMs * factor);
    }
  }

  /** The outcome recorded for a claimed item, if any. */
  function Verdict(x: Item, a: Answer, now: int, o: Settings): Option<Outcome> {
    match a
    case Accepted => Some(Delivered)
    case Unanswered => None
    case Refused(c) =>
      if x.attemptCycleCount >= o.maxAttempts then Some(GiveUp(Some(c)))
      else Some(Retry(At(now + RetryDelay(x.attemptCount, o)), Some(c)))
  }

  /** The item after its round: claimed, then settled as the answer says; left claimed when its body
      could not be opened, because the claim call itself failed. */
  function Served(cfg: Config, x: Item, a: Answer, now: int, o: Settings, token: nat): Item {
    var claimed := Claimed(cfg, x, now, o.leaseMs, token);
    if Open(cfg, x.letter.content).Err? then claimed else
    match Verdict(claimed, a, now, o)
    case None => claimed
    case Some(v) => Completed(claimed, v, now)
  }

  // ---------- Reference: which items a round must serve ----------

  function Due(cfg: Config, items: seq<Item>, now: int, maxAttempts: int, from: nat): (r: seq<nat>)
    requires from <= |items|
    ensures forall k :: 0 <= k < |r| ==> from <= r[k] < |items| && Claimable(cfg, items[r[k]], now, maxAttempts)
    ensures forall j, k :: 0 <= j < k < |r| ==> r[j] < r[k]
    ensures forall p :: from <= p < |items| && Claimable(cfg, items[p], now, maxAttempts) ==> p in r
    decreases |items| - from
  {
    if from == |items| then []
    else
      var rest := Due(cfg, items, now, maxAttempts, from + 1);
      if Claimable(cfg, items[from], now, maxAttempts) then [from] + rest else rest
  }

  /** The round is rejected at this item: its body cannot be opened, or its outcome cannot be recorded. */
  predicate Rejects(cfg: Config, x: Item, a: Answer) { Open(cfg, x.letter.content).Err? || a.Unanswered? }

  /** The positions up to and including the first at which the round is rejected. */
  function UpToRejected(cfg: Config, items: seq<Item>, ps: seq<nat>, answers: nat -> Answer): (r: seq<nat>)
    requires forall k :: 0 <= k < |ps| ==> ps[k] < |items|
    ensures r <= ps
  {
    if ps == [] then []
    else if Rejects(cfg, items[ps[0]], answers(ps[0])) then [ps[0]]
    else [ps[0]] + UpToRejected(cfg, items, ps[1..], answers)
  }

  // ---------- The loop ----------

  function Record(s: Store, id: nat, token: nat, v: Option<Outcome>, now: int): Store {
    if v.None? then s else CompleteClaim(s, id, Some(token), v.value, now).0
  }

  ghost predicate NothingDueBefore(s: Store, now: int, maxAttempts: int, from: nat) {
    from <= |s.items| && forall k :: 0 <= k < from ==> !Claimable(s.cfg, s.items[k], now, maxAttempts)
  }

  /** One hand-out and its recorded outcome replace exactly the item at p, which is then not due. */
  lemma OneServing(s: Store, a: Answer, now: int, o: Settings, p: nat)
    requires Runs.Inv(s) && Sound(o) && NextPosition(s, now, o.maxAttempts, None) == Some(p)
    ensures var t := ClaimNext(s, now, o.maxAttempts, o.leaseMs, None).0;
      var x := t.items[p];
      var v := if Open(s.cfg, x.letter.content).Ok? then Verdict(x, a, now, o) else None;
      var u := Record(t, x.letter.id, s.issued, v, now);
      && Runs.Inv(u) && u.cfg == s.cfg && u.issued == s.issued + 1
      && u.items == s.items[p := Served(s.cfg, s.items[p], a, now, o, s.issued)]
      && !Claimable(u.cfg, u.items[p], now, o.maxAttempts)
  {
    var claim := Runs.ClaimOp(now, o.maxAttempts, o.leaseMs, None);
    var t := Runs.Apply(s, claim);
    assert Runs.Inv(t) by {
      Runs.OneStep(s, claim);
      Runs.InvStep(s, claim, t);
    }
    var x := t.items[p];
    var v := if Open(s.cfg, x.letter.content).Ok? then Verdict(x, a, now, o) else None;
    if v.Some? {
      Recording(t, p, v.value, now);
    }
  }

  lemma Recording(t: Store, p: nat, v: Outcome, now: int)
    requires Runs.Inv(t) && p < |t.items| && t.items[p].state == Sending && t.items[p].claimToken.Some?
    ensures var u := Record(t, t.items[p].letter.id, t.items[p].claimToken.value, Some(v), now);
      Runs.Inv(u) && u == t.(items := t.items[p := Completed(t.items[p], v, now)])
  {
    hide Runs.Inv, Runs.StepShape, Completed;
    var done := Runs.CompleteOp(t.items[p].letter.id, t.items[p].claimToken, v, now);
    Runs.FoundById(t, p);
    assert Runs.Inv(Runs.Apply(t, done)) by {
      Runs.OneStep(t, done);
      Runs.InvStep(t, done, Runs.Apply(t, done));
    }
  }

  /** What a whole round must leave: the due items up to the first unreadable one, in the order of the
      file, each served once with its own fresh token; every other item untouched. */
  ghost predicate RoundDone(s: Store, t: Store, handed: seq<nat>, answers: nat -> Answer, now: int, o: Settings) {
    && t.cfg == s.cfg && |t.items| == |s.items| && t.issued == s.issued + |handed|
    && (forall k :: 0 <= k < |handed| ==> handed[k] < |s.items|)
    && (forall k :: 0 <= k < |handed| ==>
          t.items[handed[k]] == Served(s.cfg, s.items[handed[k]], answers(handed[k]), now, o, s.issued + k))
    && (forall p :: 0 <= p < |s.items| && p !in handed ==> t.items[p] == s.items[p])
  }

  /** What a round did to an item it handed out: sent, or due again after the delay of this attempt, or
      given up at the last attempt allowed, or, when the round was rejected at it, still claimed. */
  lemma AfterRound(s: Store, t: Store, handed: seq<nat>, answers: nat -> Answer, now: int, o: Settings, k: nat)
    requires RoundDone(s, t, handed, answers, now, o) && k < |handed|
    ensures var a, x, y := answers(handed[k]), s.items[handed[k]], t.items[handed[k]];
      && y.letter == x.letter && y.manualRetryCount == x.manualRetryCount
      && y.attemptCount == x.attemptCount + 1 && y.attemptCycleCount == x.attemptCycleCount + 1
      && y.notes.lastAttemptAt == At(now)
      && (y.state == Sent <==> Open(s.cfg, x.letter.content).Ok? && a == Accepted)
      && (y.state == Sent ==> y.notes.sentAt == At(now))
      && (y.state == RetryScheduled <==>
            Open(s.cfg, x.letter.content).Ok? && a.Refused? && x.attemptCycleCount + 1 < o.maxAttempts)
      && (y.state == RetryScheduled ==> y.nextAttemptAt == At(now + RetryDelay(x.attemptCount + 1, o)))
      && (y.state == PermanentlyFailed <==>
            Open(s.cfg, x.letter.content).Ok? && a.Refused? && x.attemptCycleCount + 1 >= o.maxAttempts)
      && (y.state in {RetryScheduled, PermanentlyFailed} && a.category != "" ==>
            y.notes.lastFailureCategory == Some(a.category))
      && (y.state == Sending <==> Rejects(s.cfg, x, a))
      && (y.state == Sending ==> y.claimToken == Some(s.issued + k) && y.leaseUntil == At(now + o.leaseMs))
  {
  }

  lemma RoundGrows(s: Store, t: Store, u: Store, handed: seq<nat>, p: nat,
                   answers: nat -> Answer, now: int, o: Settings)
    requires RoundDone(s, t, handed, answers, now, o) && p !in handed && p < |t.items|
    requires u.cfg == t.cfg && u.issued == t.issued + 1
    requires u.items == t.items[p := Served(t.cfg, t.items[p], answers(p), now, o, t.issued)]
    ensures RoundDone(s, u, handed + [p], answers, now, o)
  {
    hide Served;
    var more := handed + [p];
    forall k | 0 <= k < |more|
      ensures u.items[more[k]] == Served(s.cfg, s.items[more[k]], answers(more[k]), now, o, s.issued + k)
    {
      if k < |handed| {
        assert more[k] == handed[k] && handed[k] in handed;
      }
    }
  }

  lemma {:induction false} DueSkips(cfg: Config, items: seq<Item>, now: int, maxAttempts: int, from: nat, to: nat)
    requires from <= to <= |items|
    requires forall k :: from <= k < to ==> !Claimable(cfg, items[k], now, maxAttempts)
    ensures Due(cfg, items, now, maxAttempts, from) == Due(cfg, items, now, maxAttempts, to)
    decreases |items| - from
  {
    hide Claimable;
    if from < to {
      DueSkips(cfg, items, now, maxAttempts, from + 1, to);
      assert !Claimable(cfg, items[from], now, maxAttempts);
    }
  }

  lemma {:induction false} UpToAll(cfg: Config, items: seq<Item>, ps: seq<nat>, answers: nat -> Answer)
    requires forall k :: 0 <= k < |ps| ==> ps[k] < |items| && !Rejects(cfg, items[ps[k]], answers(ps[k]))
    ensures UpToRejected(cfg, items, ps, answers) == ps
  {
    if ps != [] {
      UpToAll(cfg, items, ps[1..], answers);
    }
  }

  lemma {:induction false} UpToFirst(cfg: Config, items: seq<Item>, before: seq<nat>, p: nat, after: seq<nat>,
                                     answers: nat -> Answer)
    requires forall k :: 0 <= k < |before| ==>
               before[k] < |items| && !Rejects(cfg, items[before[k]], answers(before[k]))
    requires p < |items| && Rejects(cfg, items[p], answers(p))
    requires forall k :: 0 <= k < |after| ==> after[k] < |items|
    ensures UpToRejected(cfg, items, before + [p] + after, answers) == before + [p]
  {
    hide Rejects;
    var ps := before + [p] + after;
    if before != [] {
      UpToFirst(cfg, items, before[1..], p, after, answers);
      assert ps[1..] == before[1..] + [p] + after;
      assert before + [p] == [before[0]] + (before[1..] + [p]);
    }
  }

  /** Where the loop stands: everything handed out so far is served, the rest of the due items is ahead. */
  ghost predicate Progress(s: Store, t: Store, handed: seq<nat>, from: nat,
                           answers: nat -> Answer, now: int, o: Settings) {
    && Runs.Inv(t) && RoundDone(s, t, handed, answers, now, o)
    && NothingDueBefore(t, now, o.maxAttempts, from)
    && (forall k :: 0 <= k < |handed| ==> handed[k] < from)
    && (forall k :: 0 <= k < |handed| ==> !Rejects(s.cfg, s.items[handed[k]], answers(handed[k])))
    && Due(s.cfg, s.items, now, o.maxAttempts, 0) == handed + Due(s.cfg, s.items, now, o.maxAttempts, from)
  }

  lemma NothingLeft(s: Store, t: Store, handed: seq<nat>, from: nat, answers: nat -> Answer, now: int, o: Settings)
    requires Progress(s, t, handed, from, answers, now, o) && NextPosition(t, now, o.maxAttempts, None).None?
    ensures Due(s.cfg, s.items, now, o.maxAttempts, 0) == handed
    ensures UpToRejected(s.cfg, s.items, handed, answers) == handed
  {
    forall k | from <= k < |s.items| ensures !Claimable(s.cfg, s.items[k], now, o.maxAttempts) {
      assert t.items[k] == s.items[k];
    }
    DueSkips(s.cfg, s.items, now, o.maxAttempts, from, |s.items|);
    UpToAll(s.cfg, s.items, handed, answers);
  }

  /** The next item the store hands out is the next due item. */
  lemma NextDue(s: Store, t: Store, handed: seq<nat>, from: nat, answers: nat -> Answer, now: int, o: Settings, p: nat)
    requires Progress(s, t, handed, from, answers, now, o)
    requires NextPosition(t, now, o.maxAttempts, None) == Some(p)
    ensures from <= p < |s.items| == |t.items| && p !in handed && t.items[p] == s.items[p]
    ensures RoundDone(s, t, handed, answers, now, o)
    ensures Due(s.cfg, s.items, now, o.maxAttempts, 0) == handed + [p] + Due(s.cfg, s.items, now, o.maxAttempts, p + 1)
  {
    hide Served, Runs.Inv, Rejects;
    assert from <= p && p !in handed;
    forall k | from <= k < p ensures !Claimable(s.cfg, s.items[k], now, o.maxAttempts) {
      assert t.items[k] == s.items[k];
    }
    DueSkips(s.cfg, s.items, now, o.maxAttempts, from, p);
    calc {
      Due(s.cfg, s.items, now, o.maxAttempts, 0);
      handed + Due(s.cfg, s.items, now, o.maxAttempts, p);
      handed + ([p] + Due(s.cfg, s.items, now, o.maxAttempts, p + 1));
      handed + [p] + Due(s.cfg, s.items, now, o.maxAttempts, p + 1);
    }
  }

  /** Serving the next due item makes progress. */
  lemma Serving(s: Store, t: Store, handed: seq<nat>, from: nat,
                answers: nat -> Answer, now: int, o: Settings, p: nat, u: Store)
    requires Progress(s, t, handed, from, answers, now, o) && Sound(o)
    requires NextPosition(t, now, o.maxAttempts, None) == Some(p)
    requires Runs.Inv(u) && u.cfg == t.cfg && u.issued == t.issued + 1
    requires u.items == t.items[p := Served(t.cfg, t.items[p], answers(p), now, o, t.issued)]
    requires !Claimable(u.cfg, u.items[p], now, o.maxAttempts)
    requires p < |s.items| && !Rejects(s.cfg, s.items[p], answers(p))
    ensures Progress(s, u, handed + [p], p + 1, answers, now, o)
  {
    hide Served, Runs.Inv, Rejects, Due, Claimable;
    NextDue(s, t, handed, from, answers, now, o, p);
    RoundGrows(s, t, u, handed, p, answers, now, o);
  }

  lemma StoppedAtRejection(s: Store, t: Store, handed: seq<nat>, from: nat,
                            answers: nat -> Answer, now: int, o: Settings, p: nat)
    requires Progress(s, t, handed, from, answers, now, o)
    requires NextPosition(t, now, o.maxAttempts, None) == Some(p)
    requires p < |s.items| && Rejects(s.cfg, s.items[p], answers(p))
    ensures var due := Due(s.cfg, s.items, now, o.maxAttempts, 0);
      p in due && UpToRejected(s.cfg, s.items, due, answers) == handed + [p]
  {
    hide Served, Runs.Inv, Rejects, Claimable, RoundDone, NothingDueBefore;
    NextDue(s, t, handed, from, answers, now, o, p);
    UpToFirst(s.cfg, s.items, handed, p, Due(s.cfg, s.items, now, o.maxAttempts, p + 1), answers);
    assert (handed + [p] + Due(s.cfg, s.items, now, o.maxAttempts, p + 1))[|handed|] == p;
  }

  lemma StartOfRound(s: Store, answers: nat -> Answer, now: int, o: Settings)
    requires Runs.Inv(s)
    ensures Progress(s, s, [], 0, answers, now, o)
  {
    assert Due(s.cfg, s.items, now, o.maxAttempts, 0) == [] + Due(s.cfg, s.items, now, o.maxAttempts, 0);
  }

  class Outbox {
    const store: AccountNotificationStore
    const o: Settings

    constructor (store: AccountNotificationStore, o: Settings)
      ensures this.store == store && this.o == o
    {
      this.store, this.o := store, o;
    }

    /** Claim the next due item, send it, and record what the mail server answered. */
    method SendNext(now: int, answers: nat -> Answer) returns (at: Option<nat>, failed: bool)
      requires Runs.Inv(store.Value()) && Sound(o)
      modifies store
      ensures at == NextPosition(old(store.Value()), now, o.maxAttempts, None)
      ensures at.None? ==> store.Value() == old(store.Value()) && !failed
      ensures at.Some? ==>
        var t, u := old(store.Value()), store.Value();
        && Runs.Inv(u) && u.cfg == t.cfg && u.issued == t.issued + 1
        && u.items == t.items[at.value := Served(t.cfg, t.items[at.value], answers(at.value), now, o, t.issued)]
        && !Claimable(u.cfg, u.items[at.value], now, o.maxAttempts)
        && (failed <==> Rejects(t.cfg, t.items[at.value], answers(at.value)))
    {
      hide Claimable, Served, Runs.Inv, Completed, CompleteClaim;
      ghost var t := store.Value();
      at, failed := NextPosition(store.Value(), now, o.maxAttempts, None), false;
      var claim := store.Claim(now, o.maxAttempts, o.leaseMs, None);
      if at.None? { return; }
      OneServing(t, answers(at.value), now, o, at.value);
      if claim.Err? { return at, true; }
      var sent := claim.value.value;
      var verdict := Verdict(sent.item, answers(at.value), now, o);
      if verdict.None? { return at, true; }
      var _ := store.Complete(sent.item.letter.id, Some(sent.token), verdict.value, now);
    }

    /** Main result on draining: the round ends, hands out every due item exactly once in file order
        (rejected at the first whose body cannot be opened or whose outcome cannot be recorded), and leaves
        all other items alone. */
    method Run(now: int, answers: nat -> Answer) returns (handed: seq<nat>, failed: bool)
      requires Runs.Inv(store.Value()) && Sound(o)
      modifies store
      ensures var s := old(store.Value());
        var due := Due(s.cfg, s.items, now, o.maxAttempts, 0);
        && handed == UpToRejected(s.cfg, s.items, due, answers)
        && RoundDone(s, store.Value(), handed, answers, now, o)
        && Runs.Inv(store.Value())
        && (failed <==> exists p :: p in due && Rejects(s.cfg, s.items[p], answers(p)))
        && (!failed ==> handed == due && NextPosition(store.Value(), now, o.maxAttempts, None).None?)
    {
      hide Served, Due, RoundDone, UpToRejected, NextPosition, Runs.Inv, NothingDueBefore, Claimable, Rejects;
      handed, failed := [], false;
      ghost var s := store.Value();
      ghost var from: nat := 0;
      StartOfRound(s, answers, now, o);
      while true
        invariant !failed && Progress(s, store.Value(), handed, from, answers, now, o)
        decreases |s.items| - from
      {
        ghost var t := store.Value();
        var at;
        at, failed := SendNext(now, answers);
        if at.None? {
          NothingLeft(s, t, handed, from, answers, now, o);
          break;
        }
        var p := at.value;
        NextDue(s, t, handed, from, answers, now, o, p);
        if failed {
          RoundGrows(s, t, store.Value(), handed, p, answers, now, o);
          StoppedAtRejection(s, t, handed, from, answers, now, o, p);
          handed := handed + [p];
          break;
        }
        Serving(s, t, handed, from, answers, now, o, p, store.Value());
        handed, from := handed + [p], p + 1;
      }
    }
  }
}

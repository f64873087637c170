/** Whole runs of the outbox: any mix of operations, by any number of processes one after another,
    from an empty file. Positions in the file never change, so an item is followed by its position. */
module NotificationRuns {
  import opened Common
  import opened NotificationStore

  datatype Op =
    | QueueOp(q: Request, now: int)
    | CommitOp(id: nat, committed: bool)
    | MarkOp(id: nat, sent: bool)
    | ClaimOp(now: int, maxAttempts: int, leaseMs: int, only: Option<nat>)
    | CompleteOp(id: nat, token: Option<nat>, outcome: Outcome, now: int)
    | RetryOp(only: Option<nat>, now: int)
    | ReopenOp(cfg: Config)

  function Apply(s: Store, op: Op): Store {
    match op
    case QueueOp(q, now) => Queue(s, q, now).0
    case CommitOp(id, c) => SetCommitState(s, id, c).0
    case MarkOp(id, sent) => SetDeliveryOutcome(s, id, if sent then Sent else Failed).0
    case ClaimOp(now, max, lease, only) => ClaimNext(s, now, max, lease, only).0
    case CompleteOp(id, token, o, now) => CompleteClaim(s, id, token, o, now).0
    case RetryOp(only, now) => RetryEligible(s, only, now).0
    case ReopenOp(cfg) => s.(cfg := cfg)
  }

  /** Each store of the trace is the one before it after one operation. */
  ghost predicate Follows(trace: seq<Store>, ops: seq<Op>) {
    |trace| == |ops| + 1 && forall i :: 0 <= i < |ops| ==> trace[i + 1] == Apply(trace[i], ops[i])
  }

  ghost predicate IsRun(trace: seq<Store>, ops: seq<Op>) {
    Follows(trace, ops) && trace[0].items == [] && trace[0].issued == 0
  }

  // ---------- What one operation does to one item ----------

  /** The operation hands out the item at this position (the claim is written for it). */
  ghost predicate HandsOut(s: Store, op: Op, p: nat) {
    op.ClaimOp? && NextPosition(s, op.now, op.maxAttempts, op.only) == Some(p)
  }

  /** The operation settles the claim of the item at this position. */
  ghost predicate Settles(s: Store, op: Op, p: nat) {
    op.CompleteOp? && ById(s.items, op.id) == Some(p)
    && s.items[p].state in {Retrying, Sending} && s.items[p].claimToken == op.token
  }

  /** Every way in which one operation can change one stored item. */
  ghost predicate ItemStep(s: Store, op: Op, p: nat, a: Item, b: Item) {
    || (b == a && !HandsOut(s, op, p) && !Settles(s, op, p))
    || (op.QueueOp? && a.state == Aborted && b == a.(state := PendingCommit))
    || (op.CommitOp? && a.letter.id == op.id && a.state == PendingCommit
        && b == a.(state := if op.committed then ReadyState(s.cfg) else Aborted))
    || (op.MarkOp? && a.state in {Queued, Retrying}
        && b == a.(claimToken := None, leaseUntil := Never, state := if op.sent then Sent else Failed))
    || (HandsOut(s, op, p) && Claimable(s.cfg, a, op.now, op.maxAttempts)
        && b == Claimed(s.cfg, a, op.now, op.leaseMs, s.issued))
    || (Settles(s, op, p) && b == Completed(a, op.outcome, op.now))
    || (op.RetryOp? && Retryable(a) && b == Retried(s.cfg, a, op.now))
  }

  /** An item as queue stores it for the first time. */
  ghost predicate IsNew(s: Store, op: Op, x: Item) {
    op.QueueOp? && x == NewItem(s, op.q, op.now)
    && (x.letter.idempotencyKey.Some? ==>
          forall p :: 0 <= p < |s.items| ==> s.items[p].letter.idempotencyKey != x.letter.idempotencyKey)
  }

  /** t is s with every item moved by an ItemStep and at most one new item at the end. */
  ghost predicate StepShape(s: Store, op: Op, t: Store) {
    && |s.items| <= |t.items| <= |s.items| + 1
    && s.issued <= t.issued
    && (forall p :: 0 <= p < |s.items| ==> ItemStep(s, op, p, s.items[p], t.items[p]))
    && (|t.items| > |s.items| ==> IsNew(s, op, t.items[|s.items|]) && t.issued == s.issued + 1)
    && (op.ClaimOp? && t != s ==> t.issued == s.issued + 1)
  }

  lemma QueueStep(s: Store, op: Op)
    requires op.QueueOp?
    ensures StepShape(s, op, Queue(s, op.q, op.now).0)
  {
  }

  lemma ClaimStep(s: Store, op: Op)
    requires op.ClaimOp?
    ensures StepShape(s, op, ClaimNext(s, op.now, op.maxAttempts, op.leaseMs, op.only).0)
  {
    var t := ClaimNext(s, op.now, op.maxAttempts, op.leaseMs, op.only).0;
    forall p | 0 <= p < |s.items| ensures ItemStep(s, op, p, s.items[p], t.items[p]) {
    }
  }

  lemma CompleteStep(s: Store, op: Op)
    requires op.CompleteOp?
    ensures StepShape(s, op, CompleteClaim(s, op.id, op.token, op.outcome, op.now).0)
  {
  }

  lemma OneStep(s: Store, op: Op)
    ensures StepShape(s, op, Apply(s, op))
  {
    match op
    case QueueOp(_, _) => QueueStep(s, op);
    case ClaimOp(_, _, _, _) => ClaimStep(s, op);
    case CompleteOp(_, _, _, _) => CompleteStep(s, op);
    case _ =>
  }

  /** Only an existing, claimable item is handed out, and the claim is written for it. */
  lemma HandoutFacts(s: Store, op: Op, p: nat)
    requires HandsOut(s, op, p)
    ensures p < |s.items| && Claimable(s.cfg, s.items[p], op.now, op.maxAttempts)
    ensures Apply(s, op).items[p] == Claimed(s.cfg, s.items[p], op.now, op.leaseMs, s.issued)
  {
  }

  /** No operation rewrites a stored letter. */
  lemma LetterStays(s: Store, op: Op, t: Store, p: nat)
    requires StepShape(s, op, t) && p < |s.items|
    ensures t.items[p].letter == s.items[p].letter
  {
    hide Apply, NextPosition, ById;
    assert ItemStep(s, op, p, s.items[p], t.items[p]);
  }

  // ---------- Invariant of every reachable file ----------

  ghost predicate ItemOk(x: Item, issued: nat) {
    && x.state !in {Retrying, NeedsReconciliation} && !x.letter.content.Withheld?
    && (x.claimToken.Some? <==> x.state == Sending)
    && (x.state == Sending ==> x.leaseUntil.At?) && (x.state != Sending ==> x.leaseUntil.Never?)
    && x.letter.id < issued && (x.claimToken.Some? ==> x.claimToken.value < issued)
    && (x.nextAttemptAt.Never? || x.state == RetryScheduled)
    && (x.state in {Queued, AwaitingSender, PendingCommit, Aborted, Failed} ==> x.attemptCycleCount == 0)
    && x.attemptCycleCount <= x.attemptCount
  }

  ghost predicate Inv(s: Store) {
    && (forall p :: 0 <= p < |s.items| ==> ItemOk(s.items[p], s.issued))
    && (forall p, q :: 0 <= p < q < |s.items| ==> s.items[p].letter.id != s.items[q].letter.id)
    && (forall p, q :: 0 <= p < q < |s.items| && s.items[p].claimToken.Some? ==>
          s.items[p].claimToken != s.items[q].claimToken)
    && (forall p, q :: 0 <= p < q < |s.items| && s.items[p].letter.idempotencyKey.Some? ==>
          s.items[p].letter.idempotencyKey != s.items[q].letter.idempotencyKey)
  }

  lemma ItemOkStep(s: Store, op: Op, t: Store, p: nat)
    requires StepShape(s, op, t) && p < |t.items| && (p < |s.items| ==> ItemOk(s.items[p], s.issued))
    ensures ItemOk(t.items[p], t.issued)
  {
    hide Apply, NextPosition, ById;
    if p < |s.items| {
      assert ItemStep(s, op, p, s.items[p], t.items[p]);
    }
  }

  /** A token is kept, dropped, or the one issued by this very operation. */
  lemma TokenStep(s: Store, op: Op, t: Store, p: nat)
    requires StepShape(s, op, t) && p < |t.items| && t.items[p].claimToken.Some?
    requires p < |s.items| ==> ItemOk(s.items[p], s.issued)
    ensures p < |s.items| && !Settles(s, op, p)
    ensures if HandsOut(s, op, p) then t.items[p].claimToken == Some(s.issued)
            else t.items[p].claimToken == s.items[p].claimToken
  {
    hide Apply, NextPosition, ById;
    if p < |s.items| {
      assert ItemStep(s, op, p, s.items[p], t.items[p]);
    }
  }

  lemma InvStep(s: Store, op: Op, t: Store)
    requires Inv(s) && StepShape(s, op, t)
    ensures Inv(t)
  {
    hide Apply, ById, ItemStep, ItemOk, Settles;
    forall p | 0 <= p < |t.items|
      ensures ItemOk(t.items[p], t.issued)
      ensures p < |s.items| ==> t.items[p].letter == s.items[p].letter
    {
      ItemOkStep(s, op, t, p);
      if p < |s.items| {
        LetterStays(s, op, t, p);
      }
    }
    forall p, q | 0 <= p < q < |t.items|
      ensures t.items[p].letter.id != t.items[q].letter.id
    {
      if q == |s.items| { NamesBelow(s, p); }
    }
    forall p, q | 0 <= p < q < |t.items| && t.items[p].claimToken.Some?
      ensures t.items[p].claimToken != t.items[q].claimToken
    {
      if t.items[q].claimToken.Some? {
        TokenStep(s, op, t, p);
        TokenStep(s, op, t, q);
        NamesBelow(s, p);
        NamesBelow(s, q);
      }
    }
  }

  lemma NamesBelow(s: Store, p: nat)
    requires Inv(s) && p < |s.items|
    ensures s.items[p].letter.id < s.issued
    ensures s.items[p].claimToken.Some? ==> s.items[p].claimToken.value < s.issued
  {
  }

  lemma {:induction false} ReachableInv(trace: seq<Store>, ops: seq<Op>, i: nat)
    requires IsRun(trace, ops) && i < |trace|
    ensures Inv(trace[i])
  {
    hide Apply, ItemStep;
    if i > 0 {
      ReachableInv(trace, ops, i - 1);
      OneStep(trace[i - 1], ops[i - 1]);
      InvStep(trace[i - 1], ops[i - 1], trace[i]);
    }
  }

  // ---------- Conservation ----------

  /** b is a later form of the letter a: same letter, and once sent it never changes again. */
  ghost predicate SameLetter(a: Item, b: Item) {
    && b.letter == a.letter
    && (Given(a.from) ==> b.from == a.from)
    && a.attemptCount <= b.attemptCount && a.manualRetryCount <= b.manualRetryCount
    && (a.state == Sent ==> b == a)
  }

  lemma AgesBy(s: Store, op: Op, t: Store, p: nat)
    requires StepShape(s, op, t) && p < |s.items| && ItemOk(s.items[p], s.issued)
    ensures SameLetter(s.items[p], t.items[p])
  {
    hide Apply, NextPosition, ById;
    assert ItemStep(s, op, p, s.items[p], t.items[p]);
  }

  /** No item is ever lost, reordered or rewritten: identity, recipient, subject, content, kind, key
      and creation time stay, counters never fall, and a sent item is never touched again. */
  lemma {:induction false} Conservation(trace: seq<Store>, ops: seq<Op>, i: nat, j: nat)
    requires IsRun(trace, ops) && i <= j < |trace|
    ensures |trace[i].items| <= |trace[j].items| && trace[i].issued <= trace[j].issued
    ensures forall p :: 0 <= p < |trace[i].items| ==> SameLetter(trace[i].items[p], trace[j].items[p])
  {
    hide Apply, NextPosition, ById;
    if i < j {
      Conservation(trace, ops, i, j - 1);
      var s, op := trace[j - 1], ops[j - 1];
      OneStep(s, op);
      ReachableInv(trace, ops, j - 1);
      forall p | 0 <= p < |trace[i].items| ensures SameLetter(trace[i].items[p], trace[j].items[p]) {
        AgesBy(s, op, trace[j], p);
      }
    }
  }

  /** Queueing again under a key that was accepted before adds nothing and answers with the same item,
      whatever happened in between. */
  lemma RequeueFindsSameItem(trace: seq<Store>, ops: seq<Op>, i: nat, j: nat)
    requires IsRun(trace, ops) && i < j < |ops| && ops[i].QueueOp? && ops[j].QueueOp?
    requires Given(ops[i].q.idempotencyKey) && ops[j].q.idempotencyKey == ops[i].q.idempotencyKey
    requires Queue(trace[i], ops[i].q, ops[i].now).1.Ok? && Rejection(ops[j].q).None?
    ensures |trace[j + 1].items| == |trace[j].items|
    ensures Queue(trace[j], ops[j].q, ops[j].now).1.Ok?
    ensures Queue(trace[j], ops[j].q, ops[j].now).1.value.letter.id
              == Queue(trace[i], ops[i].q, ops[i].now).1.value.letter.id
  {
    var key := ops[i].q.idempotencyKey.value;
    var p := KeyIsFound(trace[i], ops[i]);
    Conservation(trace, ops, i + 1, j);
    assert SameLetter(trace[i + 1].items[p], trace[j].items[p]);
    ReachableInv(trace, ops, j);
    hide BodyText, SubjectText, KindText, Apply, Inv;
    FoundByKey(trace[j], key, p);
  }

  /** An accepted keyed request leaves an item with that key, the one it answers with. */
  lemma KeyIsFound(s: Store, op: Op) returns (p: nat)
    requires op.QueueOp? && Given(op.q.idempotencyKey) && Queue(s, op.q, op.now).1.Ok?
    ensures p < |Apply(s, op).items|
    ensures Apply(s, op).items[p].letter.idempotencyKey == op.q.idempotencyKey
    ensures Apply(s, op).items[p].letter.id == Queue(s, op.q, op.now).1.value.letter.id
  {
    hide BodyText, SubjectText, KindText;
    var found := ByKey(s.items, op.q.idempotencyKey.value);
    p := if found.Some? then found.value else |s.items|;
  }

  lemma FoundById(s: Store, p: nat)
    requires Inv(s) && p < |s.items|
    ensures ById(s.items, s.items[p].letter.id) == Some(p)
  {
  }

  lemma FoundByKey(s: Store, key: string, p: nat)
    requires Inv(s) && p < |s.items| && s.items[p].letter.idempotencyKey == Some(key)
    ensures ByKey(s.items, key) == Some(p)
  {
  }

  // ---------- Whose word decides the state of an item ----------

  /** The operation reaches the stored item at this position, by what the caller named and the state
      the item was in; such a step decides its state. */
  ghost predicate Touches(s: Store, op: Op, p: nat)
    requires p < |s.items|
  {
    var x := s.items[p];
    match op
    case QueueOp(q, _) =>
      Rejection(q).None? && Given(q.idempotencyKey) && ByKey(s.items, q.idempotencyKey.value) == Some(p)
      && q.holdForCommit && x.state == Aborted
    case CommitOp(id, _) => ById(s.items, id) == Some(p) && x.state == PendingCommit
    case MarkOp(id, _) => ById(s.items, id) == Some(p) && x.state in {Queued, Retrying}
    case ClaimOp(_, _, _, _) => HandsOut(s, op, p)
    case CompleteOp(_, _, _, _) => Settles(s, op, p)
    case RetryOp(only, _) =>
      (only.None? || only == Some(x.letter.id))
      && x.state in {RetryScheduled, PermanentlyFailed, Failed, AwaitingSender, NeedsReconciliation}
    case ReopenOp(_) => false
  }

  /** Where an item waits for its next attempt: for a sender address as long as none is set. */
  ghost predicate Waits(cfg: Config, x: Item) {
    x.state == if cfg.companyEmail.Some? && cfg.companyEmail.value != "" then Queued else AwaitingSender
  }

  /** The operation ends whatever claim there is on the item it reaches. */
  ghost predicate LetsGo(op: Op) { op.MarkOp? || op.CompleteOp? || op.RetryOp? }

  /** Each time stamp is set by one operation only, and a failure keeps its category. */
  ghost predicate Noted(op: Op, a: Notes, b: Notes) {
    && b.lastAttemptAt == (if op.ClaimOp? then At(op.now) else a.lastAttemptAt)
    && b.sentAt == (if op.CompleteOp? && op.outcome.Delivered? then At(op.now) else a.sentAt)
    && b.retryExhaustedAt == (if op.CompleteOp? && op.outcome.GiveUp? then At(op.now) else a.retryExhaustedAt)
    && b.lastManualRetryAt == (if op.RetryOp? then At(op.now) else a.lastManualRetryAt)
    && b.lastFailureCategory == (if op.CompleteOp? && !op.outcome.Delivered? && Given(op.outcome.category)
                                 then op.outcome.category else a.lastFailureCategory)
  }

  /** The state, time and counters an operation stands for, in the item it reaches. */
  ghost predicate Decided(s: Store, op: Op, a: Item, b: Item) {
    && b.letter == a.letter && b.from == (if op.ClaimOp? && !Given(a.from) then s.cfg.companyEmail else a.from)
    && b.attemptCount == a.attemptCount + (if op.ClaimOp? then 1 else 0)
    && b.manualRetryCount == a.manualRetryCount + (if op.RetryOp? then 1 else 0)
    && b.attemptCycleCount == (if op.RetryOp? then 0 else b.attemptCount - a.attemptCount + a.attemptCycleCount)
    && b.claimToken == (if op.ClaimOp? then Some(s.issued) else if LetsGo(op) then None else a.claimToken)
    && b.leaseUntil == (if op.ClaimOp? then At(op.now + op.leaseMs) else if LetsGo(op) then Never else a.leaseUntil)
    && b.nextAttemptAt == (if op.CompleteOp? && op.outcome.Retry? then op.outcome.at
                           else if op.ClaimOp? || op.CompleteOp? || op.RetryOp? then Never else a.nextAttemptAt)
    && Noted(op, a.notes, b.notes)
    && match op
       case QueueOp(_, _) => b.state == PendingCommit
       case CommitOp(_, committed) => if committed then Waits(s.cfg, b) else b.state == Aborted
       case MarkOp(_, sent) => b.state == if sent then Sent else Failed
       case ClaimOp(_, _, _, _) => b.state == Sending
       case CompleteOp(_, _, Delivered, _) => b.state == Sent
       case CompleteOp(_, _, Retry(_, _), _) => b.state == RetryScheduled
       case CompleteOp(_, _, GiveUp(_), _) => b.state == PermanentlyFailed
       case RetryOp(_, _) => Waits(s.cfg, b)
       case ReopenOp(_) => false
  }

  /** The operation leaves its mark on the item at p if it reaches it, and nothing otherwise. */
  ghost predicate Marks(s: Store, op: Op, t: Store, p: nat)
    requires p < |s.items|
  {
    && p < |t.items|
    && if Touches(s, op, p) then Decided(s, op, s.items[p], t.items[p]) else t.items[p] == s.items[p]
  }

  lemma QueueMarks(s: Store, op: Op, p: nat)
    requires op.QueueOp? && p < |s.items|
    ensures Marks(s, op, Queue(s, op.q, op.now).0, p)
  {
    hide BodyText, SubjectText, KindText;
  }

  lemma CommitMarks(s: Store, op: Op, p: nat)
    requires op.CommitOp? && p < |s.items|
    ensures Marks(s, op, SetCommitState(s, op.id, op.committed).0, p)
  {
  }

  lemma ClaimMarks(s: Store, op: Op, p: nat)
    requires op.ClaimOp? && p < |s.items|
    ensures Marks(s, op, ClaimNext(s, op.now, op.maxAttempts, op.leaseMs, op.only).0, p)
  {
  }

  lemma CompleteMarks(s: Store, op: Op, p: nat)
    requires op.CompleteOp? && p < |s.items|
    ensures Marks(s, op, CompleteClaim(s, op.id, op.token, op.outcome, op.now).0, p)
  {
  }

  lemma MarkMarks(s: Store, op: Op, p: nat)
    requires op.MarkOp? && p < |s.items|
    ensures Marks(s, op, SetDeliveryOutcome(s, op.id, if op.sent then Sent else Failed).0, p)
  {
  }

  lemma RetryMarks(s: Store, op: Op, p: nat)
    requires op.RetryOp? && p < |s.items|
    ensures Marks(s, op, RetryEligible(s, op.only, op.now).0, p)
  {
  }

  /** Each operation leaves its mark on exactly the items it reaches. */
  lemma TouchDecides(s: Store, op: Op, p: nat)
    requires p < |s.items|
    ensures Marks(s, op, Apply(s, op), p)
  {
    match op
    case QueueOp(_, _) => QueueMarks(s, op, p);
    case CommitOp(_, _) => CommitMarks(s, op, p);
    case MarkOp(_, _) => MarkMarks(s, op, p);
    case RetryOp(_, _) => RetryMarks(s, op, p);
    case ClaimOp(_, _, _, _) => ClaimMarks(s, op, p);
    case CompleteOp(_, _, _, _) => CompleteMarks(s, op, p);
    case _ =>
  }

  /** The state a new letter is stored in. */
  ghost predicate Starts(s: Store, op: Op, x: Item) {
    && op.QueueOp? && x.attemptCount == x.attemptCycleCount == x.manualRetryCount == 0
    && x.letter.to == op.q.to && x.letter.id == s.issued && x.letter.createdAt == op.now && x.from == s.cfg.companyEmail
    && x.claimToken.None? && x.leaseUntil.Never? && x.nextAttemptAt.Never?
    && x.notes == Notes(Never, Never, Never, Never, None)
    && if op.q.holdForCommit then x.state == PendingCommit else Waits(s.cfg, x)
  }

  /** The step k is the last one before j that stored or reached the item at p. */
  ghost predicate LastTouch(trace: seq<Store>, ops: seq<Op>, k: nat, j: nat, p: nat)
    requires IsRun(trace, ops) && j <= |ops|
  {
    && k < j
    && (p < |trace[k].items| ==> Touches(trace[k], ops[k], p))
    && (forall m :: k < m < j ==> p < |trace[m].items| && !Touches(trace[m], ops[m], p))
  }

  /** Main result on states: what an item is, is what the last operation that reached it made it. */
  lemma {:induction false} LastTouchDecides(trace: seq<Store>, ops: seq<Op>, j: nat, p: nat) returns (k: nat)
    requires IsRun(trace, ops) && j < |trace| && p < |trace[j].items|
    ensures LastTouch(trace, ops, k, j, p) && trace[j].items[p] == trace[k + 1].items[p]
    ensures if p < |trace[k].items| then Decided(trace[k], ops[k], trace[k].items[p], trace[j].items[p])
            else Starts(trace[k], ops[k], trace[j].items[p])
  {
    hide Apply, Touches, Decided;
    k := j - 1;
    if p < |trace[k].items| {
      TouchDecides(trace[k], ops[k], p);
      if !Touches(trace[k], ops[k], p) {
        k := LastTouchDecides(trace, ops, j - 1, p);
      }
    } else {
      OneStep(trace[k], ops[k]);
    }
  }

  /** The answer to a live claim, or markSent, says that the mail at p went out. */
  ghost predicate SaysSent(s: Store, op: Op, p: nat)
    requires p < |s.items|
  {
    || (Settles(s, op, p) && op.outcome.Delivered?)
    || (op.MarkOp? && op.sent && ById(s.items, op.id) == Some(p) && s.items[p].state in {Queued, Retrying})
  }

  ghost predicate SaidSent(trace: seq<Store>, ops: seq<Op>, k: nat, j: nat, p: nat) {
    k < j <= |ops| && k < |trace| && p < |trace[k].items| && SaysSent(trace[k], ops[k], p)
  }

  /** A mail counts as sent exactly when someone with a live claim, or markSent, said so before. */
  lemma {:induction false} SentIff(trace: seq<Store>, ops: seq<Op>, j: nat, p: nat)
    requires IsRun(trace, ops) && j < |trace| && p < |trace[j].items|
    ensures trace[j].items[p].state == Sent <==> exists k: nat :: SaidSent(trace, ops, k, j, p)
  {
    hide Apply, Touches, Decided, Inv;
    if trace[j].items[p].state == Sent {
      var k := LastTouchDecides(trace, ops, j, p);
      SentTouch(trace[k], ops[k], p, trace[j].items[p]);
      assert SaidSent(trace, ops, k, j, p);
    }
    forall k: nat | SaidSent(trace, ops, k, j, p) ensures trace[j].items[p].state == Sent {
      SentForGood(trace, ops, k, j, p);
    }
  }

  lemma SentTouch(s: Store, op: Op, p: nat, b: Item)
    requires b.state == Sent
    requires if p < |s.items| then Touches(s, op, p) && Decided(s, op, s.items[p], b) else Starts(s, op, b)
    ensures p < |s.items| && SaysSent(s, op, p)
  {
    hide ById, ByKey, HandsOut;
  }

  /** From then on nothing changes it and it is never handed out again, manual retries included. */
  lemma SentForGood(trace: seq<Store>, ops: seq<Op>, k: nat, j: nat, p: nat)
    requires IsRun(trace, ops) && SaidSent(trace, ops, k, j, p)
    ensures p < |trace[j].items| && trace[j].items[p].state == Sent && trace[j].items[p] == trace[k + 1].items[p]
    ensures j < |ops| ==> !HandsOut(trace[j], ops[j], p)
  {
    hide Apply, ItemStep;
    TouchDecides(trace[k], ops[k], p);
    Conservation(trace, ops, k + 1, j);
    assert SameLetter(trace[k + 1].items[p], trace[j].items[p]);
    if j < |ops| && HandsOut(trace[j], ops[j], p) {
      HandoutFacts(trace[j], ops[j], p);
    }
  }

  ghost predicate Names(only: Option<nat>, x: Item) {
    only.None? || only == Some(x.letter.id)
  }

  /** The claim of the item at p was settled at step k; since then it was neither handed out again nor
      named by a retry. */
  ghost predicate AnswerStands(trace: seq<Store>, ops: seq<Op>, k: nat, j: nat, p: nat) {
    && k < j <= |ops| < |trace| && p < |trace[k].items| && ops[k].CompleteOp? && Settles(trace[k], ops[k], p)
    && forall m :: k < m < j ==>
         !HandsOut(trace[m], ops[m], p) && !(ops[m].RetryOp? && Names(ops[m].only, trace[k].items[p]))
  }

  /** What a step that stores, reaches or passes by an item has to do with a failed attempt. */
  lemma FailureStep(trace: seq<Store>, ops: seq<Op>, j: nat, p: nat)
    requires IsRun(trace, ops) && 0 < j < |trace| && p < |trace[j].items|
    ensures p >= |trace[j - 1].items| ==> trace[j].items[p].state !in {PermanentlyFailed, RetryScheduled}
    ensures p < |trace[j - 1].items| ==>
      var s, op, a, b := trace[j - 1], ops[j - 1], trace[j - 1].items[p], trace[j].items[p];
      && b.letter == a.letter
      && (Settles(s, op, p) && op.outcome.GiveUp? ==> b.state == PermanentlyFailed)
      && (Settles(s, op, p) && op.outcome.Retry? ==> b.state == RetryScheduled && b.nextAttemptAt == op.outcome.at)
      && (Settles(s, op, p) && op.outcome.Delivered? ==> b.state == Sent)
      && (a.state in {PermanentlyFailed, RetryScheduled} ==> !Settles(s, op, p))
      && (a.state == PermanentlyFailed ==> !HandsOut(s, op, p))
      && (HandsOut(s, op, p) || (op.RetryOp? && Names(op.only, a)) ==>
            b.state in {Queued, AwaitingSender, Sending} || (b == a && a.state !in {PermanentlyFailed, RetryScheduled}))
      && (!Settles(s, op, p) && !HandsOut(s, op, p) && !(op.RetryOp? && Names(op.only, a)) ==>
            || b == a
            || (a.state !in {PermanentlyFailed, RetryScheduled} && b.state !in {PermanentlyFailed, RetryScheduled}))
  {
    hide ById, ByKey, NextPosition, Apply;
    var s, op := trace[j - 1], ops[j - 1];
    if p < |s.items| {
      TouchDecides(s, op, p);
      if HandsOut(s, op, p) {
        HandoutFacts(s, op, p);
      }
    } else {
      OneStep(s, op);
    }
  }

  /** An item has permanently failed exactly while a GiveUp stands, and waits for its next attempt at a
      given time exactly while a Retry for that time stands. */
  lemma {:induction false} FailedIff(trace: seq<Store>, ops: seq<Op>, j: nat, p: nat, at: Stamp)
    requires IsRun(trace, ops) && j < |trace| && p < |trace[j].items|
    ensures trace[j].items[p].state == PermanentlyFailed
       <==> exists k: nat :: AnswerStands(trace, ops, k, j, p) && ops[k].outcome.GiveUp?
    ensures trace[j].items[p].state == RetryScheduled && trace[j].items[p].nextAttemptAt == at
       <==> exists k: nat :: AnswerStands(trace, ops, k, j, p) && ops[k].outcome.Retry? && ops[k].outcome.at == at
  {
    hide Apply, Settles, HandsOut;
    if j > 0 {
      FailureStep(trace, ops, j, p);
    }
    forall k: nat | AnswerStands(trace, ops, k, j, p)
      ensures ops[k].outcome.GiveUp? ==> trace[j].items[p].state == PermanentlyFailed
      ensures ops[k].outcome.Retry? ==>
                trace[j].items[p].state == RetryScheduled && trace[j].items[p].nextAttemptAt == ops[k].outcome.at
    {
      AnswerHolds(trace, ops, k, j, p);
    }
    if trace[j].items[p].state in {PermanentlyFailed, RetryScheduled} {
      var k := AnswerFound(trace, ops, j, p);
    }
  }

  lemma {:induction false} AnswerHolds(trace: seq<Store>, ops: seq<Op>, k: nat, j: nat, p: nat)
    requires IsRun(trace, ops) && AnswerStands(trace, ops, k, j, p)
    ensures p < |trace[j].items| && trace[j].items[p].letter == trace[k].items[p].letter
    ensures ops[k].outcome.GiveUp? ==> trace[j].items[p].state == PermanentlyFailed
    ensures ops[k].outcome.Retry? ==>
              trace[j].items[p].state == RetryScheduled && trace[j].items[p].nextAttemptAt == ops[k].outcome.at
    ensures ops[k].outcome.Delivered? ==> trace[j].items[p].state == Sent
  {
    hide Apply, Settles, HandsOut, Touches, Decided;
    if k == j - 1 {
      TouchDecides(trace[k], ops[k], p);
    } else {
      AnswerHolds(trace, ops, k, j - 1, p);
      TouchDecides(trace[j - 1], ops[j - 1], p);
      if ops[k].outcome.Delivered? { SentForGood(trace, ops, k, j, p); }
    }
    FailureStep(trace, ops, j, p);
  }

  lemma {:induction false} AnswerFound(trace: seq<Store>, ops: seq<Op>, j: nat, p: nat) returns (k: nat)
    requires IsRun(trace, ops) && j < |trace| && p < |trace[j].items|
    requires trace[j].items[p].state in {PermanentlyFailed, RetryScheduled}
    ensures AnswerStands(trace, ops, k, j, p) && trace[k].items[p].letter == trace[j].items[p].letter
    ensures if trace[j].items[p].state == PermanentlyFailed then ops[k].outcome.GiveUp?
            else ops[k].outcome.Retry? && ops[k].outcome.at == trace[j].items[p].nextAttemptAt
  {
    hide Apply, HandsOut;
    k := j - 1;
    FailureStep(trace, ops, j, p);
    if !Settles(trace[k], ops[k], p) {
      k := AnswerFound(trace, ops, j - 1, p);
    }
  }

  /** Nothing but a retry by hand brings an item back that was given up. */
  lemma {:induction false} GivenUpStaysOut(trace: seq<Store>, ops: seq<Op>, k: nat, j: nat, p: nat)
    requires IsRun(trace, ops) && k < j <= |ops| && p < |trace[k].items|
    requires ops[k].CompleteOp? && Settles(trace[k], ops[k], p) && ops[k].outcome.GiveUp?
    requires forall m :: k < m < j ==> !(ops[m].RetryOp? && Names(ops[m].only, trace[k].items[p]))
    ensures AnswerStands(trace, ops, k, j, p)
    ensures j < |ops| ==> p < |trace[j].items| && !HandsOut(trace[j], ops[j], p)
  {
    hide Apply, Settles, HandsOut;
    if k < j - 1 {
      GivenUpStaysOut(trace, ops, k, j - 1, p);
    }
    AnswerHolds(trace, ops, k, j, p);
    if j < |ops| {
      TouchDecides(trace[j], ops[j], p);
      FailureStep(trace, ops, j + 1, p);
    }
  }

  // ---------- Who is handed out ----------

  ghost predicate Reached(t: Stamp, now: int) { t.At? && t.ms <= now }

  /** The item may be handed out at this time to a claim that names it or nobody. */
  ghost predicate IsDue(cfg: Config, x: Item, now: int, max: int) {
    && x.attemptCycleCount < max
    && (|| x.state == Queued
        || (x.state == AwaitingSender && cfg.companyEmail.Some? && cfg.companyEmail.value != "")
        || (x.state in {Failed, RetryScheduled} && (x.nextAttemptAt.Never? || Reached(x.nextAttemptAt, now)))
        || (x.state in {Sending, Retrying} && Reached(x.leaseUntil, now)))
  }

  /** A claim hands out the first item, in the order of queueing, that it may and that is due, in any file. */
  lemma HandedOutIff(s: Store, op: Op, p: nat)
    requires op.ClaimOp? && p < |s.items|
    ensures HandsOut(s, op, p) <==>
      && Names(op.only, s.items[p]) && IsDue(s.cfg, s.items[p], op.now, op.maxAttempts)
      && forall q :: 0 <= q < p ==> !(Names(op.only, s.items[q]) && IsDue(s.cfg, s.items[q], op.now, op.maxAttempts))
  {
  }

  // ---------- What callers are told ----------

  /** The public view of the stored item: everything but the text and the token. */
  ghost predicate Shows(r: Item, x: Item) {
    && r.letter.content.Withheld? && r.claimToken.None?
    && (r.letter.id, r.letter.to, r.letter.subject, r.letter.kind, r.letter.idempotencyKey, r.letter.createdAt)
         == (x.letter.id, x.letter.to, x.letter.subject, x.letter.kind, x.letter.idempotencyKey, x.letter.createdAt)
    && (r.from, r.state, r.nextAttemptAt, r.leaseUntil, r.notes)
         == (x.from, x.state, x.nextAttemptAt, x.leaseUntil, x.notes)
    && (r.attemptCount, r.attemptCycleCount, r.manualRetryCount)
         == (x.attemptCount, x.attemptCycleCount, x.manualRetryCount)
  }

  /** The answer about an id: the item as it is stored after the call, or nothing if none has this id. */
  ghost predicate AnswersFor(id: nat, t: Store, r: Option<Item>) {
    if r.None? then forall p :: 0 <= p < |t.items| ==> t.items[p].letter.id != id
    else exists p :: 0 <= p < |t.items| && t.items[p].letter.id == id && Shows(r.value, t.items[p])
  }

  lemma AnswersShowTheStore(s: Store, id: nat, flag: bool, token: Option<nat>, o: Outcome, now: int)
    ensures var (t, r) := SetCommitState(s, id, flag); AnswersFor(id, t, r)
    ensures var (t, r) := SetDeliveryOutcome(s, id, if flag then Sent else Failed); AnswersFor(id, t, r)
    ensures var (t, r) := CompleteClaim(s, id, token, o, now); AnswersFor(id, t, r)
  {
    var at := ById(s.items, id);
    if at.Some? {
      var p := at.value;
      var (t, r) := SetCommitState(s, id, flag);
      assert Shows(r.value, t.items[p]);
      var (t', r') := SetDeliveryOutcome(s, id, if flag then Sent else Failed);
      assert Shows(r'.value, t'.items[p]);
      var (t'', r'') := CompleteClaim(s, id, token, o, now);
      assert Shows(r''.value, t''.items[p]);
    }
  }

  /** A keyed request is answered with the item of that key, any other with the new last item. */
  lemma QueueShowsTheStore(s: Store, q: Request, now: int)
    ensures var (t, r) := Queue(s, q, now);
      if r.Ok? then (exists p ::
             && 0 <= p < |t.items| && Shows(r.value, t.items[p])
             && (p < |s.items| ==> Given(q.idempotencyKey) && t.items[p].letter.idempotencyKey == q.idempotencyKey))
      else t == s
  {
    hide BodyText, SubjectText, KindText;
    var (t, r) := Queue(s, q, now);
    if r.Ok? {
      var found := if Given(q.idempotencyKey) then ByKey(s.items, q.idempotencyKey.value) else None;
      var p := if found.Some? then found.value else |s.items|;
      assert Shows(r.value, t.items[p]);
    }
  }

  /** A worker is shown the item it got, with the token that is stored for it. */
  lemma ClaimShowsTheStore(s: Store, op: Op, p: nat)
    requires op.ClaimOp? && HandsOut(s, op, p)
    ensures var (t, r) := ClaimNext(s, op.now, op.maxAttempts, op.leaseMs, op.only);
      && p < |t.items|
      && match r
         case Ok(Some(h)) =>
           Shows(h.item, t.items[p]) && t.items[p].claimToken == Some(h.token)
           && Open(s.cfg, s.items[p].letter.content) == Ok(h.body)
         case Ok(None) => false
         case Err(e) => Open(s.cfg, s.items[p].letter.content).Err? && e == NotConfigured
  {
  }

  // ---------- Leases ----------

  ghost predicate ClockNeverRunsBack(ops: seq<Op>) {
    forall a, b :: 0 <= a <= b < |ops| && ops[a].ClaimOp? && ops[b].ClaimOp? ==> ops[a].now <= ops[b].now
  }

  ghost predicate SettledBetween(trace: seq<Store>, ops: seq<Op>, i: nat, j: nat, p: nat)
    requires IsRun(trace, ops) && i < |ops| && j <= |ops|
  {
    exists k :: i < k < j && Settles(trace[k], ops[k], p) && ops[k].token == Some(trace[i].issued)
  }

  ghost predicate TakenOverBetween(trace: seq<Store>, ops: seq<Op>, i: nat, j: nat, p: nat)
    requires IsRun(trace, ops) && i < |ops| && j <= |ops| && ops[i].ClaimOp?
  {
    exists k :: i < k < j && HandsOut(trace[k], ops[k], p) && ops[i].now + ops[i].leaseMs <= ops[k].now
  }

  /** After a hand-out the item stays with that claim until the claim is settled or, its lease having
      run out, the item is handed out again. */
  lemma {:induction false} LeaseHolds(trace: seq<Store>, ops: seq<Op>, i: nat, j: nat, p: nat)
    requires IsRun(trace, ops) && i < j < |trace| && HandsOut(trace[i], ops[i], p)
    ensures p < |trace[j].items|
    ensures
      || SettledBetween(trace, ops, i, j, p)
      || TakenOverBetween(trace, ops, i, j, p)
      || (trace[j].items[p].state == Sending && trace[j].items[p].claimToken == Some(trace[i].issued)
          && trace[j].items[p].leaseUntil == At(ops[i].now + ops[i].leaseMs))
  {
    hide Apply, NextPosition, ById;
    var k := j - 1;
    OneStep(trace[k], ops[k]);
    if i == k {
      HandoutFacts(trace[i], ops[i], p);
    } else {
      LeaseHolds(trace, ops, i, k, p);
      assert ItemStep(trace[k], ops[k], p, trace[k].items[p], trace[j].items[p]);
      if !SettledBetween(trace, ops, i, k, p) && !TakenOverBetween(trace, ops, i, k, p) {
        if Settles(trace[k], ops[k], p) {
          assert SettledBetween(trace, ops, i, j, p);
        } else if HandsOut(trace[k], ops[k], p) {
          assert TakenOverBetween(trace, ops, i, j, p);
        }
      }
    }
  }

  /** Main result on leases: one item is handed out twice only if the earlier claim was completed with
      its own token or its lease had run out by the time of the later claim. */
  lemma LeaseExclusivity(trace: seq<Store>, ops: seq<Op>, i: nat, j: nat, p: nat)
    requires IsRun(trace, ops) && ClockNeverRunsBack(ops) && i < j < |ops|
    requires HandsOut(trace[i], ops[i], p) && HandsOut(trace[j], ops[j], p)
    ensures SettledBetween(trace, ops, i, j, p) || ops[i].now + ops[i].leaseMs <= ops[j].now
  {
    LeaseHolds(trace, ops, i, j, p);
    if TakenOverBetween(trace, ops, i, j, p) {
      var k :| i < k < j && HandsOut(trace[k], ops[k], p) && ops[i].now + ops[i].leaseMs <= ops[k].now;
      assert ops[k].now <= ops[j].now;
    }
  }

  /** The hand-out i of the item at p is the latest one before step j and was not settled before it. */
  ghost predicate IsLiveHandout(trace: seq<Store>, ops: seq<Op>, i: nat, j: nat, p: nat)
    requires IsRun(trace, ops) && j <= |ops|
  {
    && i < j && HandsOut(trace[i], ops[i], p)
    && forall k :: i < k < j ==> !HandsOut(trace[k], ops[k], p) && !Settles(trace[k], ops[k], p)
  }

  /** A token found in the file is the token of the live hand-out of its item. */
  lemma {:induction false} TokenIsLive(trace: seq<Store>, ops: seq<Op>, j: nat, p: nat) returns (i: nat)
    requires IsRun(trace, ops) && j < |trace| && p < |trace[j].items| && trace[j].items[p].claimToken.Some?
    ensures IsLiveHandout(trace, ops, i, j, p) && trace[j].items[p].claimToken == Some(trace[i].issued)
  {
    hide Apply, NextPosition, ById, StepShape;
    var k := j - 1;
    OneStep(trace[k], ops[k]);
    ReachableInv(trace, ops, k);
    TokenStep(trace[k], ops[k], trace[j], p);
    i := k;
    if !HandsOut(trace[k], ops[k], p) {
      i := TokenIsLive(trace, ops, k, p);
    }
  }

  /** completeClaim changes the file exactly when it carries the token of the live hand-out of the item
      it names: a stale, foreign or already used token changes nothing. */
  lemma CompletionNeedsLiveToken(trace: seq<Store>, ops: seq<Op>, j: nat)
    requires IsRun(trace, ops) && j < |ops| && ops[j].CompleteOp?
    ensures trace[j + 1] != trace[j] <==>
      exists p: nat, i: nat ::
        p < |trace[j].items| && trace[j].items[p].letter.id == ops[j].id
        && IsLiveHandout(trace, ops, i, j, p) && ops[j].token == Some(trace[i].issued)
  {
    ReachableInv(trace, ops, j);
    var at := ById(trace[j].items, ops[j].id);
    if trace[j + 1] != trace[j] {
      var i := TokenIsLive(trace, ops, j, at.value);
      assert trace[j].items[at.value].letter.id == ops[j].id;
    }
    forall p: nat, i: nat | p < |trace[j].items| && trace[j].items[p].letter.id == ops[j].id
      && IsLiveHandout(trace, ops, i, j, p) && ops[j].token == Some(trace[i].issued)
      ensures trace[j + 1] != trace[j]
    {
      LeaseHolds(trace, ops, i, j, p);
      assert at == Some(p);
      assert trace[j + 1].items[p] == Completed(trace[j].items[p], ops[j].outcome, ops[j].now);
    }
  }

  /** An item whose last allowed attempt died while sending is stuck: unless its own token comes back,
      no operation with that budget, manual retry included, ever changes it again. */
  lemma {:induction false} StrandedForever(trace: seq<Store>, ops: seq<Op>, i: nat, j: nat, p: nat)
    requires Follows(trace, ops) && i <= j < |trace| && p < |trace[i].items|
    requires trace[i].items[p].state == Sending
    requires forall k :: i <= k < j ==> !Settles(trace[k], ops[k], p)
    requires forall k :: i <= k < j && ops[k].ClaimOp? ==> ops[k].maxAttempts <= trace[i].items[p].attemptCycleCount
    ensures p < |trace[j].items| && trace[j].items[p] == trace[i].items[p]
  {
    hide Apply, NextPosition, ById;
    if i < j {
      StrandedForever(trace, ops, i, j - 1, p);
      OneStep(trace[j - 1], ops[j - 1]);
      assert ItemStep(trace[j - 1], ops[j - 1], p, trace[j - 1].items[p], trace[j].items[p]);
    }
  }

  /** An item in sending can be claimed again, at some time, exactly while its cycle is within the budget. */
  lemma ClaimableAgainIff(s: Store, p: nat, max: int, lease: int)
    requires Inv(s) && p < |s.items| && s.items[p].state == Sending
    ensures (exists now :: HandsOut(s, ClaimOp(now, max, lease, Some(s.items[p].letter.id)), p))
       <==> s.items[p].attemptCycleCount < max
  {
    var x := s.items[p];
    if x.attemptCycleCount < max {
      assert Claimable(s.cfg, x, x.leaseUntil.ms, max);
      assert HandsOut(s, ClaimOp(x.leaseUntil.ms, max, lease, Some(x.letter.id)), p);
    }
    forall now | HandsOut(s, ClaimOp(now, max, lease, Some(x.letter.id)), p) ensures x.attemptCycleCount < max {
      HandoutFacts(s, ClaimOp(now, max, lease, Some(x.letter.id)), p);
    }
  }

  /** These operations hand the item at p out at their k-th step, without its claim being settled before
      and with no budget but this one. */
  ghost predicate ComesBackIn(trace: seq<Store>, ops: seq<Op>, k: nat, p: nat, max: int) {
    && Follows(trace, ops) && k < |ops| && HandsOut(trace[k], ops[k], p)
    && (forall m :: 0 <= m < k ==> !Settles(trace[m], ops[m], p))
    && (forall m :: 0 <= m < |ops| && ops[m].ClaimOp? ==> ops[m].maxAttempts == max)
  }

  ghost predicate ComesBack(s: Store, p: nat, max: int) {
    exists trace: seq<Store>, ops, k: nat :: ComesBackIn(trace, ops, k, p, max) && trace[0] == s
  }

  /** Main result on crashed attempts: an item whose attempt died in sending is delivered by a later
      attempt in some continuation if and only if that attempt was not the last its budget allows. */
  lemma ComesBackIff(s: Store, p: nat, max: int)
    requires Inv(s) && p < |s.items| && s.items[p].state == Sending
    ensures ComesBack(s, p, max) <==> s.items[p].attemptCycleCount < max
  {
    hide Apply, NextPosition, ById, Inv;
    if s.items[p].attemptCycleCount < max {
      ClaimableAgainIff(s, p, max, 0);
      var now :| HandsOut(s, ClaimOp(now, max, 0, Some(s.items[p].letter.id)), p);
      var op := ClaimOp(now, max, 0, Some(s.items[p].letter.id));
      assert ComesBackIn([s, Apply(s, op)], [op], 0, p, max);
    }
    forall trace: seq<Store>, ops, k: nat | ComesBackIn(trace, ops, k, p, max) && trace[0] == s
      ensures s.items[p].attemptCycleCount < max
    {
      if s.items[p].attemptCycleCount >= max {
        StrandedForever(trace, ops, 0, k, p);
      }
      HandoutFacts(trace[k], ops[k], p);
    }
  }

  const OFFICE := Config(Some("office@farm"), None)

  const RECEIVED := Request("a@b", "A", "a", Some("received"), "", false, None, None, None, false, None)

  /** One mail, claimed n times at one lease after the other and never settled. */
  lemma {:induction false} ClaimedAgainAndAgain(max: nat, n: nat) returns (trace: seq<Store>, ops: seq<Op>)
    requires n <= max
    ensures IsRun(trace, ops) && |trace[|ops|].items| == 1
    ensures forall k :: 0 <= k < |ops| && ops[k].ClaimOp? ==> ops[k].maxAttempts == max
    ensures var x := trace[|ops|].items[0];
            && x.attemptCycleCount == n
            && (if n == 0 then x.state == Queued else x.state == Sending && x.leaseUntil == At(n))
  {
    hide BodyText, SubjectText, KindText;
    if n == 0 {
      var open, op := Store(Config(None, None), [], 0), ReopenOp(OFFICE);
      var s := Apply(open, op);
      trace, ops := [open, s, Apply(s, QueueOp(RECEIVED, 0))], [op, QueueOp(RECEIVED, 0)];
    } else {
      trace, ops := ClaimedAgainAndAgain(max, n - 1);
      var s, op := trace[|ops|], ClaimOp(n - 1, max, 1, None);
      assert Claimable(s.cfg, s.items[0], n - 1, max);
      assert HandsOut(s, op, 0);
      HandoutFacts(s, op, 0);
      trace, ops := trace + [Apply(s, op)], ops + [op];
    }
  }

  /** With every budget such an item is reachable: its last allowed attempt dies in sending. */
  lemma StrandedRun(max: nat) returns (trace: seq<Store>, ops: seq<Op>)
    requires max >= 1
    ensures IsRun(trace, ops) && |trace[|ops|].items| == 1 && trace[|ops|].items[0].state == Sending
    ensures forall k :: 0 <= k < |ops| && ops[k].ClaimOp? ==> ops[k].maxAttempts == max
    ensures !ComesBack(trace[|ops|], 0, max)
  {
    trace, ops := ClaimedAgainAndAgain(max, max);
    ReachableInv(trace, ops, |ops|);
    ComesBackIff(trace[|ops|], 0, max);
  }

  // ---------- Held mail ----------

  /** An item seen held for commit is handed out later only after markCommitted released it. */
  lemma {:induction false} HeldUntilCommitted(trace: seq<Store>, ops: seq<Op>, i: nat, j: nat, p: nat)
    requires IsRun(trace, ops) && i <= j < |trace| && p < |trace[i].items|
    requires trace[i].items[p].state in {PendingCommit, Aborted}
    requires forall k :: i <= k < j ==>
              !(ops[k].CommitOp? && ops[k].committed && ops[k].id == trace[i].items[p].letter.id)
    ensures p < |trace[j].items| && trace[j].items[p].state in {PendingCommit, Aborted}
    ensures j < |ops| ==> !HandsOut(trace[j], ops[j], p)
  {
    hide Apply, NextPosition, ById;
    if j < |ops| && HandsOut(trace[j], ops[j], p) {
      HandoutFacts(trace[j], ops[j], p);
    }
    if i < j {
      HeldUntilCommitted(trace, ops, i, j - 1, p);
      OneStep(trace[j - 1], ops[j - 1]);
      Conservation(trace, ops, i, j - 1);
      assert SameLetter(trace[i].items[p], trace[j - 1].items[p]);
      assert ItemStep(trace[j - 1], ops[j - 1], p, trace[j - 1].items[p], trace[j].items[p]);
    }
  }

  // ---------- Attempt accounting ----------

  ghost function Handouts(trace: seq<Store>, ops: seq<Op>, p: nat, j: nat): nat
    requires IsRun(trace, ops) && j < |trace|
  {
    if j == 0 then 0
    else Handouts(trace, ops, p, j - 1) + if HandsOut(trace[j - 1], ops[j - 1], p) then 1 else 0
  }

  /** attemptCount is exactly the number of times the item was handed out. */
  lemma {:induction false} AttemptCountIsHandouts(trace: seq<Store>, ops: seq<Op>, p: nat, j: nat)
    requires IsRun(trace, ops) && j < |trace|
    ensures Handouts(trace, ops, p, j) == if p < |trace[j].items| then trace[j].items[p].attemptCount else 0
  {
    hide Apply, NextPosition, ById;
    if j > 0 {
      AttemptCountIsHandouts(trace, ops, p, j - 1);
      OneStep(trace[j - 1], ops[j - 1]);
      if p < |trace[j - 1].items| {
        assert ItemStep(trace[j - 1], ops[j - 1], p, trace[j - 1].items[p], trace[j].items[p]);
      } else if HandsOut(trace[j - 1], ops[j - 1], p) {
        HandoutFacts(trace[j - 1], ops[j - 1], p);
      }
    }
  }

  ghost predicate WithinBudget(x: Item, max: nat) {
    && x.attemptCycleCount <= max
    && x.attemptCount - x.attemptCycleCount <= max * x.manualRetryCount
    && x.attemptCount <= max * (x.manualRetryCount + 1)
  }

  lemma BudgetStep(s: Store, op: Op, p: nat, a: Item, b: Item, max: nat)
    requires ItemStep(s, op, p, a, b) && WithinBudget(a, max) && (op.ClaimOp? ==> op.maxAttempts == max)
    ensures WithinBudget(b, max)
  {
    assert max * (a.manualRetryCount + 1) == max * a.manualRetryCount + max;
    assert max * (b.manualRetryCount + 1) == max * b.manualRetryCount + max;
  }

  /** With one budget, no cycle exceeds it and manual retries are the only way to more attempts. */
  lemma {:induction false} AttemptBudget(trace: seq<Store>, ops: seq<Op>, max: nat, p: nat, j: nat)
    requires IsRun(trace, ops) && j < |trace| && p < |trace[j].items|
    requires forall k :: 0 <= k < |ops| && ops[k].ClaimOp? ==> ops[k].maxAttempts == max
    ensures WithinBudget(trace[j].items[p], max)
  {
    hide Apply, NextPosition, ById;
    if j > 0 {
      OneStep(trace[j - 1], ops[j - 1]);
      if p < |trace[j - 1].items| {
        AttemptBudget(trace, ops, max, p, j - 1);
        BudgetStep(trace[j - 1], ops[j - 1], p, trace[j - 1].items[p], trace[j].items[p], max);
      }
    }
  }

  // ---------- Stored text ----------

  /** A custom letter is stored with the caller's own text exactly when that text is not empty: an
      empty custom body is accepted but replaced by one of the standard account texts. */
  lemma CustomBodyKept(q: Request)
    requires Given(q.kind) && Rejection(q).None?
    ensures BodyText(q) == q.body.value <==> q.body.value != ""
  {
    if q.body.value == "" {
      StandardTextNotEmpty(q);
    }
  }

  lemma StandardTextNotEmpty(q: Request)
    requires !Given(q.body)
    ensures |BodyText(q)| > 0
  {
  }

  lemma EmptyCustomBodyBecomesRefusal(q: Request)
    requires Given(q.kind) && Given(q.subject) && q.body == Some("") && q.status == None
    ensures Rejection(q).None?
    ensures BodyText(q) == "Hello " + q.fullName
              + ", your Phone Farm account application (" + q.username + ") was not accepted."
  {
  }

  /** What a worker is given to send is what the request that created the item asked for, however late
      and after however many attempts, sealed in between or not. */
  lemma DeliversQueuedText(trace: seq<Store>, ops: seq<Op>, i: nat, j: nat, h: Handout)
    requires IsRun(trace, ops) && i < j < |ops| && |trace[i + 1].items| > |trace[i].items|
    requires HandsOut(trace[j], ops[j], |trace[i].items|)
    requires ClaimNext(trace[j], ops[j].now, ops[j].maxAttempts, ops[j].leaseMs, ops[j].only).1 == Ok(Some(h))
    ensures ops[i].QueueOp? && h.body == BodyText(ops[i].q) && h.token == trace[j].issued
    ensures h.item.letter.to == ops[i].q.to && h.item.letter.subject == SubjectText(ops[i].q)
    ensures MustEncrypt(ops[i].q) <==> trace[j].items[|trace[i].items|].letter.content.Sealed?
  {
    hide BodyText, SubjectText, KindText;
    var p := |trace[i].items|;
    OneStep(trace[i], ops[i]);
    Conservation(trace, ops, i + 1, j);
    assert SameLetter(trace[i + 1].items[p], trace[j].items[p]);
  }

  /** It can be read exactly when it was stored in clear or the process has the key it was sealed with. */
  lemma ReadableIff(trace: seq<Store>, ops: seq<Op>, i: nat, j: nat)
    requires IsRun(trace, ops) && i < j < |ops| && |trace[i + 1].items| > |trace[i].items|
    requires HandsOut(trace[j], ops[j], |trace[i].items|)
    ensures ops[i].QueueOp?
    ensures ClaimNext(trace[j], ops[j].now, ops[j].maxAttempts, ops[j].leaseMs, ops[j].only).1.Ok?
       <==> || (ops[i].q.status != Some("recovery") && !ops[i].q.sensitive)
            || trace[j].cfg.encryptionKey == trace[i].cfg.encryptionKey
  {
    hide BodyText, SubjectText, KindText;
    var p := |trace[i].items|;
    OneStep(trace[i], ops[i]);
    Conservation(trace, ops, i + 1, j);
    assert SameLetter(trace[i + 1].items[p], trace[j].items[p]);
  }

  /** queue refuses a request without a known status or a whole letter of its own, and stores a new
      secret only when there is a key to seal it with. */
  lemma RefusedIff(s: Store, q: Request, now: int)
    ensures var r := Queue(s, q, now).1;
      && (r == Err(UnsupportedStatus) <==>
            !Given(q.kind) && q.status !in {Some("approved"), Some("rejected"), Some("recovery"), Some("received")})
      && (r == Err(CustomNeedsSubjectAndBody) <==> Given(q.kind) && !(Given(q.subject) && q.body.Some?))
      && (r == Err(NotConfigured) <==>
            && r != Err(UnsupportedStatus) && r != Err(CustomNeedsSubjectAndBody)
            && (q.status == Some("recovery") || q.sensitive) && !Given(s.cfg.encryptionKey)
            && forall p :: 0 <= p < |s.items| && Given(q.idempotencyKey) ==>
                 s.items[p].letter.idempotencyKey != q.idempotencyKey)
  {
    hide BodyText, SubjectText, KindText;
  }

  ghost predicate EndsWith(text: string, end: string) {
    |end| <= |text| && text[|text| - |end|..] == end
  }

  /** The recovery letter ends in the token to use and is never stored in clear. */
  lemma RecoveryLetter(s: Store, q: Request, now: int)
    requires !Given(q.body) && q.status == Some("recovery")
    ensures EndsWith(BodyText(q), q.recoveryToken)
    ensures NewItem(s, q, now).letter.content == Sealed(Or(s.cfg.encryptionKey, ""), BodyText(q))
  {
  }

  /** The kind names the status, unless the caller gives its own kind. */
  lemma StandardKind(q: Request)
    requires KnownStatus(q.status)
    ensures KindText(q) == if Given(q.kind) then q.kind.value else "account_" + q.status.value
  {
    hide BodyText, SubjectText;
    assert "account_" + "recovery" == "account_recovery";
  }

  /** The standard subject says what happened. */
  lemma StandardSubject(q: Request)
    requires !Given(q.subject)
    ensures q.status == Some("recovery") ==> EndsWith(SubjectText(q), "recovery")
    ensures q.status == Some("received") ==> EndsWith(SubjectText(q), "received")
    ensures q.status == Some("approved") ==> EndsWith(SubjectText(q), "was accepted")
    ensures q.status == Some("rejected") ==> EndsWith(SubjectText(q), "not accepted")
  {
    hide BodyText, KindText;
  }

  /** The letters on an application say what was decided. */
  lemma DecisionLetter(q: Request)
    requires !Given(q.body) && q.status in {Some("approved"), Some("rejected"), Some("received")}
    ensures EndsWith(BodyText(q), "not accepted.") <==> q.status == Some("rejected")
  {
    hide SubjectText, KindText;
    var b := BodyText(q);
    var n := |b|;
    if q.status == Some("approved") {
      assert b[n - 2] == 'p';
    } else if q.status == Some("received") {
      assert b[n - 2] == 'e';
    }
  }

  ghost predicate SenderKnown(cfg: Config, x: Item) {
    && (x.state in {Queued, Sending, Failed, RetryScheduled, PermanentlyFailed, Retrying} ==> Given(cfg.companyEmail))
    && (x.state == Sending ==> Given(x.from))
  }

  lemma SenderStep(s: Store, op: Op, p: nat, a: Item, b: Item)
    requires p < |s.items| && a == s.items[p] && ItemStep(s, op, p, a, b) && SenderKnown(s.cfg, a)
    ensures SenderKnown(s.cfg, b)
  {
    hide NextPosition, ById;
  }

  lemma SettingsStay(s: Store, op: Op)
    requires !op.ReopenOp?
    ensures Apply(s, op).cfg == s.cfg
  {
  }

  /** Under one configuration no item leaves without a sender address. */
  lemma {:induction false} HandedOutWithSender(trace: seq<Store>, ops: seq<Op>, j: nat, p: nat)
    requires IsRun(trace, ops) && j < |trace| && p < |trace[j].items|
    requires forall k :: 0 <= k < j ==> !ops[k].ReopenOp?
    ensures SenderKnown(trace[j].cfg, trace[j].items[p])
  {
    hide Apply, ItemStep, SenderKnown;
    if j > 0 {
      var s, op := trace[j - 1], ops[j - 1];
      OneStep(s, op);
      SettingsStay(s, op);
      if p < |s.items| {
        HandedOutWithSender(trace, ops, j - 1, p);
        SenderStep(s, op, p, s.items[p], trace[j].items[p]);
      } else {
        NewSender(s, op, trace[j].items[p]);
      }
    }
  }

  lemma NewSender(s: Store, op: Op, x: Item)
    requires IsNew(s, op, x)
    ensures SenderKnown(s.cfg, x)
  {
    hide BodyText, SubjectText, KindText;
  }
}

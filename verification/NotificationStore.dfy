/** The account notification outbox of system/server/src/accountNotificationStore.js: a list of
    letters in one file, claimed for delivery under a lease. The file is rewritten whole by every
    operation, so the state is a sequence of items; random UUIDs are a counter of values issued. */
module NotificationStore {
  import opened Common

  // ---------- Data ----------

  /** Retrying and NeedsReconciliation are states of older records: the code still branches on them. */
  datatype Delivery =
    | Queued | AwaitingSender | PendingCommit | Aborted | Sending | Sent
    | Failed | RetryScheduled | PermanentlyFailed | Retrying | NeedsReconciliation

  /** A date text: missing, a point in time, or a text that Date.parse cannot read. */
  datatype Stamp = Never | At(ms: int) | Unreadable

  /** A stored body: in clear, sealed under a key (authenticated encryption opens only with that
      key), or removed from a public view. */
  datatype Content = Plain(body: string) | Sealed(key: string, body: string) | Withheld

  /** What an item says and to whom: never changed once stored. */
  datatype Letter = Letter(
    id: nat, to: string, subject: string, content: Content, kind: string,
    idempotencyKey: Option<string>, createdAt: int)

  /** Time stamps and failure category kept for the administrators; nothing is decided by them. */
  datatype Notes = Notes(
    lastAttemptAt: Stamp, sentAt: Stamp, retryExhaustedAt: Stamp, lastManualRetryAt: Stamp,
    lastFailureCategory: Option<string>)

  datatype Item = Item(
    letter: Letter, from: Option<string>, state: Delivery,
    attemptCount: nat, attemptCycleCount: nat, manualRetryCount: nat,
    nextAttemptAt: Stamp, claimToken: Option<nat>, leaseUntil: Stamp, notes: Notes)

  datatype Config = Config(companyEmail: Option<string>, encryptionKey: Option<string>)

  /** The file, the settings of the process using it, and how many UUIDs exist. */
  datatype Store = Store(cfg: Config, items: seq<Item>, issued: nat)

  datatype Request = Request(
    to: string, fullName: string, username: string, status: Option<string>,
    recoveryToken: string, holdForCommit: bool, kind: Option<string>, subject: Option<string>,
    body: Option<string>, sensitive: bool, idempotencyKey: Option<string>)

  datatype Outcome = Delivered | Retry(at: Stamp, category: Option<string>) | GiveUp(category: Option<string>)

  datatype Handout = Handout(item: Item, body: string, token: nat)

  datatype Error = UnsupportedStatus | CustomNeedsSubjectAndBody | NotConfigured

  // ---------- Pure parts ----------

  predicate Passed(s: Stamp, now: int) { s.At? && s.ms <= now }

  /** The first position that satisfies p (Array.findIndex). */
  function FindFirst(items: seq<Item>, p: Item -> bool): (r: Option<nat>)
    ensures r.Some? ==> r.value < |items| && p(items[r.value]) && forall k :: 0 <= k < r.value ==> !p(items[k])
    ensures r.None? ==> forall k :: 0 <= k < |items| ==> !p(items[k])
  {
    if items == [] then None
    else if p(items[0]) then Some(0)
    else
      var rest := FindFirst(items[1..], p);
      assert forall k :: 1 <= k < |items| ==> items[k] == items[1..][k - 1];
      if rest.Some? then Some(rest.value + 1) else None
  }

  function ById(items: seq<Item>, id: nat): Option<nat> {
    FindFirst(items, (x: Item) => x.letter.id == id)
  }

  /** The public view of an item: no body, no sealed payload, no token. */
  function Safe(x: Item): Item {
    x.(letter := x.letter.(content := Withheld), claimToken := None)
  }

  /** The readable body, or the error thrown when the sealed text cannot be opened. */
  function Open(cfg: Config, c: Content): Result<string, Error> {
    match c
    case Plain(b) => Ok(b)
    case Sealed(k, b) => if Given(cfg.encryptionKey) && cfg.encryptionKey.value == k then Ok(b) else Err(NotConfigured)
    case Withheld => Err(NotConfigured)
  }

  function ReadyState(cfg: Config): Delivery {
    if Given(cfg.companyEmail) then Queued else AwaitingSender
  }

  predicate KnownStatus(status: Option<string>) {
    status.Some? && status.value in {"approved", "rejected", "recovery", "received"}
  }

  function BodyText(q: Request): string {
    if Given(q.body) then q.body.value
    else if q.status == Some("recovery") then
      "Hello " + q.fullName + ", use this one-time recovery token within 30 minutes: " + q.recoveryToken
    else if q.status == Some("received") then
      "Hello " + q.fullName + ", we've received your application (" + q.username
      + ") to join Phone Farm. Your onboarding is being reviewed, and you'll be notified as soon as a decision is made."
    else if q.status == Some("approved") then
      "Hello " + q.fullName + ", your Phone Farm account (" + q.username
      + ") was accepted. You can now sign in and complete two-factor setup."
    else
      "Hello " + q.fullName + ", your Phone Farm account application (" + q.username + ") was not accepted."
  }

  function SubjectText(q: Request): string {
    Or(q.subject,
       if q.status == Some("recovery") then "Phone Farm account recovery"
       else if q.status == Some("received") then "Your Phone Farm application was received"
       else if q.status == Some("approved") then "Your Phone Farm account was accepted"
       else "Your Phone Farm account application was not accepted")
  }

  function KindText(q: Request): string {
    Or(q.kind,
       if q.status == Some("recovery") then "account_recovery"
       else "account_" + (if q.status.Some? then q.status.value else "null"))
  }

  predicate MustEncrypt(q: Request) { q.status == Some("recovery") || q.sensitive }

  function NewItem(s: Store, q: Request, now: int): Item {
    var content := if MustEncrypt(q) then Sealed(Or(s.cfg.encryptionKey, ""), BodyText(q)) else Plain(BodyText(q));
    Item(Letter(s.issued, q.to, SubjectText(q), content, KindText(q),
                if Given(q.idempotencyKey) then q.idempotencyKey else None, now),
         s.cfg.companyEmail, if q.holdForCommit then PendingCommit else ReadyState(s.cfg),
         0, 0, 0, Never, None, Never, Notes(Never, Never, Never, Never, None))
  }

  function Rejection(q: Request): Option<Error> {
    if !Given(q.kind) && !KnownStatus(q.status) then Some(UnsupportedStatus)
    else if Given(q.kind) && (!Given(q.subject) || q.body.None?) then Some(CustomNeedsSubjectAndBody)
    else None
  }

  /** Whether an item may be handed out now: exactly the filter of claimNext. */
  predicate Claimable(cfg: Config, x: Item, now: int, maxAttempts: int) {
    x.attemptCycleCount < maxAttempts &&
    match x.state
    case Queued => true
    case AwaitingSender => Given(cfg.companyEmail)
    case Failed => x.nextAttemptAt.Never? || Passed(x.nextAttemptAt, now)
    case RetryScheduled => x.nextAttemptAt.Never? || Passed(x.nextAttemptAt, now)
    case Retrying => Passed(x.leaseUntil, now)
    case Sending => Passed(x.leaseUntil, now)
    case _ => false
  }

  function Claimed(cfg: Config, x: Item, now: int, leaseMs: int, token: nat): Item {
    x.(from := if Given(x.from) then x.from else cfg.companyEmail,
       state := Sending, attemptCount := x.attemptCount + 1, attemptCycleCount := x.attemptCycleCount + 1,
       notes := x.notes.(lastAttemptAt := At(now)), leaseUntil := At(now + leaseMs), nextAttemptAt := Never,
       claimToken := Some(token))
  }

  function Completed(x: Item, outcome: Outcome, now: int): Item {
    var rest := x.(claimToken := None, leaseUntil := Never);
    match outcome
    case Delivered => rest.(state := Sent, notes := x.notes.(sentAt := At(now)), nextAttemptAt := Never)
    case Retry(at, c) => rest.(state := RetryScheduled, nextAttemptAt := at, notes := WithCategory(x.notes, c))
    case GiveUp(c) => rest.(state := PermanentlyFailed, nextAttemptAt := Never,
                            notes := WithCategory(x.notes.(retryExhaustedAt := At(now)), c))
  }

  function WithCategory(n: Notes, category: Option<string>): Notes {
    if Given(category) then n.(lastFailureCategory := category) else n
  }

  predicate Retryable(x: Item) {
    x.state in {RetryScheduled, PermanentlyFailed, Failed, AwaitingSender, NeedsReconciliation}
  }

  function Retried(cfg: Config, x: Item, now: int): Item {
    x.(claimToken := None, leaseUntil := Never, state := ReadyState(cfg), attemptCycleCount := 0,
       manualRetryCount := x.manualRetryCount + 1, notes := x.notes.(lastManualRetryAt := At(now)),
       nextAttemptAt := Never)
  }

  // ---------- The operations on values ----------

  function ByKey(items: seq<Item>, key: string): Option<nat> {
    FindFirst(items, (x: Item) => x.letter.idempotencyKey == Some(key))
  }

  function Queue(s: Store, q: Request, now: int): (Store, Result<Item, Error>) {
    if Rejection(q).Some? then (s, Err(Rejection(q).value)) else
    var found := if Given(q.idempotencyKey) then ByKey(s.items, q.idempotencyKey.value) else None;
    if found.Some? then
      var prior := s.items[found.value];
      if q.holdForCommit && prior.state == Aborted then
        (s.(items := s.items[found.value := prior.(state := PendingCommit)]), Ok(Safe(prior.(state := PendingCommit))))
      else (s, Ok(Safe(prior)))
    else if MustEncrypt(q) && !Given(s.cfg.encryptionKey) then (s, Err(NotConfigured))
    else
      var x := NewItem(s, q, now);
      (s.(items := s.items + [x], issued := s.issued + 1), Ok(Safe(x)))
  }

  function SetCommitState(s: Store, id: nat, committed: bool): (Store, Option<Item>) {
    var at := ById(s.items, id);
    if at.None? then (s, None) else
    var x := s.items[at.value];
    if x.state != PendingCommit then (s, Some(Safe(x))) else
    var next := x.(state := if committed then ReadyState(s.cfg) else Aborted);
    (s.(items := s.items[at.value := next]), Some(Safe(next)))
  }

  function SetDeliveryOutcome(s: Store, id: nat, state: Delivery): (Store, Option<Item>) {
    var at := ById(s.items, id);
    if at.None? then (s, None) else
    var x := s.items[at.value];
    if x.state !in {Queued, Retrying} then (s, Some(Safe(x))) else
    var next := x.(claimToken := None, leaseUntil := Never, state := state);
    (s.(items := s.items[at.value := next]), Some(Safe(next)))
  }

  function NextPosition(s: Store, now: int, maxAttempts: int, id: Option<nat>): Option<nat> {
    FindFirst(s.items, (x: Item) => (id.None? || x.letter.id == id.value) && Claimable(s.cfg, x, now, maxAttempts))
  }

  /** The claim is written before the body is opened: when the body cannot be opened the caller gets
      an error although the item is already marked as sending. */
  function ClaimNext(s: Store, now: int, maxAttempts: int, leaseMs: int, id: Option<nat>)
    : (Store, Result<Option<Handout>, Error>)
  {
    var at := NextPosition(s, now, maxAttempts, id);
    if at.None? then (s, Ok(None)) else
    var next := Claimed(s.cfg, s.items[at.value], now, leaseMs, s.issued);
    (s.(items := s.items[at.value := next], issued := s.issued + 1),
     match Open(s.cfg, next.letter.content)
     case Ok(body) => Ok(Some(Handout(Safe(next), body, s.issued)))
     case Err(e) => Err(e))
  }

  function CompleteClaim(s: Store, id: nat, token: Option<nat>, outcome: Outcome, now: int): (Store, Option<Item>) {
    var at := ById(s.items, id);
    if at.None? then (s, None) else
    var x := s.items[at.value];
    if x.state !in {Retrying, Sending} || x.claimToken != token then (s, Some(Safe(x))) else
    var next := Completed(x, outcome, now);
    (s.(items := s.items[at.value := next]), Some(Safe(next)))
  }

  predicate Selected(x: Item, id: Option<nat>) { (id.None? || x.letter.id == id.value) && Retryable(x) }

  function RetryEligible(s: Store, id: Option<nat>, now: int): (Store, nat) {
    (s.(items := seq(|s.items|, i requires 0 <= i < |s.items| =>
                   if Selected(s.items[i], id) then Retried(s.cfg, s.items[i], now) else s.items[i])),
     CountSelected(s.items, id))
  }

  function CountSelected(items: seq<Item>, id: Option<nat>): nat {
    if items == [] then 0
    else CountSelected(items[..|items| - 1], id) + if Selected(items[|items| - 1], id) then 1 else 0
  }

  // ---------- The store object ----------

  class AccountNotificationStore {
    const cfg: Config
    var notifications: seq<Item>
    var issued: nat

    constructor (cfg: Config, notifications: seq<Item>, issued: nat)
      ensures Value() == Store(cfg, notifications, issued)
    {
      this.cfg, this.notifications, this.issued := cfg, notifications, issued;
    }

    function Value(): Store reads this { Store(cfg, notifications, issued) }

    method QueueItem(q: Request, now: int) returns (r: Result<Item, Error>)
      modifies this
      ensures (Value(), r) == Queue(old(Value()), q, now)
    {
      if !Given(q.kind) && !KnownStatus(q.status) { return Err(UnsupportedStatus); }
      if Given(q.kind) && (!Given(q.subject) || q.body.None?) { return Err(CustomNeedsSubjectAndBody); }
      if Given(q.idempotencyKey) {
        var existing := ByKey(notifications, q.idempotencyKey.value);
        if existing.Some? {
          if q.holdForCommit && notifications[existing.value].state == Aborted {
            notifications := notifications[existing.value := notifications[existing.value].(state := PendingCommit)];
          }
          return Ok(Safe(notifications[existing.value]));
        }
      }
      if MustEncrypt(q) && !Given(cfg.encryptionKey) { return Err(NotConfigured); }
      var item := NewItem(Value(), q, now);
      issued := issued + 1;
      notifications := notifications + [item];
      return Ok(Safe(item));
    }

    method SetCommit(id: nat, committed: bool) returns (r: Option<Item>)
      modifies this
      ensures (Value(), r) == SetCommitState(old(Value()), id, committed)
    {
      var at := ById(notifications, id);
      if at.None? { return None; }
      if notifications[at.value].state == PendingCommit {
        var state := if !committed then Aborted else if Given(cfg.companyEmail) then Queued else AwaitingSender;
        notifications := notifications[at.value := notifications[at.value].(state := state)];
      }
      return Some(Safe(notifications[at.value]));
    }

    method SetOutcome(id: nat, state: Delivery) returns (r: Option<Item>)
      modifies this
      ensures (Value(), r) == SetDeliveryOutcome(old(Value()), id, state)
    {
      var at := ById(notifications, id);
      if at.None? { return None; }
      if notifications[at.value].state in {Queued, Retrying} {
        notifications := notifications[at.value :=
          notifications[at.value].(claimToken := None, leaseUntil := Never, state := state)];
      }
      return Some(Safe(notifications[at.value]));
    }

    method Claim(now: int, maxAttempts: int, leaseMs: int, id: Option<nat>) returns (r: Result<Option<Handout>, Error>)
      modifies this
      ensures (Value(), r) == ClaimNext(old(Value()), now, maxAttempts, leaseMs, id)
    {
      var at := NextPosition(Value(), now, maxAttempts, id);
      if at.None? { return Ok(None); }
      var token := issued;
      issued := issued + 1;
      var next := Claimed(cfg, notifications[at.value], now, leaseMs, token);
      notifications := notifications[at.value := next];
      match Open(cfg, next.letter.content) {
        case Ok(body) => return Ok(Some(Handout(Safe(next), body, token)));
        case Err(e) => return Err(e);
      }
    }

    method Complete(id: nat, token: Option<nat>, outcome: Outcome, now: int) returns (r: Option<Item>)
      modifies this
      ensures (Value(), r) == CompleteClaim(old(Value()), id, token, outcome, now)
    {
      var at := ById(notifications, id);
      if at.None? { return None; }
      var current := notifications[at.value];
      if current.state !in {Retrying, Sending} || current.claimToken != token { return Some(Safe(current)); }
      var next := Completed(current, outcome, now);
      notifications := notifications[at.value := next];
      return Some(Safe(next));
    }

    method RetryAll(id: Option<nat>, now: int) returns (changed: nat)
      modifies this
      ensures (Value(), changed) == RetryEligible(old(Value()), id, now)
    {
      ghost var before := notifications;
      changed := 0;
      var next := [];
      for i := 0 to |notifications|
        invariant notifications == before && |next| == i
        invariant changed == CountSelected(before[..i], id)
        invariant forall k :: 0 <= k < i ==>
          next[k] == if Selected(before[k], id) then Retried(cfg, before[k], now) else before[k]
      {
        var item := notifications[i];
        assert before[..i + 1][..i] == before[..i];
        if Selected(item, id) {
          changed := changed + 1;
          item := Retried(cfg, item, now);
        }
        next := next + [item];
      }
      assert before[..|before|] == before;
      assert next == RetryEligible(old(Value()), id, now).0.items;
      if changed > 0 {
        notifications := next;
      } else {
        NoneSelected(before, id);
        assert next == before;
      }
    }
  }

  lemma {:induction false} NoneSelected(items: seq<Item>, id: Option<nat>)
    ensures CountSelected(items, id) == 0 <==> forall k :: 0 <= k < |items| ==> !Selected(items[k], id)
  {
    if items != [] {
      NoneSelected(items[..|items| - 1], id);
    }
  }
}

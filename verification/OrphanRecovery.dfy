/** Stopping what a previous run left behind (desktop/orphanRecovery.js), against a process table in
    which processes end and process ids are used again between any two looks. */
module OrphanRecovery {
  import opened Common

  // ---------- Processes and looks ----------

  datatype Process = Process(startTime: string, command: string, pgid: int)

  datatype Delivery = Delivered | NoSuchProcess | Refused

  /** One look at a process asks 'ps' twice, at two moments; either question may go unanswered.
      'delivery' is what happens to a signal sent right after the look. */
  datatype Glance = Glance(
    early: map<int, Process>, late: map<int, Process>, earlyAnswers: bool, lateAnswers: bool, delivery: Delivery)

  /** What every look finds, in order. */
  type World = nat -> Glance

  datatype Seen = Unknown | Nothing | Found(process: Process)

  /** describe (desktop/processInfo.js): null only when 'ps' confirms that the process is gone. The start
      time and the group are those of the first moment, the command that of the second. */
  function Describe(g: Glance, pid: int): Seen {
    if pid <= 0 then Nothing
    else if !g.earlyAnswers then Unknown
    else if pid !in g.early then Nothing
    else if !g.lateAnswers then Unknown
    else if pid !in g.late then Nothing
    else Found(Process(g.early[pid].startTime, g.late[pid].command, g.early[pid].pgid))
  }

  datatype Record = Record(kind: string, pid: int, startTime: Option<string>, command: Option<string>, unverified: bool)

  predicate Verified(r: Record) { !r.unverified && Given(r.startTime) && Given(r.command) }

  datatype Verdict = Same | Gone | Different | Unclear

  function Judge(seen: Seen, r: Record): Verdict {
    match seen
    case Unknown => Unclear
    case Nothing => Gone
    case Found(p) =>
      if Some(p.startTime) == r.startTime && Some(p.command) == r.command && p.pgid == r.pid then Same else Different
  }

  function Look(w: World, n: nat, r: Record): Verdict { Judge(Describe(w(n), r.pid), r) }

  // ---------- What the recovery does, as a history ----------

  datatype Event =
    | Looked(kind: string, pid: int, glance: Glance)
    | Asked(kind: string, pid: int)
    | Forced(kind: string, pid: int)
    | Slept(kind: string, ms: nat)
    | Forgot(kind: string, pid: int)

  function Eye(w: World, n: nat, r: Record): Event { Looked(r.kind, r.pid, w(n)) }

  /** The next look's number, the last verdict and the events so far. */
  datatype Part = Part(n: nat, verdict: Verdict, events: seq<Event>)

  function Rounds(timeoutMs: nat, pollMs: nat): (rounds: nat)
    requires pollMs > 0
  {
    var needed := (timeoutMs + pollMs - 1) / pollMs;
    if needed < 1 then 1 else needed
  }

  /** Sleep and look, at most 'left' times, while it is the same process. */
  function Poll(w: World, n: nat, r: Record, pollMs: nat, left: nat): Part
    decreases left
  {
    if left == 0 then Part(n, Same, []) else
    var v := Look(w, n, r);
    if v != Same then Part(n + 1, v, [Slept(r.kind, pollMs), Eye(w, n, r)])
    else var rest := Poll(w, n + 1, r, pollMs, left - 1);
         rest.(events := [Slept(r.kind, pollMs), Eye(w, n, r)] + rest.events)
  }

  /** Look and sleep, at most 'left' times, while it is the same process. */
  function Await(w: World, n: nat, r: Record, pollMs: nat, left: nat): Part
    decreases left
  {
    if left == 0 then Part(n, Same, []) else
    var v := Look(w, n, r);
    if v != Same then Part(n + 1, v, [Eye(w, n, r)])
    else var rest := Await(w, n + 1, r, pollMs, left - 1);
         rest.(events := [Eye(w, n, r), Slept(r.kind, pollMs)] + rest.events)
  }

  /** After the grace period: look once more, force the group if it is still the same, look again. */
  function Force(w: World, n: nat, r: Record, pollMs: nat): Part {
    if Look(w, n, r) != Same then Part(n + 2, Look(w, n + 1, r), [Eye(w, n, r), Eye(w, n + 1, r)])
    else
      var waiting := Await(w, n + 1, r, pollMs, 8);
      Part(waiting.n + 1, Look(w, waiting.n, r),
           [Eye(w, n, r), Forced(r.kind, r.pid)] + waiting.events + [Eye(w, waiting.n, r)])
  }

  function Stopping(w: World, n: nat, r: Record, timeoutMs: nat, pollMs: nat): Part
    requires pollMs > 0
  {
    var polled := Poll(w, n, r, pollMs, Rounds(timeoutMs, pollMs));
    if polled.verdict != Same then polled
    else var forced := Force(w, polled.n, r, pollMs);
         forced.(events := polled.events + forced.events)
  }

  /** One record: done (and forgotten), or blocking. */
  datatype Handled = Handled(n: nat, done: bool, terminated: bool, events: seq<Event>)

  function Handle(w: World, n: nat, r: Record, timeoutMs: nat, pollMs: nat): Handled
    requires pollMs > 0
  {
    var first := Look(w, n, r);
    var eye := [Eye(w, n, r)];
    var forgot := [Forgot(r.kind, r.pid)];
    if !Verified(r) then
      if Describe(w(n), r.pid).Nothing? then Handled(n + 1, true, false, eye + forgot)
      else Handled(n + 1, false, false, eye)
    else if first.Gone? || first.Different? then Handled(n + 1, true, false, eye + forgot)
    else if first.Unclear? then Handled(n + 1, false, false, eye)
    else
      var asked := eye + [Asked(r.kind, r.pid)];
      if w(n).delivery.Refused? then Handled(n + 1, false, false, asked)
      else
        var rest := Stopping(w, n + 1, r, timeoutMs, pollMs);
        if rest.verdict.Same? || rest.verdict.Unclear? then Handled(rest.n, false, false, asked + rest.events)
        else Handled(rest.n, true, true, asked + rest.events + forgot)
  }

  function Without(store: seq<Record>, kind: string, pid: int): seq<Record> {
    if store == [] then []
    else if store[0].kind == kind && store[0].pid == pid then Without(store[1..], kind, pid)
    else [store[0]] + Without(store[1..], kind, pid)
  }

  /** The whole recovery: what is still stored, whether it gave up, and its history. */
  datatype Outcome = Outcome(n: nat, store: seq<Record>, blocked: bool,
                             terminated: nat, dropped: nat, events: seq<Event>)

  function Recover(w: World, n: nat, store: seq<Record>, list: seq<Record>, timeoutMs: nat, pollMs: nat): Outcome
    requires pollMs > 0
    decreases |list|
  {
    if list == [] then Outcome(n, store, false, 0, 0, []) else
    var r := list[0];
    var h := Handle(w, n, r, timeoutMs, pollMs);
    if !h.done then Outcome(h.n, store, true, 0, 0, h.events)
    else
      var rest := Recover(w, h.n, Without(store, r.kind, r.pid), list[1..], timeoutMs, pollMs);
      Behind(h.events, if h.terminated then 1 else 0, 1, rest)
  }

  /** An outcome with an earlier history put before it. */
  function Behind(events: seq<Event>, terminated: nat, dropped: nat, o: Outcome): Outcome {
    o.(events := events + o.events, terminated := terminated + o.terminated, dropped := dropped + o.dropped)
  }

  // ---------- Signals to one process ----------

  predicate Signal(e: Event) { e.Asked? || e.Forced? }

  /** The signal directly follows a look that found this very process leading its own group. */
  ghost predicate Justified(es: seq<Event>, k: nat, r: Record)
    requires k < |es| && Signal(es[k])
  {
    es[k].kind == r.kind && es[k].pid == r.pid && Verified(r) && k > 0
    && es[k - 1].Looked? && es[k - 1].kind == r.kind && es[k - 1].pid == r.pid
    && Describe(es[k - 1].glance, r.pid) == Found(Process(r.startTime.value, r.command.value, r.pid))
  }

  ghost predicate OnlyWatches(es: seq<Event>, kind: string) {
    forall k :: 0 <= k < |es| ==> es[k].kind == kind && (es[k].Looked? || es[k].Slept?)
  }

  ghost predicate EndsWith(es: seq<Event>, r: Record, v: Verdict) {
    es != [] && es[|es| - 1].Looked? && es[|es| - 1].kind == r.kind && es[|es| - 1].pid == r.pid
    && Judge(Describe(es[|es| - 1].glance, r.pid), r) == v
  }

  function SleptFor(es: seq<Event>): nat {
    if es == [] then 0 else (if es[0].Slept? then es[0].ms else 0) + SleptFor(es[1..])
  }

  lemma {:induction false} SleptForJoins(a: seq<Event>, b: seq<Event>)
    ensures SleptFor(a + b) == SleptFor(a) + SleptFor(b)
  {
    if a == [] {
      assert a + b == b;
    } else {
      assert (a + b)[1..] == a[1..] + b;
      SleptForJoins(a[1..], b);
    }
  }

  lemma SleepAndLook(kind: string, ms: nat, look: Event)
    requires look.Looked?
    ensures SleptFor([Slept(kind, ms), look]) == ms
  {
    var es := [Slept(kind, ms), look];
    assert es[1..] == [look];
    assert [look][1..] == [];
    assert SleptFor([look]) == 0;
    assert SleptFor(es) == ms + SleptFor(es[1..]);
  }

  lemma {:induction false} PollWatches(w: World, n: nat, r: Record, pollMs: nat, left: nat)
    ensures var p := Poll(w, n, r, pollMs, left);
            OnlyWatches(p.events, r.kind) && (p.verdict.Same? ==> SleptFor(p.events) == left * pollMs)
    decreases left
  {
    if left > 0 && Look(w, n, r).Same? {
      PollWatches(w, n + 1, r, pollMs, left - 1);
      var head := [Slept(r.kind, pollMs), Eye(w, n, r)];
      SleepAndLook(r.kind, pollMs, Eye(w, n, r));
      SleptForJoins(head, Poll(w, n + 1, r, pollMs, left - 1).events);
      assert left * pollMs == pollMs + (left - 1) * pollMs;
    }
  }

  /** The last look of a poll is the one whose verdict counts. */
  lemma {:induction false} PollEndsWithItsVerdict(w: World, n: nat, r: Record, pollMs: nat, left: nat)
    requires left > 0
    ensures var p := Poll(w, n, r, pollMs, left); EndsWith(p.events, r, p.verdict)
    decreases left
  {
    if left > 1 && Look(w, n, r).Same? {
      PollEndsWithItsVerdict(w, n + 1, r, pollMs, left - 1);
    }
  }

  lemma {:induction false} AwaitWatches(w: World, n: nat, r: Record, pollMs: nat, left: nat)
    ensures OnlyWatches(Await(w, n, r, pollMs, left).events, r.kind)
    decreases left
  {
    if left > 0 && Look(w, n, r).Same? {
      AwaitWatches(w, n + 1, r, pollMs, left - 1);
    }
  }

  lemma RoundsCoverTheTimeout(timeoutMs: nat, pollMs: nat)
    requires pollMs > 0
    ensures Rounds(timeoutMs, pollMs) >= 1 && Rounds(timeoutMs, pollMs) * pollMs >= timeoutMs
  {
    var needed := (timeoutMs + pollMs - 1) / pollMs;
    assert needed * pollMs + (timeoutMs + pollMs - 1) % pollMs == timeoutMs + pollMs - 1;
    assert needed * pollMs >= timeoutMs;
    if needed < 1 { assert timeoutMs == 0; }
  }

  function Count(es: seq<Event>, e: Event): nat {
    if es == [] then 0 else (if es[0] == e then 1 else 0) + Count(es[1..], e)
  }

  lemma {:induction false} CountJoins(a: seq<Event>, b: seq<Event>, e: Event)
    ensures Count(a + b, e) == Count(a, e) + Count(b, e)
  {
    if a == [] {
      assert a + b == b;
    } else {
      assert (a + b)[1..] == a[1..] + b;
      CountJoins(a[1..], b, e);
    }
  }

  lemma CountOne(a: Event, e: Event)
    ensures Count([a], e) == if a == e then 1 else 0
  {
    assert [a][1..] == [];
  }

  lemma CountTwo(a: Event, b: Event, e: Event)
    ensures Count([a, b], e) == (if a == e then 1 else 0) + if b == e then 1 else 0
  {
    assert [a] + [b] == [a, b];
    CountJoins([a], [b], e);
    CountOne(a, e);
    CountOne(b, e);
  }

  lemma {:induction false} WatchingCountsNothing(es: seq<Event>, kind: string, e: Event)
    requires OnlyWatches(es, kind) && (Signal(e) || e.Forgot?)
    ensures Count(es, e) == 0
  {
    if es != [] {
      assert es[0].Looked? || es[0].Slept?;
      assert forall k :: 0 <= k < |es[1..]| ==> es[1..][k] == es[k + 1];
      WatchingCountsNothing(es[1..], kind, e);
    }
  }

  // ---------- One record ----------

  ghost predicate AllJustified(es: seq<Event>, r: Record) {
    forall k :: 0 <= k < |es| && Signal(es[k]) ==> Justified(es, k, r)
  }

  lemma JustifiedJoins(a: seq<Event>, b: seq<Event>, r: Record)
    requires AllJustified(a, r) && AllJustified(b, r)
    ensures AllJustified(a + b, r)
  {
    var es := a + b;
    forall k | 0 <= k < |es| && Signal(es[k]) ensures Justified(es, k, r) {
      if k < |a| {
        assert Justified(a, k, r);
      } else {
        assert Justified(b, k - |a|, r);
      }
    }
  }

  /** After a look that found the same process, a signal is justified. */
  lemma LookThenSignal(w: World, n: nat, r: Record, e: Event)
    requires Verified(r) && Look(w, n, r).Same? && Signal(e) && e.kind == r.kind && e.pid == r.pid
    ensures AllJustified([Eye(w, n, r), e], r)
  {
  }

  /** The signals of one part: justified, and at most one group signal in it. */
  ghost predicate Careful(es: seq<Event>, r: Record, asked: nat, forced: nat) {
    && AllJustified(es, r)
    && Count(es, Asked(r.kind, r.pid)) <= asked && Count(es, Forced(r.kind, r.pid)) <= forced
    && (forall k :: 0 <= k < |es| ==> es[k].kind == r.kind)
  }

  lemma CarefulJoins(a: seq<Event>, b: seq<Event>, r: Record, asked: nat, forced: nat, asked': nat, forced': nat)
    requires Careful(a, r, asked, forced) && Careful(b, r, asked', forced')
    ensures Careful(a + b, r, asked + asked', forced + forced')
  {
    hide AllJustified;
    JustifiedJoins(a, b, r);
    CountJoins(a, b, Asked(r.kind, r.pid));
    CountJoins(a, b, Forced(r.kind, r.pid));
  }

  lemma WatchingIsCareful(es: seq<Event>, r: Record)
    requires OnlyWatches(es, r.kind)
    ensures Careful(es, r, 0, 0)
  {
    WatchingCountsNothing(es, r.kind, Asked(r.kind, r.pid));
    WatchingCountsNothing(es, r.kind, Forced(r.kind, r.pid));
  }

  lemma ForceIsCareful(w: World, n: nat, r: Record, pollMs: nat)
    requires Verified(r)
    ensures var f := Force(w, n, r, pollMs); Careful(f.events, r, 0, 1) && EndsWith(f.events, r, f.verdict)
  {
    hide Careful, Look, Await, OnlyWatches;
    if Look(w, n, r) != Same {
      assert OnlyWatches([Eye(w, n, r), Eye(w, n + 1, r)], r.kind) by { TwoLooks(w, n, r); }
      WatchingIsCareful([Eye(w, n, r), Eye(w, n + 1, r)], r);
      Wider([Eye(w, n, r), Eye(w, n + 1, r)], r);
      assert Look(w, n + 1, r) == Judge(Describe(w(n + 1), r.pid), r) by { LookIs(w, n + 1, r); }
    } else {
      var waiting := Await(w, n + 1, r, pollMs, 8);
      var head := [Eye(w, n, r), Forced(r.kind, r.pid)];
      LookAndForce(w, n, r);
      AwaitWatches(w, n + 1, r, pollMs, 8);
      WatchingIsCareful(waiting.events, r);
      CarefulJoins(head, waiting.events, r, 0, 1, 0, 0);
      OneLook(w, waiting.n, r);
      WatchingIsCareful([Eye(w, waiting.n, r)], r);
      CarefulJoins(head + waiting.events, [Eye(w, waiting.n, r)], r, 0, 1, 0, 0);
      LookIs(w, waiting.n, r);
    }
  }

  lemma LookIs(w: World, n: nat, r: Record)
    ensures Look(w, n, r) == Judge(Describe(w(n), r.pid), r)
  {
  }

  lemma OneLook(w: World, n: nat, r: Record)
    ensures OnlyWatches([Eye(w, n, r)], r.kind)
  {
  }

  lemma TwoLooks(w: World, n: nat, r: Record)
    ensures OnlyWatches([Eye(w, n, r), Eye(w, n + 1, r)], r.kind)
  {
  }

  lemma Wider(es: seq<Event>, r: Record)
    requires Careful(es, r, 0, 0)
    ensures Careful(es, r, 0, 1)
  {
  }

  lemma LookAndForce(w: World, n: nat, r: Record)
    requires Verified(r) && Look(w, n, r).Same?
    ensures Careful([Eye(w, n, r), Forced(r.kind, r.pid)], r, 0, 1)
  {
    var es := [Eye(w, n, r), Forced(r.kind, r.pid)];
    LookThenSignal(w, n, r, Forced(r.kind, r.pid));
    CountTwo(es[0], es[1], Asked(r.kind, r.pid));
    CountTwo(es[0], es[1], Forced(r.kind, r.pid));
  }

  lemma LookAndAsk(w: World, n: nat, r: Record)
    requires Verified(r) && Look(w, n, r).Same?
    ensures Careful([Eye(w, n, r), Asked(r.kind, r.pid)], r, 1, 0)
  {
    var es := [Eye(w, n, r), Asked(r.kind, r.pid)];
    LookThenSignal(w, n, r, Asked(r.kind, r.pid));
    CountTwo(es[0], es[1], Asked(r.kind, r.pid));
    CountTwo(es[0], es[1], Forced(r.kind, r.pid));
  }

  lemma StoppingIsCareful(w: World, n: nat, r: Record, timeoutMs: nat, pollMs: nat)
    requires Verified(r) && pollMs > 0
    ensures var p := Stopping(w, n, r, timeoutMs, pollMs);
            Careful(p.events, r, 0, 1) && EndsWith(p.events, r, p.verdict)
  {
    hide Careful, Poll, Force, OnlyWatches, EndsWith;
    RoundsCoverTheTimeout(timeoutMs, pollMs);
    var left := Rounds(timeoutMs, pollMs);
    var polled := Poll(w, n, r, pollMs, left);
    PollWatches(w, n, r, pollMs, left);
    PollEndsWithItsVerdict(w, n, r, pollMs, left);
    WatchingIsCareful(polled.events, r);
    if polled.verdict.Same? {
      var forced := Force(w, polled.n, r, pollMs);
      ForceIsCareful(w, polled.n, r, pollMs);
      CarefulJoins(polled.events, forced.events, r, 0, 0, 0, 1);
      LastOf(polled.events, forced.events, r, forced.verdict);
    } else {
      Wider(polled.events, r);
    }
  }

  lemma LastOf(a: seq<Event>, b: seq<Event>, r: Record, v: Verdict)
    requires EndsWith(b, r, v)
    ensures EndsWith(a + b, r, v)
  {
  }

  /** Forgetting is the last thing done, and only after a look that found the process gone or replaced
      (or, for a record that was never verified, gone). */
  ghost predicate ForgottenAtTheEnd(h: Handled, r: Record) {
    var es := h.events;
    if h.done then
      |es| >= 2 && es[|es| - 1] == Forgot(r.kind, r.pid)
      && (EndsWith(es[..|es| - 1], r, Gone) || (Verified(r) && EndsWith(es[..|es| - 1], r, Different)))
      && forall k :: 0 <= k < |es| - 1 ==> !es[k].Forgot?
    else forall k :: 0 <= k < |es| ==> !es[k].Forgot?
  }

  lemma Forgetting(es: seq<Event>, r: Record, n: nat, terminated: bool, asked: nat, forced: nat)
    requires Careful(es, r, asked, forced) && NoForgot(es)
    requires EndsWith(es, r, Gone) || (Verified(r) && EndsWith(es, r, Different))
    ensures Careful(es + [Forgot(r.kind, r.pid)], r, asked, forced)
    ensures ForgottenAtTheEnd(Handled(n, true, terminated, es + [Forgot(r.kind, r.pid)]), r)
  {
    var last := [Forgot(r.kind, r.pid)];
    CountOne(last[0], Asked(r.kind, r.pid));
    CountOne(last[0], Forced(r.kind, r.pid));
    assert Careful(last, r, 0, 0);
    CarefulJoins(es, last, r, asked, forced, 0, 0);
    assert (es + last)[..|es + last| - 1] == es;
  }

  ghost predicate NoForgot(es: seq<Event>) { forall k :: 0 <= k < |es| ==> !es[k].Forgot? }

  lemma StoppingForgetsNothing(w: World, n: nat, r: Record, timeoutMs: nat, pollMs: nat)
    requires pollMs > 0
    ensures NoForgot(Stopping(w, n, r, timeoutMs, pollMs).events)
  {
    hide Poll, Await, Look;
    PollWatches(w, n, r, pollMs, Rounds(timeoutMs, pollMs));
    var polled := Poll(w, n, r, pollMs, Rounds(timeoutMs, pollMs));
    AwaitWatches(w, polled.n + 1, r, pollMs, 8);
  }

  lemma AskingIsCareful(w: World, n: nat, r: Record, timeoutMs: nat, pollMs: nat)
    requires pollMs > 0 && Verified(r) && Look(w, n, r).Same?
    ensures var h := Handle(w, n, r, timeoutMs, pollMs);
            && Careful(h.events, r, 1, 1) && ForgottenAtTheEnd(h, r)
            && h.terminated == h.done && Count(h.events, Asked(r.kind, r.pid)) == 1
  {
    hide Careful, Stopping, ForgottenAtTheEnd, OnlyWatches, Describe, EndsWith, Count;
    var h := Handle(w, n, r, timeoutMs, pollMs);
    var asked := [Eye(w, n, r), Asked(r.kind, r.pid)];
    assert [Eye(w, n, r)] + [Asked(r.kind, r.pid)] == asked;
    LookAndAsk(w, n, r);
    CountTwo(asked[0], asked[1], Asked(r.kind, r.pid));
    if w(n).delivery.Refused? {
      Widest(asked, r, 1, 0);
      Kept(h, r);
    } else {
      var rest := Stopping(w, n + 1, r, timeoutMs, pollMs);
      StoppingIsCareful(w, n + 1, r, timeoutMs, pollMs);
      StoppingForgetsNothing(w, n + 1, r, timeoutMs, pollMs);
      CarefulJoins(asked, rest.events, r, 1, 0, 0, 1);
      LastOf(asked, rest.events, r, rest.verdict);
      CountJoins(asked, rest.events, Asked(r.kind, r.pid));
      AtMost(rest.events, r);
      if h.done {
        Forgetting(asked + rest.events, r, h.n, true, 1, 1);
        CountJoins(asked + rest.events, [Forgot(r.kind, r.pid)], Asked(r.kind, r.pid));
        CountOne(Forgot(r.kind, r.pid), Asked(r.kind, r.pid));
      } else {
        Kept(h, r);
      }
    }
  }

  /** A record whose process cannot be made sure of gets no signal; any other gets at most one SIGTERM
      and one group SIGKILL, each right after a look that found exactly the recorded process. */
  lemma HandlingIsCareful(w: World, n: nat, r: Record, timeoutMs: nat, pollMs: nat)
    requires pollMs > 0
    ensures var h := Handle(w, n, r, timeoutMs, pollMs);
            && Careful(h.events, r, 1, 1) && ForgottenAtTheEnd(h, r)
            && (h.terminated <==> h.done && Count(h.events, Asked(r.kind, r.pid)) == 1)
  {
    hide Careful, Stopping, ForgottenAtTheEnd, OnlyWatches, Describe;
    var eye := [Eye(w, n, r)];
    var h := Handle(w, n, r, timeoutMs, pollMs);
    OneLook(w, n, r);
    WatchingIsCareful(eye, r);
    WatchingCountsNothing(eye, r.kind, Asked(r.kind, r.pid));
    if Verified(r) && Look(w, n, r).Same? {
      assert eye + [Asked(r.kind, r.pid)] == [Eye(w, n, r), Asked(r.kind, r.pid)];
      AskingIsCareful(w, n, r, timeoutMs, pollMs);
    } else if h.done {
      LookIs(w, n, r);
      Forgetting(eye, r, n + 1, false, 0, 0);
      Widest(eye + [Forgot(r.kind, r.pid)], r, 0, 0);
      CountOne(Forgot(r.kind, r.pid), Asked(r.kind, r.pid));
      CountJoins(eye, [Forgot(r.kind, r.pid)], Asked(r.kind, r.pid));
    } else {
      Widest(eye, r, 0, 0);
      Kept(h, r);
    }
  }

  lemma Kept(h: Handled, r: Record)
    requires !h.done && NoForgot(h.events)
    ensures ForgottenAtTheEnd(h, r)
  {
  }

  lemma AtMost(es: seq<Event>, r: Record)
    requires Careful(es, r, 0, 1)
    ensures Count(es, Asked(r.kind, r.pid)) == 0
  {
  }

  lemma Widest(es: seq<Event>, r: Record, asked: nat, forced: nat)
    requires Careful(es, r, asked, forced) && asked <= 1 && forced <= 1
    ensures Careful(es, r, 1, 1)
  {
  }

  /** The group is forced only after the process was asked and then watched for the whole grace period. */
  lemma ForcedOnlyAfterTheGracePeriod(w: World, n: nat, r: Record, timeoutMs: nat, pollMs: nat, k: nat)
    requires pollMs > 0
    requires var es := Handle(w, n, r, timeoutMs, pollMs).events; k < |es| && es[k].Forced?
    ensures var es := Handle(w, n, r, timeoutMs, pollMs).events;
            k > 1 && es[1] == Asked(r.kind, r.pid) && SleptFor(es[2..k]) >= timeoutMs
  {
    hide Poll, Force, Describe, Look;
    var es := Handle(w, n, r, timeoutMs, pollMs).events;
    var left := Rounds(timeoutMs, pollMs);
    var polled := Poll(w, n + 1, r, pollMs, left);
    PollWatches(w, n + 1, r, pollMs, left);
    RoundsCoverTheTimeout(timeoutMs, pollMs);
    var p := |polled.events|;
    assert es[2..2 + p] == polled.events;
    assert forall j :: 2 <= j < 2 + p ==> es[j] == polled.events[j - 2];
    assert k >= 2 + p;
    assert es[2..k] == polled.events + es[2 + p..k];
    SleptForJoins(polled.events, es[2 + p..k]);
  }

  // ---------- All records ----------

  /** The store keeps one record per kind. */
  ghost predicate DistinctKinds(list: seq<Record>) {
    forall i, j :: 0 <= i < j < |list| ==> list[i].kind != list[j].kind
  }

  ghost predicate KindsIn(es: seq<Event>, list: seq<Record>) {
    forall k :: 0 <= k < |es| ==> exists i :: 0 <= i < |list| && list[i].kind == es[k].kind
  }

  lemma {:induction false} WithoutHead(list: seq<Record>, kind: string, pid: int)
    requires forall i :: 0 <= i < |list| ==> list[i].kind != kind
    ensures Without(list, kind, pid) == list
  {
    if list != [] {
      assert forall i :: 0 <= i < |list[1..]| ==> list[1..][i] == list[i + 1];
      WithoutHead(list[1..], kind, pid);
      assert list[0].kind != kind;
    }
  }

  lemma {:induction false} ForeignKind(es: seq<Event>, e: Event)
    requires forall k :: 0 <= k < |es| ==> es[k].kind != e.kind
    ensures Count(es, e) == 0
  {
    if es != [] {
      assert forall k :: 0 <= k < |es[1..]| ==> es[1..][k] == es[k + 1];
      ForeignKind(es[1..], e);
      assert es[0].kind != e.kind;
    }
  }

  /** No signal without a look at exactly the recorded process directly before it, and none twice. */
  ghost predicate SafelySignalled(es: seq<Event>, list: seq<Record>) {
    && (forall k :: 0 <= k < |es| && Signal(es[k]) ==> exists i :: 0 <= i < |list| && Justified(es, k, list[i]))
    && (forall i :: 0 <= i < |list| ==> Count(es, Asked(list[i].kind, list[i].pid)) <= 1
                                        && Count(es, Forced(list[i].kind, list[i].pid)) <= 1)
  }

  /** The record was forgotten right after a look that found its process gone or replaced. */
  ghost predicate SeenGone(es: seq<Event>, r: Record) {
    exists k :: 0 <= k < |es| && es[k] == Forgot(r.kind, r.pid)
      && (EndsWith(es[..k], r, Gone) || (Verified(r) && EndsWith(es[..k], r, Different)))
  }

  lemma SafetyJoins(a: seq<Event>, b: seq<Event>, list: seq<Record>)
    requires list != [] && DistinctKinds(list) && Careful(a, list[0], 1, 1)
    requires SafelySignalled(b, list[1..]) && KindsIn(b, list[1..])
    ensures SafelySignalled(a + b, list) && KindsIn(a + b, list)
  {
    hide Justified, Count;
    var es := a + b;
    forall k | 0 <= k < |es| && Signal(es[k])
      ensures exists i :: 0 <= i < |list| && Justified(es, k, list[i])
    {
      if k < |a| {
        assert Justified(a, k, list[0]);
        JustifiedLater([], a, b, k, list[0]);
        assert [] + a + b == es;
        assert Justified(es, k, list[0]);
      } else {
        assert b[k - |a|] == es[k];
        var i :| 0 <= i < |list[1..]| && Justified(b, k - |a|, list[1..][i]);
        JustifiedLater(a, b, [], k - |a|, list[1..][i]);
        assert a + b + [] == es;
        assert Justified(es, k, list[i + 1]);
      }
    }
    forall i | 0 <= i < |list|
      ensures Count(es, Asked(list[i].kind, list[i].pid)) <= 1 && Count(es, Forced(list[i].kind, list[i].pid)) <= 1
    {
      var ask, force := Asked(list[i].kind, list[i].pid), Forced(list[i].kind, list[i].pid);
      CountJoins(a, b, ask);
      CountJoins(a, b, force);
      if i == 0 {
        forall k | 0 <= k < |b| ensures b[k].kind != list[0].kind {
          var m :| 0 <= m < |list[1..]| && list[1..][m].kind == b[k].kind;
          assert list[m + 1].kind != list[0].kind;
        }
        ForeignKind(b, ask);
        ForeignKind(b, force);
      } else {
        assert list[0].kind != list[i].kind;
        ForeignKind(a, ask);
        ForeignKind(a, force);
        assert list[1..][i - 1] == list[i];
      }
    }
    forall k | 0 <= k < |es| ensures exists i :: 0 <= i < |list| && list[i].kind == es[k].kind {
      if k < |a| {
        assert list[0].kind == es[k].kind;
      } else {
        assert es[k] == b[k - |a|];
        var m :| 0 <= m < |list[1..]| && list[1..][m].kind == b[k - |a|].kind;
        assert list[m + 1].kind == es[k].kind;
      }
    }
  }

  lemma JustifiedLater(a: seq<Event>, b: seq<Event>, c: seq<Event>, k: nat, r: Record)
    requires k < |b| && Signal(b[k]) && Justified(b, k, r)
    ensures (a + b + c)[|a| + k] == b[k] && Justified(a + b + c, |a| + k, r)
  {
    assert (a + b + c)[|a| + k - 1] == b[k - 1];
  }

  lemma SeenGoneLater(a: seq<Event>, b: seq<Event>, r: Record)
    requires SeenGone(b, r)
    ensures SeenGone(a + b, r)
  {
    hide Judge;
    var k :| 0 <= k < |b| && b[k] == Forgot(r.kind, r.pid)
          && (EndsWith(b[..k], r, Gone) || (Verified(r) && EndsWith(b[..k], r, Different)));
    assert (a + b)[|a| + k] == b[k] && (a + b)[..|a| + k] == a + b[..k];
  }

  lemma SeenGoneFirst(h: Handled, b: seq<Event>, r: Record)
    requires h.done && ForgottenAtTheEnd(h, r)
    ensures SeenGone(h.events + b, r)
  {
    hide EndsWith;
    var k := |h.events| - 1;
    assert (h.events + b)[..k] == h.events[..k] && (h.events + b)[k] == h.events[k];
  }

  lemma NothingYet(list: seq<Record>)
    ensures SafelySignalled([], list) && KindsIn([], list)
  {
  }

  lemma OneRecordIsSafe(es: seq<Event>, list: seq<Record>)
    requires list != [] && DistinctKinds(list) && Careful(es, list[0], 1, 1)
    ensures SafelySignalled(es, list) && KindsIn(es, list)
  {
    NothingYet(list[1..]);
    SafetyJoins(es, [], list);
    assert es + [] == es;
  }

  /** For every process table and every way it changes: the recovery either forgets all records, each
      right after its process was seen gone or replaced, or it gives up at one record and leaves that
      one and the later ones stored; and every signal was safe. */
  lemma {:induction false} RecoveryIsSafe(w: World, n: nat, list: seq<Record>, timeoutMs: nat, pollMs: nat)
    requires pollMs > 0 && DistinctKinds(list)
    ensures var o := Recover(w, n, list, list, timeoutMs, pollMs);
            && SafelySignalled(o.events, list) && KindsIn(o.events, list)
            && o.dropped <= |list| && o.store == list[o.dropped..] && (o.blocked <==> o.store != [])
            && (forall i :: 0 <= i < o.dropped ==> SeenGone(o.events, list[i]))
            && o.terminated <= o.dropped
    decreases |list|
  {
    hide Handle, SafelySignalled, KindsIn, SeenGone, Careful, ForgottenAtTheEnd, Verified;
    if list == [] {
      NothingYet(list);
    } else {
      var r, rest := list[0], list[1..];
      var h := Handle(w, n, r, timeoutMs, pollMs);
      HandlingIsCareful(w, n, r, timeoutMs, pollMs);
      if !h.done {
        OneRecordIsSafe(h.events, list);
      } else {
        WithoutHead(rest, r.kind, r.pid);
        assert Without(list, r.kind, r.pid) == rest;
        assert DistinctKinds(rest) by {
          forall i, j | 0 <= i < j < |rest| ensures rest[i].kind != rest[j].kind {
            assert list[i + 1].kind != list[j + 1].kind;
          }
        }
        RecoveryIsSafe(w, h.n, rest, timeoutMs, pollMs);
        var o := Recover(w, h.n, rest, rest, timeoutMs, pollMs);
        SafetyJoins(h.events, o.events, list);
        assert rest[o.dropped..] == list[o.dropped + 1..];
        forall i | 0 <= i < o.dropped + 1 ensures SeenGone(h.events + o.events, list[i]) {
          if i == 0 {
            SeenGoneFirst(h, o.events, r);
          } else {
            assert list[i] == rest[i - 1];
            SeenGoneLater(h.events, o.events, list[i]);
          }
        }
      }
    }
  }

  // ---------- What the looks said ----------

  /** 'ps' said that there is no such process: to the first question, or to the second. */
  ghost predicate SaidGone(g: Glance, pid: int) {
    pid <= 0 || (g.earlyAnswers && (pid !in g.early || (g.lateAnswers && pid !in g.late)))
  }

  /** A question that mattered went unanswered. */
  ghost predicate NotSaid(g: Glance, pid: int) {
    pid > 0 && (!g.earlyAnswers || (pid in g.early && !g.lateAnswers))
  }

  ghost predicate SaidThere(g: Glance, pid: int) {
    pid > 0 && g.earlyAnswers && g.lateAnswers && pid in g.early && pid in g.late
  }

  /** Start time, command and group are the recorded ones. */
  ghost predicate SaidSame(g: Glance, r: Record) {
    && SaidThere(g, r.pid)
    && r.startTime == Some(g.early[r.pid].startTime) && r.command == Some(g.late[r.pid].command)
    && g.early[r.pid].pgid == r.pid
  }

  ghost predicate SaidOther(g: Glance, r: Record) { SaidThere(g, r.pid) && !SaidSame(g, r) }

  lemma VerdictIff(w: World, n: nat, r: Record)
    ensures Look(w, n, r) == Gone <==> SaidGone(w(n), r.pid)
    ensures Look(w, n, r) == Unclear <==> NotSaid(w(n), r.pid)
    ensures Look(w, n, r) == Same <==> SaidSame(w(n), r)
    ensures Look(w, n, r) == Different <==> SaidOther(w(n), r)
    ensures Describe(w(n), r.pid).Nothing? <==> SaidGone(w(n), r.pid)
  {
  }

  /** A record with its start time and command. */
  ghost predicate Full(r: Record) {
    && !r.unverified && r.startTime.Some? && r.startTime.value != "" && r.command.Some? && r.command.value != ""
  }

  /** A watch ends with the first look that did not say "the same", or after all its looks. */
  ghost predicate WatchedUntil(w: World, n: nat, r: Record, p: Part, left: nat) {
    && n <= p.n <= n + left
    && (forall m: nat :: n <= m < p.n - 1 ==> SaidSame(w(m), r))
    && (p.verdict.Same? ==> p.n == n + left)
    && (left > 0 ==> p.n > n && p.verdict == Look(w, p.n - 1, r))
  }

  lemma {:induction false} WatchesUntil(w: World, n: nat, r: Record, pollMs: nat, left: nat)
    ensures WatchedUntil(w, n, r, Poll(w, n, r, pollMs, left), left)
    ensures WatchedUntil(w, n, r, Await(w, n, r, pollMs, left), left)
    decreases left
  {
    hide Look, SaidSame;
    if left > 0 {
      VerdictIff(w, n, r);
      if Look(w, n, r).Same? {
        WatchesUntil(w, n + 1, r, pollMs, left - 1);
      }
    }
  }

  /** One record in terms of what was said of it. What 'ps' did not answer keeps the record and ends the
      recovery; gone, or another process than a full record names, forgets it without a signal; only a
      process said to be the recorded one is asked to stop, and then the last look decides. */
  lemma HandledIff(w: World, n: nat, r: Record, timeoutMs: nat, pollMs: nat)
    requires pollMs > 0
    ensures var h := Handle(w, n, r, timeoutMs, pollMs);
      var look := Looked(r.kind, r.pid, w(n));
      && h.n > n
      && (NotSaid(w(n), r.pid) ==> h == Handled(n + 1, false, false, [look]))
      && (SaidGone(w(n), r.pid) ==> h == Handled(n + 1, true, false, [look, Forgot(r.kind, r.pid)]))
      && (SaidOther(w(n), r) && Full(r) ==> h == Handled(n + 1, true, false, [look, Forgot(r.kind, r.pid)]))
      && (SaidThere(w(n), r.pid) && !Full(r) ==> h == Handled(n + 1, false, false, [look]))
      && (SaidSame(w(n), r) && Full(r) ==>
            && [look, Asked(r.kind, r.pid)] <= h.events && h.terminated == h.done
            && (w(n).delivery.Refused? ==> h == Handled(n + 1, false, false, [look, Asked(r.kind, r.pid)]))
            && (!w(n).delivery.Refused? ==>
                  && h.n > n + 1
                  && (h.done <==> SaidGone(w(h.n - 1), r.pid) || SaidOther(w(h.n - 1), r))))
  {
    hide Look, Describe, Poll, Await, SaidSame;
    VerdictIff(w, n, r);
    var h := Handle(w, n, r, timeoutMs, pollMs);
    assert [Eye(w, n, r)] + [Forgot(r.kind, r.pid)] == [Eye(w, n, r), Forgot(r.kind, r.pid)];
    assert [Eye(w, n, r)] + [Asked(r.kind, r.pid)] == [Eye(w, n, r), Asked(r.kind, r.pid)];
    if Look(w, n, r).Same? && Full(r) && !w(n).delivery.Refused? {
      StoppingEndsWith(w, n + 1, r, timeoutMs, pollMs);
      VerdictIff(w, h.n - 1, r);
    }
  }

  lemma StoppingEndsWith(w: World, n: nat, r: Record, timeoutMs: nat, pollMs: nat)
    requires pollMs > 0
    ensures var p := Stopping(w, n, r, timeoutMs, pollMs); p.n > n && p.verdict == Look(w, p.n - 1, r)
  {
    hide Look, Poll, Await, Rounds;
    var left := Rounds(timeoutMs, pollMs);
    RoundsCoverTheTimeout(timeoutMs, pollMs);
    WatchesUntil(w, n, r, pollMs, left);
    var polled := Poll(w, n, r, pollMs, left);
    WatchesUntil(w, polled.n + 1, r, pollMs, 8);
  }

  /** How long a process is watched: every 'pollMs' until something else is said, through the grace
      period rounded up to whole rounds, and eight times after the group was forced. */
  lemma WatchedHowLong(w: World, n: nat, r: Record, timeoutMs: nat, pollMs: nat)
    requires pollMs > 0
    ensures var left := Rounds(timeoutMs, pollMs);
      && timeoutMs <= left * pollMs && (left > 1 ==> left * pollMs < timeoutMs + pollMs)
      && (var p := Stopping(w, n, r, timeoutMs, pollMs);
          (forall m: nat :: n <= m < n + left ==> SaidSame(w(m), r)) ==>
            p.n > n + left
            && (!SaidSame(w(n + left), r) ==> p.n == n + left + 2)
            && (SaidSame(w(n + left), r) ==>
                  n + left + 2 < p.n <= n + left + 10
                  && (forall m: nat :: n + left < m < p.n - 2 ==> SaidSame(w(m), r))
                  && (p.n < n + left + 10 ==> !SaidSame(w(p.n - 2), r))))
  {
    hide Look, Poll, Await, SaidSame;
    var left := Rounds(timeoutMs, pollMs);
    RoundsCoverTheTimeout(timeoutMs, pollMs);
    var needed := (timeoutMs + pollMs - 1) / pollMs;
    assert needed * pollMs <= timeoutMs + pollMs - 1;
    WatchesUntil(w, n, r, pollMs, left);
    var polled := Poll(w, n, r, pollMs, left);
    VerdictIff(w, polled.n - 1, r);
    VerdictIff(w, n + left, r);
    WatchesUntil(w, n + left + 1, r, pollMs, 8);
    VerdictIff(w, Await(w, n + left + 1, r, pollMs, 8).n - 1, r);
  }

  /** The event before says that the process is gone, or that a full record's id is another's. */
  ghost predicate RightlyForgotten(es: seq<Event>, k: nat, r: Record)
    requires k < |es|
  {
    && es[k] == Forgot(r.kind, r.pid)
    && k > 0 && es[k - 1].Looked? && es[k - 1].kind == r.kind && es[k - 1].pid == r.pid
    && (SaidGone(es[k - 1].glance, r.pid) || (Full(r) && SaidOther(es[k - 1].glance, r)))
  }

  /** Main result on forgetting: whenever a record is forgotten, the look directly before said that its
      process is gone or, of a full record, that it is another one; and a recovery that gives up does so
      because a look at the first record it keeps was not answered, or said the process is still there. */
  lemma {:induction false} ForgetsOnlyWhatIsGone(w: World, n: nat, store: seq<Record>, list: seq<Record>,
                                                 timeoutMs: nat, pollMs: nat)
    requires pollMs > 0
    ensures var o := Recover(w, n, store, list, timeoutMs, pollMs);
      && (forall k :: 0 <= k < |o.events| && o.events[k].Forgot? ==>
            exists i :: 0 <= i < |list| && RightlyForgotten(o.events, k, list[i]))
      && o.n >= n && o.dropped <= |list| && (o.blocked <==> o.dropped < |list|)
      && (o.blocked ==>
            && o.n > n
            && var r, g := list[o.dropped], w(o.n - 1);
               NotSaid(g, r.pid) || SaidSame(g, r) || (!Full(r) && SaidThere(g, r.pid)))
    decreases |list|
  {
    hide Handle, Without, SaidSame;
    if list != [] {
      var r := list[0];
      var h := Handle(w, n, r, timeoutMs, pollMs);
      var o := Recover(w, n, store, list, timeoutMs, pollMs);
      HandleForgets(w, n, r, timeoutMs, pollMs);
      if h.done {
        var left := Without(store, r.kind, r.pid);
        ForgetsOnlyWhatIsGone(w, h.n, left, list[1..], timeoutMs, pollMs);
        var rest := Recover(w, h.n, left, list[1..], timeoutMs, pollMs);
        forall k | 0 <= k < |o.events| && o.events[k].Forgot?
          ensures exists i :: 0 <= i < |list| && RightlyForgotten(o.events, k, list[i])
        {
          if k < |h.events| {
            assert RightlyForgotten(o.events, k, list[0]);
          } else {
            assert o.events[k] == rest.events[k - |h.events|];
            var i :| 0 <= i < |list[1..]| && RightlyForgotten(rest.events, k - |h.events|, list[1..][i]);
            assert RightlyForgotten(o.events, k, list[i + 1]);
          }
        }
      }
    }
  }

  lemma HandleForgets(w: World, n: nat, r: Record, timeoutMs: nat, pollMs: nat)
    requires pollMs > 0
    ensures var h := Handle(w, n, r, timeoutMs, pollMs);
      && h.n > n
      && (forall k :: 0 <= k < |h.events| && h.events[k].Forgot? ==> h.done && RightlyForgotten(h.events, k, r))
      && (!h.done ==> var g := w(h.n - 1);
                      NotSaid(g, r.pid) || SaidSame(g, r) || (!Full(r) && SaidThere(g, r.pid)))
  {
    hide Handle, SaidSame;
    HandledIff(w, n, r, timeoutMs, pollMs);
    HandlingIsCareful(w, n, r, timeoutMs, pollMs);
    var h := Handle(w, n, r, timeoutMs, pollMs);
    if h.done {
      var es := h.events[..|h.events| - 1];
      var look := es[|es| - 1];
      VerdictIff(_ => look.glance, 0, r);
    }
  }

  /** So a recovery that meets a live process of which 'ps' does not answer at the first look stops there,
      with that record and all later ones still stored. */
  lemma UnansweredKeepsTheRecord(w: World, n: nat, list: seq<Record>, timeoutMs: nat, pollMs: nat)
    requires pollMs > 0 && list != [] && NotSaid(w(n), list[0].pid)
    ensures Recover(w, n, list, list, timeoutMs, pollMs)
         == Outcome(n + 1, list, true, 0, 0, [Looked(list[0].kind, list[0].pid, w(n))])
  {
    HandledIff(w, n, list[0], timeoutMs, pollMs);
  }

  /** Forgetting takes exactly the records of this kind and id out of the store, in order. */
  lemma {:induction false} WithoutIs(store: seq<Record>, kind: string, pid: int, r: Record)
    ensures r in Without(store, kind, pid) <==> r in store && !(r.kind == kind && r.pid == pid)
  {
    if store != [] {
      WithoutIs(store[1..], kind, pid, r);
    }
  }

  // ---------- What the caller is told ----------

  /** How often these records' processes were asked to stop. */
  function AskedOf(es: seq<Event>, list: seq<Record>): nat {
    if list == [] then 0 else Count(es, Asked(list[0].kind, list[0].pid)) + AskedOf(es, list[1..])
  }

  lemma {:induction false} AskedOfJoins(a: seq<Event>, b: seq<Event>, list: seq<Record>)
    ensures AskedOf(a + b, list) == AskedOf(a, list) + AskedOf(b, list)
  {
    if list != [] {
      CountJoins(a, b, Asked(list[0].kind, list[0].pid));
      AskedOfJoins(a, b, list[1..]);
    }
  }

  lemma {:induction false} AskedOfOthers(es: seq<Event>, list: seq<Record>)
    requires forall k, i :: 0 <= k < |es| && 0 <= i < |list| ==> es[k].kind != list[i].kind
    ensures AskedOf(es, list) == 0
  {
    if list != [] {
      ForeignKind(es, Asked(list[0].kind, list[0].pid));
      AskedOfOthers(es, list[1..]);
    }
  }

  /** The count of terminated processes is that of the forgotten records whose process was asked to stop. */
  lemma {:induction false} TerminatedWereAsked(w: World, n: nat, list: seq<Record>, timeoutMs: nat, pollMs: nat)
    requires pollMs > 0 && DistinctKinds(list)
    ensures var o := Recover(w, n, list, list, timeoutMs, pollMs);
      o.dropped <= |list| && o.terminated == AskedOf(o.events, list[..o.dropped])
    decreases |list|
  {
    hide Handle, SafelySignalled, SeenGone, ForgottenAtTheEnd, AllJustified, Count, AskedOf;
    RecoveryIsSafe(w, n, list, timeoutMs, pollMs);
    var o := Recover(w, n, list, list, timeoutMs, pollMs);
    if list == [] || !Handle(w, n, list[0], timeoutMs, pollMs).done {
      NoneAsked(o.events, list);
    } else {
      var r, rest := list[0], list[1..];
      var h := Handle(w, n, r, timeoutMs, pollMs);
      HandlingIsCareful(w, n, r, timeoutMs, pollMs);
      WithoutHead(rest, r.kind, r.pid);
      assert Without(list, r.kind, r.pid) == rest;
      assert DistinctKinds(rest) by {
        forall i, j | 0 <= i < j < |rest| ensures rest[i].kind != rest[j].kind {
          assert list[i + 1].kind != list[j + 1].kind;
        }
      }
      TerminatedWereAsked(w, h.n, rest, timeoutMs, pollMs);
      RecoveryIsSafe(w, h.n, rest, timeoutMs, pollMs);
      var later := Recover(w, h.n, rest, rest, timeoutMs, pollMs);
      assert list[..o.dropped][0] == r && list[..o.dropped][1..] == rest[..later.dropped];
      AskedOfFirst(o.events, list[..o.dropped]);
      AskedOfJoins(h.events, later.events, rest[..later.dropped]);
      AskedOfOthers(h.events, rest[..later.dropped]);
      CountJoins(h.events, later.events, Asked(r.kind, r.pid));
      forall k | 0 <= k < |later.events| ensures later.events[k].kind != r.kind {
        var m :| 0 <= m < |rest| && rest[m].kind == later.events[k].kind;
        assert list[m + 1].kind != list[0].kind;
      }
      ForeignKind(later.events, Asked(r.kind, r.pid));
      AtMostOnce(h.events, r);
    }
  }

  lemma NoneAsked(es: seq<Event>, list: seq<Record>)
    ensures AskedOf(es, list[..0]) == 0
  {
  }

  lemma AskedOfFirst(es: seq<Event>, list: seq<Record>)
    requires list != []
    ensures AskedOf(es, list) == Count(es, Asked(list[0].kind, list[0].pid)) + AskedOf(es, list[1..])
  {
  }

  lemma AtMostOnce(es: seq<Event>, r: Record)
    requires Careful(es, r, 1, 1)
    ensures Count(es, Asked(r.kind, r.pid)) <= 1
  {
  }

  // ---------- Whom a signal is for ----------

  /** The process that had the id when the second question of the look was answered is the recorded one. */
  predicate IsRecorded(g: Glance, r: Record) {
    Verified(r) && r.pid in g.late && g.late[r.pid] == Process(r.startTime.value, r.command.value, r.pid)
  }

  /** The id was not used again between the two questions of the look. */
  predicate NotReused(g: Glance, pid: int) {
    pid in g.early && pid in g.late
    && g.early[pid].startTime == g.late[pid].startTime && g.early[pid].pgid == g.late[pid].pgid
  }

  /** A look puts two moments together, so "the same" is true of the process exactly when its id was not
      used again in between. */
  lemma SameIsTrueIff(g: Glance, r: Record)
    requires Verified(r) && Judge(Describe(g, r.pid), r) == Same
    ensures IsRecorded(g, r) <==> NotReused(g, r.pid)
  {
  }

  /** Both happen: an id used again by a process with the same command is taken for the recorded one. */
  lemma LookMayMixTwoProcesses(r: Record)
    requires Verified(r) && r.pid > 0
    ensures exists g :: Judge(Describe(g, r.pid), r) == Same && !IsRecorded(g, r)
  {
    var before := Process(r.startTime.value, r.command.value, r.pid);
    var after := Process(r.startTime.value + "!", r.command.value, r.pid);
    var g := Glance(map[r.pid := before], map[r.pid := after], true, true, Delivered);
    assert |after.startTime| != |before.startTime|;
    assert Describe(g, r.pid) == Found(before);
  }

  /** Every look of a history is one of the world's. */
  ghost predicate FromWorld(w: World, es: seq<Event>) {
    forall k :: 0 <= k < |es| && es[k].Looked? ==> exists m: nat :: w(m) == es[k].glance
  }

  lemma {:induction false} PollFromWorld(w: World, n: nat, r: Record, pollMs: nat, left: nat)
    ensures FromWorld(w, Poll(w, n, r, pollMs, left).events) && FromWorld(w, Await(w, n, r, pollMs, left).events)
    decreases left
  {
    hide Look;
    if left > 0 { PollFromWorld(w, n + 1, r, pollMs, left - 1); }
  }

  lemma HandleFromWorld(w: World, n: nat, r: Record, timeoutMs: nat, pollMs: nat)
    requires pollMs > 0
    ensures FromWorld(w, Handle(w, n, r, timeoutMs, pollMs).events)
  {
    hide Look, Poll, Await, Describe, Rounds;
    PollFromWorld(w, n + 1, r, pollMs, Rounds(timeoutMs, pollMs));
    var polled := Poll(w, n + 1, r, pollMs, Rounds(timeoutMs, pollMs));
    PollFromWorld(w, polled.n + 1, r, pollMs, 8);
  }

  lemma {:induction false} RecoverFromWorld(w: World, n: nat, store: seq<Record>, list: seq<Record>,
                                            timeoutMs: nat, pollMs: nat)
    requires pollMs > 0
    ensures FromWorld(w, Recover(w, n, store, list, timeoutMs, pollMs).events)
    decreases |list|
  {
    hide Handle, Without;
    if list != [] {
      var r := list[0];
      HandleFromWorld(w, n, r, timeoutMs, pollMs);
      RecoverFromWorld(w, Handle(w, n, r, timeoutMs, pollMs).n, Without(store, r.kind, r.pid), list[1..],
                       timeoutMs, pollMs);
    }
  }

  /** Main result on targets: every signal of a recovery goes to the id of one of its records, and the
      process that had it at the look directly before is the recorded one if and only if the id was not
      used again between the two questions of that look. */
  lemma SignalsHitIff(w: World, n: nat, list: seq<Record>, timeoutMs: nat, pollMs: nat, k: nat)
    requires pollMs > 0 && DistinctKinds(list)
    requires var es := Recover(w, n, list, list, timeoutMs, pollMs).events; k < |es| && Signal(es[k])
    ensures var es := Recover(w, n, list, list, timeoutMs, pollMs).events;
            k > 0 && es[k - 1].Looked? && (exists m: nat :: w(m) == es[k - 1].glance)
            && exists i :: 0 <= i < |list| && list[i].kind == es[k].kind && list[i].pid == es[k].pid
                           && (IsRecorded(es[k - 1].glance, list[i]) <==> NotReused(es[k - 1].glance, es[k].pid))
  {
    hide Recover, Describe, IsRecorded, NotReused, Verified;
    var es := Recover(w, n, list, list, timeoutMs, pollMs).events;
    RecoveryIsSafe(w, n, list, timeoutMs, pollMs);
    RecoverFromWorld(w, n, list, list, timeoutMs, pollMs);
    var i :| 0 <= i < |list| && Justified(es, k, list[i]);
    JustifiedIsSame(es, k, list[i]);
    SameIsTrueIff(es[k - 1].glance, list[i]);
  }

  lemma JustifiedIsSame(es: seq<Event>, k: nat, r: Record)
    requires k < |es| && Signal(es[k]) && Justified(es, k, r)
    ensures Verified(r) && Judge(Describe(es[k - 1].glance, r.pid), r) == Same
  {
  }

  // ---------- The same, step by step in place ----------

  datatype Ending = Returned(terminated: nat, dropped: nat) | StillClosing

  /** A part of the history with what came before it. */
  function Since(before: seq<Event>, p: Part): Part { p.(events := before + p.events) }

  lemma PollUnrolled(w: World, n: nat, r: Record, pollMs: nat, left: nat, before: seq<Event>)
    requires left > 0
    ensures var v := Look(w, n, r);
            var events := before + [Slept(r.kind, pollMs)] + [Eye(w, n, r)];
            Since(before, Poll(w, n, r, pollMs, left))
            == if v == Same then Since(events, Poll(w, n + 1, r, pollMs, left - 1)) else Part(n + 1, v, events)
  {
    hide Look, Describe;
    var head := [Slept(r.kind, pollMs), Eye(w, n, r)];
    assert before + head == before + [Slept(r.kind, pollMs)] + [Eye(w, n, r)];
    if Look(w, n, r) == Same {
      var rest := Poll(w, n + 1, r, pollMs, left - 1).events;
      assert before + (head + rest) == before + head + rest;
    }
  }

  lemma PollOver(w: World, n: nat, r: Record, pollMs: nat)
    ensures Poll(w, n, r, pollMs, 0) == Part(n, Same, []) == Await(w, n, r, pollMs, 0)
  {
  }

  lemma AwaitUnrolled(w: World, n: nat, r: Record, pollMs: nat, left: nat, before: seq<Event>)
    requires left > 0
    ensures var v := Look(w, n, r);
            var events := before + [Eye(w, n, r)];
            Since(before, Await(w, n, r, pollMs, left))
            == if v == Same then Since(events + [Slept(r.kind, pollMs)], Await(w, n + 1, r, pollMs, left - 1))
               else Part(n + 1, v, events)
  {
    hide Look, Describe;
    var head := [Eye(w, n, r), Slept(r.kind, pollMs)];
    assert before + head == before + [Eye(w, n, r)] + [Slept(r.kind, pollMs)];
    if Look(w, n, r) == Same {
      var rest := Await(w, n + 1, r, pollMs, left - 1).events;
      assert before + (head + rest) == before + head + rest;
    }
  }

  class Recovery {
    const world: World
    var looks: nat
    var store: seq<Record>
    ghost var history: seq<Event>

    constructor (world: World, store: seq<Record>)
      ensures this.world == world && this.store == store && history == [] && looks == 0
    {
      this.world := world;
      this.store := store;
      looks := 0;
      history := [];
    }

    method LookAt(r: Record) returns (verdict: Verdict)
      modifies this
      ensures verdict == Look(world, old(looks), r) && looks == old(looks) + 1 && store == old(store)
      ensures history == old(history) + [Eye(world, old(looks), r)]
    {
      verdict := Look(world, looks, r);
      history := history + [Eye(world, looks, r)];
      looks := looks + 1;
    }

    method Sleep(r: Record, ms: nat)
      modifies this`history
      ensures history == old(history) + [Slept(r.kind, ms)]
    {
      history := history + [Slept(r.kind, ms)];
    }

    /** The grace period: sleep, then look, as long as it is the same process. */
    method PollUntilChanged(r: Record, pollMs: nat, rounds: nat) returns (state: Verdict)
      modifies this
      ensures var p := Poll(world, old(looks), r, pollMs, rounds);
              looks == p.n && state == p.verdict && history == old(history) + p.events && store == old(store)
    {
      hide Look, Poll, Describe;
      state := Same;
      var round := 0;
      while round < rounds && state == Same
        invariant round <= rounds && store == old(store)
        invariant Since(old(history), Poll(world, old(looks), r, pollMs, rounds))
               == if state == Same then Since(history, Poll(world, looks, r, pollMs, rounds - round))
                  else Part(looks, state, history)
      {
        PollUnrolled(world, looks, r, pollMs, rounds - round, history);
        Sleep(r, pollMs);
        state := LookAt(r);
        round := round + 1;
      }
      if state == Same { PollOver(world, looks, r, pollMs); }
    }

    /** After the group was forced: look, then sleep, at most 'left' times, as long as it is the same. */
    method AwaitEnd(r: Record, pollMs: nat, rounds: nat)
      modifies this
      ensures var p := Await(world, old(looks), r, pollMs, rounds);
              looks == p.n && history == old(history) + p.events && store == old(store)
    {
      hide Look, Await, Describe;
      var round := 0;
      while round < rounds
        invariant round <= rounds && store == old(store)
        invariant Since(old(history), Await(world, old(looks), r, pollMs, rounds))
               == Since(history, Await(world, looks, r, pollMs, rounds - round))
      {
        AwaitUnrolled(world, looks, r, pollMs, rounds - round, history);
        var state := LookAt(r);
        if state != Same { return; }
        Sleep(r, pollMs);
        round := round + 1;
      }
      PollOver(world, looks, r, pollMs);
    }

    method ForceGroup(r: Record, pollMs: nat) returns (state: Verdict)
      modifies this
      ensures var f := Force(world, old(looks), r, pollMs);
              looks == f.n && state == f.verdict && history == old(history) + f.events && store == old(store)
    {
      hide Look, Await, Describe;
      var again := LookAt(r);
      if again == Same {
        history := history + [Forced(r.kind, r.pid)];
        assert history == old(history) + [Eye(world, old(looks), r), Forced(r.kind, r.pid)];
        AwaitEnd(r, pollMs, 8);
      }
      state := LookAt(r);
    }

    method WatchAndForce(r: Record, timeoutMs: nat, pollMs: nat) returns (state: Verdict)
      requires pollMs > 0
      modifies this
      ensures var p := Stopping(world, old(looks), r, timeoutMs, pollMs);
              looks == p.n && state == p.verdict && history == old(history) + p.events && store == old(store)
    {
      hide Poll, Force, Rounds;
      state := PollUntilChanged(r, pollMs, Rounds(timeoutMs, pollMs));
      if state == Same {
        state := ForceGroup(r, pollMs);
      }
    }

    method Forget(r: Record)
      modifies this
      ensures store == Without(old(store), r.kind, r.pid) && looks == old(looks)
      ensures history == old(history) + [Forgot(r.kind, r.pid)]
    {
      store := Without(store, r.kind, r.pid);
      history := history + [Forgot(r.kind, r.pid)];
    }

    /** One round of the loop over the records; 'done' is false where the original throws. */
    method HandleRecord(r: Record, timeoutMs: nat, pollMs: nat) returns (done: bool, terminated: bool)
      requires pollMs > 0
      modifies this
      ensures var h := Handle(world, old(looks), r, timeoutMs, pollMs);
              && done == h.done && terminated == h.terminated && looks == h.n && history == old(history) + h.events
              && store == if done then Without(old(store), r.kind, r.pid) else old(store)
    {
      hide Look, Describe, Stopping, Without;
      terminated := false;
      var seen := Describe(world(looks), r.pid);
      var delivery := world(looks).delivery;
      var first := LookAt(r);
      if !Verified(r) {
        done := seen.Nothing?;
        if done { Forget(r); }
        return;
      }
      if first == Gone || first == Different {
        Forget(r);
        return true, false;
      }
      if first == Unclear { return false, false; }
      history := history + [Asked(r.kind, r.pid)];
      assert history == old(history) + [Eye(world, old(looks), r), Asked(r.kind, r.pid)];
      if delivery == Refused { return false, false; }
      var state := WatchAndForce(r, timeoutMs, pollMs);
      if state == Same || state == Unclear { return false, false; }
      Forget(r);
      return true, true;
    }

    method RecoverOrphans(timeoutMs: nat, pollMs: nat) returns (ending: Ending)
      requires pollMs > 0
      modifies this
      ensures var o := Recover(world, old(looks), old(store), old(store), timeoutMs, pollMs);
              && looks == o.n && store == o.store && history == old(history) + o.events
              && ending == if o.blocked then StillClosing else Returned(o.terminated, o.dropped)
    {
      hide Handle, Without;
      var terminated, dropped := 0, 0;
      var list := store;
      var i := 0;
      ghost var whole := Recover(world, looks, store, store, timeoutMs, pollMs);
      while i < |list|
        invariant i <= |list|
        invariant whole.(events := old(history) + whole.events)
               == Behind(history, terminated, dropped, Recover(world, looks, store, list[i..], timeoutMs, pollMs))
      {
        ghost var before := history;
        ghost var h := Handle(world, looks, list[i], timeoutMs, pollMs);
        ghost var rest := Recover(world, h.n, Without(store, list[i].kind, list[i].pid), list[i + 1..],
                                  timeoutMs, pollMs);
        assert list[i..][0] == list[i] && list[i..][1..] == list[i + 1..];
        var done, asked := HandleRecord(list[i], timeoutMs, pollMs);
        if !done { return StillClosing; }
        assert before + (h.events + rest.events) == history + rest.events;
        dropped := dropped + 1;
        if asked { terminated := terminated + 1; }
        i := i + 1;
      }
      return Returned(terminated, dropped);
    }
  }
}

/** The client's live view (system/client/liveViewController.js): one screenshot request at a time, with
    an interval, a timeout per request and a failure budget. */
module LiveView {
  import opened Common

  // ---------- State ----------

  datatype Request = Request(id: nat, device: string, superseded: bool)

  datatype Timer = Every | Once(request: nat)

  /** What became of the view, in order. */
  datatype Entry =
    | Started(device: string)
    | Stopped(error: bool)
    | Requested(id: nat, device: string)
    | Answered(id: nat, rendered: bool)
    | Failed(id: nat)
    | Postponed(id: nat)
    | Input

  /** The controller's fields, the armed timers and the history. */
  datatype State = State(
    enabled: bool, device: string, intervalId: Option<nat>, timeoutId: Option<nat>, pending: Option<Request>,
    nextRequest: nat, failures: nat, timers: map<nat, Timer>, nextTimer: nat, log: seq<Entry>)

  const INIT := State(false, "", None, None, None, 1, 0, map[], 0, [])

  /** What the page answers during one event. */
  datatype Send = Sent | NotSent | Throws

  datatype Page = Page(eligible: bool, hidden: bool, inputPending: bool, send: Send)

  datatype Message = Message(device: string, request: int)

  function Cleared(timers: map<nat, Timer>, id: Option<nat>): map<nat, Timer> {
    if id.Some? then timers - {id.value} else timers
  }

  function Off(s: State, error: bool): State {
    s.(enabled := false, device := "", intervalId := None, timeoutId := None, pending := None, failures := 0,
       timers := Cleared(Cleared(s.timers, s.intervalId), s.timeoutId), log := s.log + [Stopped(error)])
  }

  function WithoutPending(s: State): State {
    s.(timers := Cleared(s.timers, s.timeoutId), timeoutId := None, pending := None)
  }

  function FailRequest(s: State, max: int, id: nat): State {
    if s.pending.None? || s.pending.value.id != id then s
    else
      var t := WithoutPending(s).(failures := s.failures + 1, log := s.log + [Failed(id)]);
      if t.failures >= max then Off(t, true) else t
  }

  /** The request with its timeout, before the answer of sendRequest is known. */
  function Asked(s: State): State {
    s.(nextRequest := s.nextRequest + 1, pending := Some(Request(s.nextRequest, s.device, false)),
       timeoutId := Some(s.nextTimer), timers := s.timers[s.nextTimer := Once(s.nextRequest)],
       nextTimer := s.nextTimer + 1, log := s.log + [Requested(s.nextRequest, s.device)])
  }

  predicate MayAsk(s: State, p: Page) {
    s.enabled && p.eligible && !p.hidden && s.pending.None? && !p.inputPending
  }

  function Tick(s: State, max: int, p: Page): State {
    if !s.enabled then s
    else if !p.eligible then Off(s, false)
    else if !MayAsk(s, p) then s
    else if p.send.Sent? then Asked(s) else FailRequest(Asked(s), max, s.nextRequest)
  }

  predicate Matches(s: State, m: Message) {
    s.enabled && s.pending.Some? && m.device == s.pending.value.device && m.request == s.pending.value.id
  }

  function On(s: State, device: string): State {
    var off := Off(s, false);
    off.(enabled := true, device := device, intervalId := Some(off.nextTimer),
         timers := off.timers[off.nextTimer := Every],
         nextTimer := off.nextTimer + 1, log := off.log + [Started(device)])
  }

  datatype Event =
    | Start(device: Option<string>, page: Page)
    | Stop
    | TimerFires(timer: nat, page: Page)
    | Frame(message: Message, page: Page)
    | Error(message: Message)
    | Delayed(message: Message)
    | Supersede
    | VisibilityChanged(page: Page)

  predicate Enabled(s: State, e: Event) { e.TimerFires? ==> e.timer in s.timers }

  predicate Rendered(s: State, p: Page)
    requires s.pending.Some?
  {
    !s.pending.value.superseded && !p.hidden && p.eligible
  }

  function Step(s: State, max: int, e: Event): State
    requires Enabled(s, e)
  {
    match e
    case Start(device, page) =>
      if !Given(device) || !page.eligible then Off(s, false) else Tick(On(s, device.value), max, page)
    case Stop => Off(s, false)
    case TimerFires(timer, page) =>
      (match s.timers[timer]
       case Every => Tick(s, max, page)
       case Once(request) => FailRequest(s.(timers := s.timers - {timer}), max, request))
    case Frame(m, page) =>
      if !Matches(s, m) then s
      else WithoutPending(s).(failures := 0, log := s.log + [Answered(s.pending.value.id, Rendered(s, page))])
    case Error(m) => if !Matches(s, m) then s else FailRequest(s, max, s.pending.value.id)
    case Delayed(m) =>
      if !Matches(s, m) then s else WithoutPending(s).(log := s.log + [Postponed(s.pending.value.id)])
    case Supersede =>
      if s.pending.None? then s.(log := s.log + [Input])
      else s.(pending := Some(s.pending.value.(superseded := true)), log := s.log + [Input])
    case VisibilityChanged(page) => if s.enabled && !page.hidden && s.pending.None? then Tick(s, max, page) else s
  }

  ghost predicate Legal(s: State, max: int, es: seq<Event>)
    decreases |es|
  {
    es == [] || (Enabled(s, es[0]) && Legal(Step(s, max, es[0]), max, es[1..]))
  }

  function After(s: State, max: int, es: seq<Event>): State
    requires Legal(s, max, es)
    decreases |es|
  {
    if es == [] then s else After(Step(s, max, es[0]), max, es[1..])
  }

  // ---------- The protocol, as a reading of the history ----------

  /** What a history alone says: whether the view is on, the one open request, the failures since the
      last answered request, start or stop, and whether the last entry was a failure. */
  datatype View = View(on: bool, open: Option<Request>, streak: nat, asked: nat, justFailed: bool)

  function Advance(v: View, e: Entry): View {
    match e
    case Started(_) => v.(on := true, streak := 0, justFailed := false)
    case Stopped(_) => v.(on := false, open := None, streak := 0, justFailed := false)
    case Requested(id, device) => v.(open := Some(Request(id, device, false)), asked := id, justFailed := false)
    case Answered(_, _) => v.(open := None, streak := 0, justFailed := false)
    case Failed(_) => v.(open := None, streak := v.streak + 1, justFailed := true)
    case Postponed(_) => v.(open := None, justFailed := false)
    case Input =>
      v.(open := if v.open.Some? then Some(v.open.value.(superseded := true)) else None, justFailed := false)
  }

  function Replay(log: seq<Entry>): View {
    if log == [] then View(false, None, 0, 0, false) else Advance(Replay(log[..|log| - 1]), log[|log| - 1])
  }

  /** Which entries the protocol allows next. */
  predicate Allowed(v: View, e: Entry, max: int) {
    && ((v.justFailed && v.streak >= max) <==> e == Stopped(true))
    && (match e
        case Started(_) => !v.on
        case Stopped(_) => true
        case Requested(id, _) => v.on && v.open.None? && id == v.asked + 1
        case Answered(id, rendered) => v.open.Some? && v.open.value.id == id && (rendered ==> !v.open.value.superseded)
        case Failed(id) => v.open.Some? && v.open.value.id == id
        case Postponed(id) => v.open.Some? && v.open.value.id == id
        case Input => true)
  }

  ghost predicate Lawful(log: seq<Entry>, max: int) {
    forall k :: 0 <= k < |log| ==> Allowed(Replay(log[..k]), log[k], max)
  }

  lemma LawfulGrows(log: seq<Entry>, max: int, e: Entry)
    requires Lawful(log, max) && Allowed(Replay(log), e, max)
    ensures Lawful(log + [e], max) && Replay(log + [e]) == Advance(Replay(log), e)
  {
    hide Allowed, Advance;
    var more := log + [e];
    assert more[..|more| - 1] == log;
    forall k | 0 <= k < |more| ensures Allowed(Replay(more[..k]), more[k], max) {
      if k < |log| {
        assert more[..k] == log[..k] && more[k] == log[k];
      } else {
        assert more[..k] == log;
      }
    }
  }

  /** The timers that are armed: one interval while on, and one timeout for the open request. */
  ghost predicate TimersExact(s: State) {
    && (s.enabled <==> s.intervalId.Some?) && (s.pending.Some? <==> s.timeoutId.Some?)
    && (s.intervalId.Some? ==> s.intervalId.value in s.timers && s.timers[s.intervalId.value] == Every)
    && (s.timeoutId.Some? ==> s.timeoutId.value in s.timers && s.timers[s.timeoutId.value] == Once(s.pending.value.id))
    && (forall t :: t in s.timers ==> t < s.nextTimer && (Some(t) == s.intervalId || Some(t) == s.timeoutId))
  }

  /** The fields say what the history says. */
  ghost predicate Agrees(s: State, max: int) {
    var v := Replay(s.log);
    && Lawful(s.log, max)
    && v.on == s.enabled && v.open == s.pending && v.streak == s.failures && s.nextRequest == v.asked + 1
    && !(v.justFailed && v.streak >= max)
    && (s.pending.Some? ==> s.enabled && s.pending.value.device == s.device)
  }

  ghost predicate Inv(s: State, max: int) { TimersExact(s) && Agrees(s, max) }

  lemma OffClearsTimers(s: State, error: bool)
    requires TimersExact(s)
    ensures Off(s, error).timers == map[] && TimersExact(Off(s, error))
  {
    assert forall t :: t in s.timers ==> Some(t) == s.intervalId || Some(t) == s.timeoutId;
  }

  lemma OffKeeps(s: State, max: int)
    requires Inv(s, max)
    ensures Inv(Off(s, false), max)
  {
    hide Lawful, Replay, TimersExact;
    OffClearsTimers(s, false);
    LawfulGrows(s.log, max, Stopped(false));
    assert Off(s, false).log == s.log + [Stopped(false)];
  }

  lemma FailKeeps(s: State, max: int, id: nat)
    requires Agrees(s, max) && s.pending.Some? && s.pending.value.id == id
    requires s.timeoutId.Some? && TimersExact(s.(timers := s.timers[s.timeoutId.value := Once(id)]))
    ensures Inv(FailRequest(s, max, id), max)
  {
    hide Lawful, Replay, TimersExact;
    var u := s.(timers := s.timers[s.timeoutId.value := Once(id)]);
    WithoutPendingKeeps(u);
    var t := WithoutPending(s).(failures := s.failures + 1, log := s.log + [Failed(id)]);
    assert t.timers == WithoutPending(u).timers;
    SameTimers(WithoutPending(u), t);
    LawfulGrows(s.log, max, Failed(id));
    if s.failures + 1 >= max {
      OffClearsTimers(t, true);
      LawfulGrows(s.log + [Failed(id)], max, Stopped(true));
      assert Off(t, true).log == s.log + [Failed(id)] + [Stopped(true)];
    }
  }

  lemma WithoutPendingKeeps(u: State)
    requires TimersExact(u)
    ensures TimersExact(WithoutPending(u))
  {
  }

  lemma SameTimers(a: State, b: State)
    requires TimersExact(a) && a.timers == b.timers && a.nextTimer == b.nextTimer && a.enabled == b.enabled
    requires a.intervalId == b.intervalId && a.timeoutId == b.timeoutId && a.pending == b.pending
    ensures TimersExact(b)
  {
  }

  lemma AskedKeeps(s: State, max: int)
    requires Inv(s, max) && s.enabled && s.pending.None?
    ensures Inv(Asked(s), max)
  {
    hide Lawful, Replay;
    LawfulGrows(s.log, max, Requested(s.nextRequest, s.device));
  }

  lemma TickKeeps(s: State, max: int, p: Page)
    requires Inv(s, max)
    ensures Inv(Tick(s, max, p), max)
  {
    hide Inv, Off, FailRequest, Asked;
    if s.enabled {
      if !p.eligible {
        OffKeeps(s, max);
      } else if MayAsk(s, p) {
        AskedKeeps(s, max);
        if !p.send.Sent? { FailAsked(s, max); }
      }
    }
  }

  lemma FailAsked(s: State, max: int)
    requires Inv(Asked(s), max)
    ensures Inv(FailRequest(Asked(s), max, s.nextRequest), max)
  {
    hide Agrees;
    var t := Asked(s);
    assert t.timers[t.timeoutId.value := Once(s.nextRequest)] == t.timers;
    FailKeeps(t, max, s.nextRequest);
  }

  lemma OnKeeps(s: State, max: int, device: string)
    requires Inv(s, max)
    ensures Inv(On(s, device), max)
  {
    hide Lawful, Replay;
    OffKeeps(s, max);
    LawfulGrows(s.log, max, Stopped(false));
    LawfulGrows(Off(s, false).log, max, Started(device));
  }

  lemma TimeoutKeeps(s: State, max: int, timer: nat)
    requires Inv(s, max) && timer in s.timers && s.timers[timer].Once?
    ensures s.timeoutId == Some(timer) && s.pending.Some? && s.pending.value.id == s.timers[timer].request
    ensures Inv(FailRequest(s.(timers := s.timers - {timer}), max, s.timers[timer].request), max)
  {
    hide Lawful, Replay;
    var t := s.(timers := s.timers - {timer});
    assert t.timers[timer := s.timers[timer]] == s.timers;
    FailKeeps(t, max, s.timers[timer].request);
  }

  lemma ReplyKeeps(s: State, max: int, e: Event)
    requires Inv(s, max) && (e.Frame? || e.Delayed? || e.Supersede?)
    ensures Inv(Step(s, max, e), max)
  {
    hide Lawful, Replay;
    match e {
      case Frame(m, page) =>
        if Matches(s, m) { LawfulGrows(s.log, max, Answered(s.pending.value.id, Rendered(s, page))); }
      case Delayed(m) =>
        if Matches(s, m) { LawfulGrows(s.log, max, Postponed(s.pending.value.id)); }
      case Supersede => LawfulGrows(s.log, max, Input);
    }
  }

  lemma InvKept(s: State, max: int, e: Event)
    requires Inv(s, max) && Enabled(s, e)
    ensures Inv(Step(s, max, e), max)
  {
    hide Inv, Off, Tick, FailRequest, On, Matches;
    match e {
      case Start(device, page) =>
        OffKeeps(s, max);
        if Given(device) && page.eligible {
          OnKeeps(s, max, device.value);
          TickKeeps(On(s, device.value), max, page);
        }
      case Stop => OffKeeps(s, max);
      case TimerFires(timer, page) =>
        if s.timers[timer].Every? { TickKeeps(s, max, page); } else { TimeoutKeeps(s, max, timer); }
      case Frame(_, _) => ReplyKeeps(s, max, e);
      case Error(m) => if Matches(s, m) { ErrorKeeps(s, max, m); }
      case Delayed(_) => ReplyKeeps(s, max, e);
      case Supersede => ReplyKeeps(s, max, e);
      case VisibilityChanged(page) => TickKeeps(s, max, page);
    }
  }

  lemma ErrorKeeps(s: State, max: int, m: Message)
    requires Inv(s, max) && Matches(s, m)
    ensures Inv(FailRequest(s, max, s.pending.value.id), max)
  {
    hide Agrees;
    assert s.timers[s.timeoutId.value := Once(s.pending.value.id)] == s.timers;
    FailKeeps(s, max, s.pending.value.id);
  }

  lemma {:induction false} RunKeepsInv(s: State, max: int, es: seq<Event>)
    requires Inv(s, max) && Legal(s, max, es)
    ensures Inv(After(s, max, es), max)
    decreases |es|
  {
    if es != [] {
      hide Inv;
      InvKept(s, max, es[0]);
      RunKeepsInv(Step(s, max, es[0]), max, es[1..]);
    }
  }

  /** In every run the history is lawful, the controller's fields are exactly what the history says, and
      the armed timers are one interval while the view is on and one timeout for the open request. */
  lemma FieldsFollowTheHistory(max: int, es: seq<Event>)
    requires Legal(INIT, max, es)
    ensures var s := After(INIT, max, es);
            && Lawful(s.log, max)
            && Replay(s.log).on == s.enabled && Replay(s.log).open == s.pending && Replay(s.log).streak == s.failures
            && |s.timers| == (if s.enabled then 1 else 0) + (if s.pending.Some? then 1 else 0)
            && (s.enabled <==> exists t :: t in s.timers && s.timers[t] == Every)
            && (forall t :: t in s.timers && s.timers[t].Once? ==>
                  s.pending.Some? && s.timers[t].request == s.pending.value.id)
  {
    RunKeepsInv(INIT, max, es);
    var s := After(INIT, max, es);
    hide Agrees;
    var every := if s.intervalId.Some? then {s.intervalId.value} else {};
    var once := if s.timeoutId.Some? then {s.timeoutId.value} else {};
    assert s.timers.Keys == every + once;
    assert every !! once;
    assert |s.timers| == |s.timers.Keys| == |every| + |once|;
  }

  // ---------- What each event makes of the history ----------

  /** A request that failed: the failure, and the error stop if it is the last one the budget allows. */
  ghost function Fails(v: View, id: nat, max: int): seq<Entry> {
    [Failed(id)] + if v.streak + 1 >= max then [Stopped(true)] else []
  }

  /** A look at the page: an ineligible device stops the view; a request goes out if the page shows, none
      is open and no input is on its way; and it has failed if it could not be sent. */
  ghost function Looks(v: View, device: string, page: Page, max: int): seq<Entry> {
    if !v.on then []
    else if !page.eligible then [Stopped(false)]
    else if page.hidden || page.inputPending || v.open.Some? then []
    else [Requested(v.asked + 1, device)] + if page.send == Sent then [] else Fails(v, v.asked + 1, max)
  }

  /** What the event adds, for a view that its history describes. */
  ghost function Adds(s: State, v: View, e: Event, max: int): seq<Entry>
    requires Enabled(s, e)
  {
    match e
    case Start(device, page) =>
      var off := Advance(v, Stopped(false));
      if !Given(device) || !page.eligible then [Stopped(false)]
      else [Stopped(false), Started(device.value)]
           + Looks(Advance(off, Started(device.value)), device.value, page, max)
    case Stop => [Stopped(false)]
    case TimerFires(timer, page) =>
      (match s.timers[timer]
       case Every => Looks(v, s.device, page, max)
       case Once(id) => Fails(v, id, max))
    case Frame(m, page) =>
      if !Names(v, m) then []
      else [Answered(v.open.value.id, page.eligible && !page.hidden && !v.open.value.superseded)]
    case Error(m) => if Names(v, m) then Fails(v, v.open.value.id, max) else []
    case Delayed(m) => if Names(v, m) then [Postponed(v.open.value.id)] else []
    case Supersede => [Input]
    case VisibilityChanged(page) => if page.hidden || v.open.Some? then [] else Looks(v, s.device, page, max)
  }

  /** The message names the device and the number of the open request. */
  ghost predicate Names(v: View, m: Message) {
    v.open.Some? && m.device == v.open.value.device && m.request == v.open.value.id
  }

  lemma TickAdds(s: State, max: int, p: Page)
    requires Inv(s, max)
    ensures Tick(s, max, p).log == s.log + Looks(Replay(s.log), s.device, p, max)
    ensures Tick(s, max, p).enabled ==> Tick(s, max, p).device == s.device
  {
    hide Lawful, Replay, TimersExact;
    if MayAsk(s, p) && p.eligible {
      var t := Asked(s);
      var request := Requested(s.nextRequest, s.device);
      if !p.send.Sent? {
        FailAdds(t, max, s.nextRequest);
        assert s.log + [request] + Fails(Replay(s.log), s.nextRequest, max)
            == s.log + ([request] + Fails(Replay(s.log), s.nextRequest, max));
      }
    }
  }

  lemma FailAdds(s: State, max: int, id: nat)
    requires s.pending.Some? && s.pending.value.id == id
    ensures FailRequest(s, max, id).log
         == s.log + ([Failed(id)] + if s.failures + 1 >= max then [Stopped(true)] else [])
    ensures FailRequest(s, max, id).enabled ==> FailRequest(s, max, id).device == s.device
  {
  }

  /** Main result on single events: from any state that a run reaches, the history and the event alone
      say what comes next: what is asked, answered, rendered, failed, postponed or stopped, and nothing else. */
  lemma EventAdds(max: int, es: seq<Event>, e: Event)
    requires Legal(INIT, max, es) && Enabled(After(INIT, max, es), e)
    ensures var s := After(INIT, max, es); var t := Step(s, max, e);
      && t.log == s.log + Adds(s, Replay(s.log), e, max)
      && (t.enabled ==> t.device == if e.Start? && Given(e.device) then e.device.value else s.device)
  {
    hide Lawful, Replay, Tick, FailRequest, On, Looks, TimersExact, Fails;
    Initially(max);
    RunKeepsInv(INIT, max, es);
    var s := After(INIT, max, es);
    match e {
      case Start(device, page) =>
        if Given(device) && page.eligible { StartAdds(s, max, device.value, page); }
      case TimerFires(timer, page) =>
        if s.timers[timer].Every? { TickAdds(s, max, page); } else {
          TimeoutKeeps(s, max, timer);
          FailAdds(s.(timers := s.timers - {timer}), max, s.timers[timer].request);
          FailsIs(s, max, s.timers[timer].request);
        }
      case Error(m) =>
        if Matches(s, m) {
          FailAdds(s, max, s.pending.value.id);
          FailsIs(s, max, s.pending.value.id);
        }
      case VisibilityChanged(page) =>
        TickAdds(s, max, page);
        OffLooksAtNothing(s, page, max);
      case _ =>
    }
  }

  lemma Initially(max: int)
    ensures Inv(INIT, max)
  {
  }

  lemma FailsIs(s: State, max: int, id: nat)
    requires Inv(s, max)
    ensures Fails(Replay(s.log), id, max) == [Failed(id)] + if s.failures + 1 >= max then [Stopped(true)] else []
  {
  }

  lemma OffLooksAtNothing(s: State, page: Page, max: int)
    requires Inv(s, max)
    ensures !s.enabled ==> Looks(Replay(s.log), s.device, page, max) == []
  {
  }

  lemma StartAdds(s: State, max: int, device: string, page: Page)
    requires Inv(s, max)
    ensures var t := Tick(On(s, device), max, page);
      var v := Advance(Advance(Replay(s.log), Stopped(false)), Started(device));
      && t.log == s.log + ([Stopped(false), Started(device)] + Looks(v, device, page, max))
      && (t.enabled ==> t.device == device)
  {
    hide Lawful, Tick, Looks, TimersExact;
    OnKeeps(s, max, device);
    TickAdds(On(s, device), max, page);
    var u := On(s, device);
    var v := Advance(Advance(Replay(s.log), Stopped(false)), Started(device));
    assert u.log == s.log + [Stopped(false)] + [Started(device)];
    assert Replay(u.log) == v by {
      assert (s.log + [Stopped(false)])[..|s.log|] == s.log;
      assert u.log[..|u.log| - 1] == s.log + [Stopped(false)];
    }
    assert s.log + [Stopped(false)] + [Started(device)] + Looks(v, device, page, max)
        == s.log + ([Stopped(false), Started(device)] + Looks(v, device, page, max));
  }

  // ---------- What a lawful history means ----------

  predicate Resolves(e: Entry, id: nat) {
    e == Answered(id, true) || e == Answered(id, false) || e == Failed(id) || e == Postponed(id)
  }

  predicate Closes(e: Entry, id: nat) { Resolves(e, id) || e.Stopped? }

  lemma Last(log: seq<Entry>, k: nat)
    requires k < |log|
    ensures Replay(log[..k + 1]) == Advance(Replay(log[..k]), log[k])
  {
    assert log[..k + 1][..|log[..k + 1]| - 1] == log[..k];
  }

  lemma Next(log: seq<Entry>, max: int, k: nat)
    requires Lawful(log, max) && k < |log|
    ensures Replay(log[..k + 1]) == Advance(Replay(log[..k]), log[k]) && Allowed(Replay(log[..k]), log[k], max)
  {
    Last(log, k);
  }

  lemma First(log: seq<Entry>)
    ensures Replay(log[..0]) == View(false, None, 0, 0, false)
  {
  }

  /** Until something closes it, a request stays the open one, and an input marks it for good. */
  lemma {:induction false} StaysOpen(log: seq<Entry>, max: int, i: nat, k: nat)
    requires Lawful(log, max) && i < k <= |log| && log[i].Requested?
    requires forall j :: i < j < k ==> !Closes(log[j], log[i].id)
    ensures var v := Replay(log[..k]);
            v.open.Some? && v.open.value.id == log[i].id
            && (v.open.value.superseded <==> exists j :: i < j < k && log[j] == Input)
    decreases k
  {
    hide Replay, Lawful, Closes;
    Next(log, max, k - 1);
    if k > i + 1 {
      StaysOpen(log, max, i, k - 1);
      OpenStep(Replay(log[..k - 1]), log[k - 1], max, log[i].id);
    }
  }

  lemma OpenStep(v: View, e: Entry, max: int, id: nat)
    requires Allowed(v, e, max) && v.open.Some? && v.open.value.id == id && !Closes(e, id)
    ensures Advance(v, e).open.Some? && Advance(v, e).open.value.id == id
    ensures Advance(v, e).open.value.superseded <==> v.open.value.superseded || e == Input
  {
  }

  /** At most one request is outstanding: a second one is sent only after the first was answered, failed
      or postponed, or the view was stopped. */
  lemma OneRequestAtATime(log: seq<Entry>, max: int, i: nat, j: nat)
    requires Lawful(log, max) && i < j < |log| && log[i].Requested? && log[j].Requested?
    ensures exists k :: i < k < j && Closes(log[k], log[i].id)
    ensures log[i].id < log[j].id
  {
    hide Replay, Lawful, Closes;
    Next(log, max, j);
    NumbersGrow(log, max, i, j);
    if forall k :: i < k < j ==> !Closes(log[k], log[i].id) {
      StaysOpen(log, max, i, j);
    }
  }

  /** Request numbers only grow, and an open request is never an earlier one. */
  lemma {:induction false} NumbersGrow(log: seq<Entry>, max: int, i: nat, k: nat)
    requires Lawful(log, max) && i < k <= |log| && log[i].Requested?
    ensures Replay(log[..k]).asked >= log[i].id
    decreases k
  {
    hide Replay, Lawful;
    Next(log, max, k - 1);
    if k > i + 1 { NumbersGrow(log, max, i, k - 1); }
  }

  lemma {:induction false} OpenIsTheNewest(log: seq<Entry>, max: int, k: nat)
    requires Lawful(log, max) && k <= |log|
    ensures var v := Replay(log[..k]); v.open.Some? ==> v.open.value.id == v.asked
    decreases k
  {
    hide Replay, Lawful;
    if k > 0 {
      Next(log, max, k - 1);
      OpenIsTheNewest(log, max, k - 1);
    } else {
      First(log);
    }
  }

  ghost predicate Past(v: View, id: nat) { v.asked >= id && (v.open.Some? ==> v.open.value.id > id) }

  lemma PastStep(v: View, e: Entry, max: int, id: nat)
    requires Allowed(v, e, max) && Past(v, id)
    ensures Past(Advance(v, e), id) && !Resolves(e, id)
  {
  }

  lemma ClosingStep(v: View, e: Entry, max: int, id: nat)
    requires Allowed(v, e, max) && (v.open.Some? ==> v.open.value.id == v.asked)
    requires Resolves(e, id) || (e.Stopped? && v.asked >= id)
    ensures Past(Advance(v, e), id)
  {
  }

  /** Once closed, a request is never resolved: no late reply and no late timeout counts for it. */
  lemma {:induction false} ClosedForGood(log: seq<Entry>, max: int, i: nat, id: nat, k: nat)
    requires Lawful(log, max) && i < k <= |log|
    requires Resolves(log[i], id) || (log[i].Stopped? && Replay(log[..i]).asked >= id)
    ensures Past(Replay(log[..k]), id)
    decreases k
  {
    hide Replay, Lawful, Past, Resolves, Allowed, Advance;
    Next(log, max, k - 1);
    if k > i + 1 {
      ClosedForGood(log, max, i, id, k - 1);
      PastStep(Replay(log[..k - 1]), log[k - 1], max, id);
    } else {
      OpenIsTheNewest(log, max, i);
      ClosingStep(Replay(log[..i]), log[i], max, id);
    }
  }

  /** A request is resolved at most once, and not after the view was stopped under it. */
  lemma ResolvedOnce(log: seq<Entry>, max: int, i: nat, j: nat, id: nat)
    requires Lawful(log, max) && i < j < |log| && Resolves(log[j], id)
    ensures !Resolves(log[i], id)
    ensures log[i].Stopped? ==> Replay(log[..i]).asked < id
  {
    hide Replay, Lawful, Past, Resolves, Allowed, Advance;
    Next(log, max, j);
    if Resolves(log[i], id) || (log[i].Stopped? && Replay(log[..i]).asked >= id) {
      ClosedForGood(log, max, i, id, j);
      PastStep(Replay(log[..j]), log[j], max, id);
    }
  }

  /** Where the open request was sent. */
  lemma {:induction false} Origin(log: seq<Entry>, max: int, k: nat) returns (i: nat)
    requires Lawful(log, max) && k <= |log| && Replay(log[..k]).open.Some?
    ensures i < k && log[i].Requested? && log[i].id == Replay(log[..k]).open.value.id
    ensures forall j :: i < j < k ==> !Closes(log[j], log[i].id)
    decreases k
  {
    hide Replay, Lawful, Closes;
    if k == 0 {
      First(log);
      assert false;
    }
    Next(log, max, k - 1);
    if log[k - 1].Requested? {
      i := k - 1;
    } else {
      StillOpen(Replay(log[..k - 1]), log[k - 1], max);
      i := Origin(log, max, k - 1);
    }
  }

  lemma StillOpen(v: View, e: Entry, max: int)
    requires Allowed(v, e, max) && Advance(v, e).open.Some? && !e.Requested?
    ensures v.open.Some? && v.open.value.id == Advance(v, e).open.value.id && !Closes(e, v.open.value.id)
  {
  }

  /** A frame that is rendered answers a request after which no input came and nothing closed it. */
  lemma RenderedFrameIsFresh(log: seq<Entry>, max: int, j: nat)
    requires Lawful(log, max) && j < |log| && log[j].Answered? && log[j].rendered
    ensures exists i :: 0 <= i < j && log[i].Requested? && log[i].id == log[j].id
                        && forall k :: i < k < j ==> log[k] != Input && !Closes(log[k], log[i].id)
  {
    hide Replay, Lawful, Closes;
    Next(log, max, j);
    var i := Origin(log, max, j);
    StaysOpen(log, max, i, j);
    assert forall k :: i < k < j ==> log[k] != Input;
  }

  // ---------- The failure budget ----------

  predicate Restarts(e: Entry) { e.Started? || e.Stopped? || e.Answered? }

  function Failures(log: seq<Entry>): nat {
    if log == [] then 0 else Failures(log[..|log| - 1]) + if log[|log| - 1].Failed? then 1 else 0
  }

  /** The streak counts the failures since the last start, stop or answered request; a postponed
      request in between changes nothing. */
  lemma {:induction false} StreakCounts(log: seq<Entry>, k: nat) returns (from: nat)
    requires k <= |log|
    ensures from <= k && (forall j :: from <= j < k ==> !Restarts(log[j])) && (from == 0 || Restarts(log[from - 1]))
    ensures Replay(log[..k]).streak == Failures(log[from..k])
    decreases k
  {
    hide Replay;
    if k == 0 {
      First(log);
      from := 0;
    } else {
      Last(log, k - 1);
      if Restarts(log[k - 1]) {
        from := k;
      } else {
        from := StreakCounts(log, k - 1);
        assert log[from..k][..|log[from..k]| - 1] == log[from..k - 1];
      }
    }
  }

  lemma {:induction false} StreakWithinBudget(log: seq<Entry>, max: int, k: nat)
    requires Lawful(log, max) && k <= |log| && max >= 1
    ensures var v := Replay(log[..k]); v.streak <= max && (v.streak == max ==> v.justFailed)
    decreases k
  {
    hide Replay, Lawful;
    if k > 0 {
      Next(log, max, k - 1);
      StreakWithinBudget(log, max, k - 1);
    } else {
      First(log);
    }
  }

  /** The view stops itself with an error exactly when a request has just failed and it is the
      maxFailures-th failure with no answered request, start or stop in between. */
  lemma ErrorStopIff(log: seq<Entry>, max: int, j: nat) returns (from: nat)
    requires Lawful(log, max) && 0 < j < |log| && max >= 1
    ensures from <= j && (forall k :: from <= k < j ==> !Restarts(log[k])) && (from == 0 || Restarts(log[from - 1]))
    ensures log[j] == Stopped(true) <==> log[j - 1].Failed? && Failures(log[from..j]) == max
  {
    hide Replay, Lawful, Failures;
    from := StreakCounts(log, j);
    StreakWithinBudget(log, max, j);
    Next(log, max, j - 1);
    Next(log, max, j);
  }

  /** The history of any run never ends between the last failure and its error stop. */
  lemma BudgetIsNeverLeftSpent(max: int, es: seq<Event>) returns (from: nat)
    requires Legal(INIT, max, es) && max >= 1
    ensures var log := After(INIT, max, es).log;
            from <= |log| && (forall k :: from <= k < |log| ==> !Restarts(log[k]))
            && (from == 0 || Restarts(log[from - 1]))
            && Failures(log[from..]) < max
  {
    RunKeepsInv(INIT, max, es);
    var log := After(INIT, max, es).log;
    assert log[..|log|] == log && log[..|log|] == log;
    from := StreakCounts(log, |log|);
    StreakWithinBudget(log, max, |log|);
    assert log[from..|log|] == log[from..];
  }

  // ---------- Stale messages, and the answer of start ----------

  /** A reply counts exactly when the view is on and it names the device and the number of the open
      request; any other reply changes nothing at all. */
  lemma StaleRepliesChangeNothing(s: State, max: int, m: Message, page: Page)
    requires Inv(s, max)
    ensures var v := Replay(s.log);
            var current := v.open.Some? && m.device == v.open.value.device && m.request == v.open.value.id;
            && (Step(s, max, Frame(m, page)) != s <==> current)
            && (Step(s, max, Error(m)) != s <==> current)
            && (Step(s, max, Delayed(m)) != s <==> current)
  {
    hide Lawful, Replay;
    if Matches(s, m) {
      LogGrows(s, max, m, page);
    }
  }

  lemma LogGrows(s: State, max: int, m: Message, page: Page)
    requires Matches(s, m)
    ensures |Step(s, max, Frame(m, page)).log| > |s.log| && |Step(s, max, Error(m)).log| > |s.log|
            && |Step(s, max, Delayed(m)).log| > |s.log|
  {
  }

  /** What start() answers. */
  predicate StartAnswers(device: Option<string>, page: Page) { Given(device) && page.eligible }

  /** start() can answer true for a view that is already off again: exactly when its first request could
      not be sent and one failure is the whole budget. */
  lemma StartAnswerHoldsIff(s: State, max: int, device: Option<string>, page: Page)
    requires Inv(s, max) && StartAnswers(device, page)
    ensures Step(s, max, Start(device, page)).enabled
            <==> page.hidden || page.inputPending || page.send.Sent? || max > 1
  {
    hide Agrees;
  }

  // ---------- The same, in place ----------

  class Controller {
    const maxFailures: int
    var enabled: bool
    var device: string
    var intervalId: Option<nat>
    var timeoutId: Option<nat>
    var pendingRequest: Option<Request>
    var nextRequest: nat
    var failures: nat
    var timers: map<nat, Timer>
    var nextTimer: nat
    ghost var log: seq<Entry>

    ghost function Now(): State
      reads this
    {
      State(enabled, device, intervalId, timeoutId, pendingRequest, nextRequest, failures, timers, nextTimer, log)
    }

    constructor (maxFailures: int)
      ensures this.maxFailures == maxFailures && Now() == INIT
    {
      this.maxFailures := maxFailures;
      enabled, device, intervalId, timeoutId, pendingRequest := false, "", None, None, None;
      nextRequest, failures, timers, nextTimer, log := 1, 0, map[], 0, [];
    }

    method TurnOff(error: bool)
      modifies this
      ensures Now() == Off(old(Now()), error)
    {
      if intervalId.Some? { timers := timers - {intervalId.value}; }
      if timeoutId.Some? { timers := timers - {timeoutId.value}; }
      intervalId, timeoutId, pendingRequest := None, None, None;
      enabled, device, failures := false, "", 0;
      log := log + [Stopped(error)];
    }

    method ClearPendingRequest()
      modifies this
      ensures Now() == WithoutPending(old(Now()))
    {
      if timeoutId.Some? { timers := timers - {timeoutId.value}; }
      timeoutId, pendingRequest := None, None;
    }

    method Fail(id: nat)
      modifies this
      ensures Now() == FailRequest(old(Now()), maxFailures, id)
    {
      if pendingRequest.None? || pendingRequest.value.id != id { return; }
      ClearPendingRequest();
      failures := failures + 1;
      log := log + [Failed(id)];
      if failures >= maxFailures { TurnOff(true); }
    }

    method OnTick(page: Page) returns (sent: bool)
      modifies this
      ensures Now() == Tick(old(Now()), maxFailures, page)
      ensures sent <==> MayAsk(old(Now()), page) && page.send.Sent?
    {
      if !enabled { return false; }
      if !page.eligible {
        TurnOff(false);
        return false;
      }
      if page.hidden { return false; }
      if pendingRequest.Some? { return false; }
      if page.inputPending { return false; }
      var id := nextRequest;
      nextRequest := nextRequest + 1;
      pendingRequest := Some(Request(id, device, false));
      timeoutId := Some(nextTimer);
      timers := timers[nextTimer := Once(id)];
      nextTimer := nextTimer + 1;
      log := log + [Requested(id, device)];
      if page.send != Sent {
        Fail(id);
        return false;
      }
      return true;
    }

    method StartView(wanted: Option<string>, page: Page) returns (started: bool)
      modifies this
      ensures Now() == Step(old(Now()), maxFailures, Start(wanted, page)) && started == StartAnswers(wanted, page)
    {
      TurnOff(false);
      if !Given(wanted) || !page.eligible { return false; }
      enabled, device, failures := true, wanted.value, 0;
      intervalId := Some(nextTimer);
      timers := timers[nextTimer := Every];
      nextTimer := nextTimer + 1;
      log := log + [Started(wanted.value)];
      assert Now() == On(old(Now()), wanted.value);
      var sent := OnTick(page);
      return true;
    }

    method OnTimer(timer: nat, page: Page)
      requires timer in timers
      modifies this
      ensures Now() == Step(old(Now()), maxFailures, TimerFires(timer, page))
    {
      match timers[timer] {
        case Every => var sent := OnTick(page);
        case Once(request) =>
          timers := timers - {timer};
          Fail(request);
      }
    }

    method SupersedePendingFrame()
      modifies this
      ensures Now() == Step(old(Now()), maxFailures, Supersede)
    {
      if pendingRequest.Some? {
        pendingRequest := Some(pendingRequest.value.(superseded := true));
      }
      log := log + [Input];
    }

    predicate MatchesPending(m: Message)
      reads this
      ensures MatchesPending(m) == Matches(Now(), m)
    {
      enabled && pendingRequest.Some? && m.device == pendingRequest.value.device && m.request == pendingRequest.value.id
    }

    method AcceptFrame(m: Message, page: Page) returns (render: bool)
      modifies this
      ensures Now() == Step(old(Now()), maxFailures, Frame(m, page))
      ensures render <==> Matches(old(Now()), m) && Rendered(old(Now()), page)
    {
      if !MatchesPending(m) { return false; }
      render := !pendingRequest.value.superseded && !page.hidden && page.eligible;
      log := log + [Answered(pendingRequest.value.id, render)];
      ClearPendingRequest();
      failures := 0;
    }

    method AcceptError(m: Message) returns (accepted: bool)
      modifies this
      ensures Now() == Step(old(Now()), maxFailures, Error(m)) && accepted == Matches(old(Now()), m)
    {
      if !MatchesPending(m) { return false; }
      Fail(pendingRequest.value.id);
      return true;
    }

    method AcceptDelayed(m: Message) returns (accepted: bool)
      modifies this
      ensures Now() == Step(old(Now()), maxFailures, Delayed(m)) && accepted == Matches(old(Now()), m)
    {
      if !MatchesPending(m) { return false; }
      log := log + [Postponed(pendingRequest.value.id)];
      ClearPendingRequest();
      return true;
    }

    method OnVisibility(page: Page)
      modifies this
      ensures Now() == Step(old(Now()), maxFailures, VisibilityChanged(page))
    {
      if !enabled { return; }
      if page.hidden { return; }
      if pendingRequest.None? {
        var sent := OnTick(page);
      }
    }
  }
}

/** Switching between host, site and client mode (desktop/topologyTransition.js): every switch waits for
    the one asked for before it. The code between two awaits is one step; a mode may go down at any time. */
module TopologyTransition {
  import opened Common

  datatype Mode = Host | Site | Client

  const MODES := [Host, Site, Client]

  /** Where one call of transitionTo is. 'previous' is what activeMode() said when its run began;
      'left' are the modes it still has to stop. */
  datatype Phase =
    | Waiting
    | AtTarget
    | Stopping(previous: Option<Mode>, left: seq<Mode>)
    | Starting(previous: Option<Mode>)
    | Restoring(previous: Option<Mode>)
    | Done(ok: bool)

  datatype Call = Call(target: Mode, phase: Phase)

  /** stopAll waits for the calls made before it, then stops the modes in order; it gives up at the first
      of 'left' when that stop throws. */
  datatype Shutdown =
    | NotAsked
    | Asked(after: nat)
    | Closing(after: nat, left: seq<Mode>)
    | GaveUp(after: nat, left: seq<Mode>)

  /** 'calls' are all calls in order; 'pending' of the original is the last of them. */
  datatype State = State(active: set<Mode>, calls: seq<Call>, shutdown: Shutdown)

  const INIT := State({}, [], NotAsked)

  /** activeTopologyMode: the first of host, site and client that is active. */
  function ActiveMode(active: set<Mode>): Option<Mode> {
    if Host in active then Some(Host)
    else if Site in active then Some(Site)
    else if Client in active then Some(Client) else None
  }

  function Modes(m: Option<Mode>): set<Mode> { if m.Some? then {m.value} else {} }

  function Others(target: Mode): seq<Mode> {
    match target
    case Host => [Site, Client]
    case Site => [Host, Client]
    case Client => [Host, Site]
  }

  datatype Event =
    | Request(target: Mode)
    | Begin(i: nat)
    | AnswerCurrent(i: nat, ok: bool)
    | StopNext(i: nat)
    | StopThrows(i: nat)
    | PartlyStarted(i: nat)
    | StartSucceeds(i: nat)
    | StartFails(i: nat)
    | StopTargetThrows(i: nat)
    | PartlyRestored(i: nat)
    | RestoreEnds(i: nat, ok: bool)
    | GoesDown(m: Mode)
    | AskStopAll
    | StopAllNext
    | StopAllThrows

  predicate Enabled(s: State, e: Event) {
    match e
    case Begin(i) => i < |s.calls| && s.calls[i].phase.Waiting? && (i > 0 ==> s.calls[i - 1].phase.Done?)
    case AnswerCurrent(i, _) => i < |s.calls| && s.calls[i].phase.AtTarget?
    case StopNext(i) => i < |s.calls| && s.calls[i].phase.Stopping?
    case StopThrows(i) => i < |s.calls| && s.calls[i].phase.Stopping?
    case PartlyStarted(i) => i < |s.calls| && s.calls[i].phase.Starting?
    case StartSucceeds(i) => i < |s.calls| && s.calls[i].phase.Starting?
    case StartFails(i) => i < |s.calls| && s.calls[i].phase.Starting?
    case StopTargetThrows(i) => i < |s.calls| && s.calls[i].phase.Starting?
    case PartlyRestored(i) => i < |s.calls| && s.calls[i].phase.Restoring?
    case RestoreEnds(i, _) => i < |s.calls| && s.calls[i].phase.Restoring?
    case AskStopAll => s.shutdown.NotAsked?
    case StopAllNext =>
      (s.shutdown.Asked? && forall j :: 0 <= j < s.shutdown.after && j < |s.calls| ==> s.calls[j].phase.Done?)
      || (s.shutdown.Closing? && s.shutdown.left != [])
    case StopAllThrows => s.shutdown.Closing? && s.shutdown.left != []
    case _ => true
  }

  function At(s: State, i: nat, p: Phase): State
    requires i < |s.calls|
  {
    s.(calls := s.calls[i := s.calls[i].(phase := p)])
  }

  /** The modes are stopped one after the other; the start follows the last of them. */
  function NextStop(previous: Option<Mode>, left: seq<Mode>): Phase {
    if left == [] then Starting(previous) else Stopping(previous, left)
  }

  function Step(s: State, e: Event): State
    requires Enabled(s, e)
  {
    match e
    case Request(target) => s.(calls := s.calls + [Call(target, Waiting)])
    case Begin(i) =>
      var previous := ActiveMode(s.active);
      var target := s.calls[i].target;
      At(s, i, if previous == Some(target) then AtTarget else NextStop(previous, Others(target)))
    case AnswerCurrent(i, ok) => At(s, i, Done(ok))
    case StopNext(i) =>
      var p := s.calls[i].phase;
      if p.left == [] then At(s, i, Starting(p.previous))
      else At(s.(active := s.active - {p.left[0]}), i, NextStop(p.previous, p.left[1..]))
    case StopThrows(i) => At(s, i, Done(false))
    case PartlyStarted(i) => s.(active := s.active + {s.calls[i].target})
    case StartSucceeds(i) => At(s.(active := s.active + {s.calls[i].target}), i, Done(true))
    case StartFails(i) => At(s.(active := s.active - {s.calls[i].target}), i, Restoring(s.calls[i].phase.previous))
    case StopTargetThrows(i) => At(s, i, Done(false))
    case PartlyRestored(i) => s.(active := s.active + Modes(s.calls[i].phase.previous))
    case RestoreEnds(i, ok) =>
      At(if ok then s.(active := s.active + Modes(s.calls[i].phase.previous)) else s, i, Done(false))
    case GoesDown(m) => s.(active := s.active - {m})
    case AskStopAll => s.(shutdown := Asked(|s.calls|))
    case StopAllNext =>
      if s.shutdown.Asked? then s.(shutdown := Closing(s.shutdown.after, MODES))
      else s.(active := s.active - {s.shutdown.left[0]}, shutdown := Closing(s.shutdown.after, s.shutdown.left[1..]))
    case StopAllThrows => s.(shutdown := GaveUp(s.shutdown.after, s.shutdown.left))
  }

  ghost predicate Legal(s: State, es: seq<Event>)
    decreases |es|
  {
    es == [] || (Enabled(s, es[0]) && Legal(Step(s, es[0]), es[1..]))
  }

  function After(s: State, es: seq<Event>): State
    requires Legal(s, es)
    decreases |es|
  {
    if es == [] then s else After(Step(s, es[0]), es[1..])
  }

  // ---------- One run at a time, one mode at a time ----------

  predicate InProgress(c: Call) { !c.phase.Waiting? && !c.phase.Done? }

  /** A call that has begun has only finished calls before it. */
  ghost predicate Chained(calls: seq<Call>) {
    forall i, j :: 0 <= i < j < |calls| && !calls[j].phase.Waiting? ==> calls[i].phase.Done?
  }

  ghost predicate AtMostOne(active: set<Mode>) { forall a, b :: a in active && b in active ==> a == b }

  /** What may be active while a call is in a phase. */
  ghost predicate Fits(active: set<Mode>, c: Call) {
    match c.phase
    case AtTarget => active <= {c.target}
    case Stopping(previous, left) =>
      previous != Some(c.target) && active <= Modes(previous) && forall m :: m in active ==> m in left
    case Starting(previous) => previous != Some(c.target) && active <= {c.target}
    case Restoring(previous) => previous != Some(c.target) && active <= Modes(previous)
    case _ => true
  }

  ghost predicate Inv(s: State) {
    Chained(s.calls) && AtMostOne(s.active) && forall i :: 0 <= i < |s.calls| ==> Fits(s.active, s.calls[i])
  }

  lemma ChainedKept(s: State, e: Event)
    requires Chained(s.calls) && Enabled(s, e)
    ensures Chained(Step(s, e).calls)
  {
    var t := Step(s, e);
    forall i, j | 0 <= i < j < |t.calls| && !t.calls[j].phase.Waiting? ensures t.calls[i].phase.Done? {
      if e.Begin? && j == e.i {
        assert s.calls[j - 1].phase.Done?;
        assert i < j - 1 ==> s.calls[i].phase.Done?;
      } else {
        assert !s.calls[j].phase.Waiting?;
        assert s.calls[i].phase.Done?;
      }
    }
  }

  lemma OneInProgress(calls: seq<Call>)
    requires Chained(calls)
    ensures forall i, j :: 0 <= i < |calls| && 0 <= j < |calls| && InProgress(calls[i]) && InProgress(calls[j]) ==>
              i == j
  {
  }

  /** The call an event belongs to. */
  function Subject(e: Event): Option<nat> {
    match e
    case Begin(i) => Some(i)
    case AnswerCurrent(i, _) => Some(i)
    case StopNext(i) => Some(i)
    case StopThrows(i) => Some(i)
    case PartlyStarted(i) => Some(i)
    case StartSucceeds(i) => Some(i)
    case StartFails(i) => Some(i)
    case StopTargetThrows(i) => Some(i)
    case PartlyRestored(i) => Some(i)
    case RestoreEnds(i, _) => Some(i)
    case _ => None
  }

  lemma ActiveModeIs(active: set<Mode>)
    requires AtMostOne(active)
    ensures active == Modes(ActiveMode(active))
  {
    forall m | m in active ensures ActiveMode(active) == Some(m) {
      assert ActiveMode(active).Some? && ActiveMode(active).value in active;
    }
  }

  lemma OwnCallFits(s: State, e: Event, i: nat)
    requires Inv(s) && Enabled(s, e) && Subject(e) == Some(i)
    ensures Fits(Step(s, e).active, Step(s, e).calls[i]) && AtMostOne(Step(s, e).active)
  {
    assert Fits(s.active, s.calls[i]);
    ActiveModeIs(s.active);
    if e.StopNext? && s.calls[i].phase.left != [] {
      var left := s.calls[i].phase.left;
      forall m | m in s.active - {left[0]} ensures m in left[1..] {
        var k :| 0 <= k < |left| && left[k] == m;
        assert left[1..][k - 1] == m;
      }
    }
  }

  lemma InvKept(s: State, e: Event)
    requires Inv(s) && Enabled(s, e)
    ensures Inv(Step(s, e))
  {
    ChainedKept(s, e);
    var t := Step(s, e);
    OneInProgress(s.calls);
    if Subject(e).Some? { OwnCallFits(s, e, Subject(e).value); }
    forall j | 0 <= j < |t.calls| && Subject(e) != Some(j) ensures Fits(t.active, t.calls[j]) {
      assert j < |s.calls| ==> s.calls[j] == t.calls[j] && Fits(s.active, s.calls[j]);
    }
  }

  lemma {:induction false} RunKeepsInv(s: State, es: seq<Event>)
    requires Inv(s) && Legal(s, es)
    ensures Inv(After(s, es))
    decreases |es|
  {
    if es != [] {
      hide Inv;
      InvKept(s, es[0]);
      RunKeepsInv(Step(s, es[0]), es[1..]);
    }
  }

  /** Runs never overlap, they begin in the order they were asked for, and at most one mode is active at
      every moment, whatever starts, restores and stops do and whenever a mode goes down. */
  lemma OneRunOneMode(es: seq<Event>)
    requires Legal(INIT, es)
    ensures var s := After(INIT, es);
            && (forall i, j :: 0 <= i < |s.calls| && 0 <= j < |s.calls| && InProgress(s.calls[i])
                  && InProgress(s.calls[j])
                  ==> i == j)
            && (forall i, j :: 0 <= i < j < |s.calls| && s.calls[i].phase.Waiting? ==> s.calls[j].phase.Waiting?)
            && (forall a, b :: a in s.active && b in s.active ==> a == b)
  {
    RunKeepsInv(INIT, es);
    OneInProgress(After(INIT, es).calls);
  }

  // ---------- A failed switch restores ----------

  /** A call that has begun keeps the mode it found. */
  predicate Remembers(c: Call, p: Option<Mode>) {
    match c.phase
    case Waiting => false
    case Stopping(previous, _) => previous == p
    case Starting(previous) => previous == p
    case Restoring(previous) => previous == p
    case _ => true
  }

  lemma {:induction false} MemoryKept(s: State, es: seq<Event>, i: nat, p: Option<Mode>)
    requires Legal(s, es) && i < |s.calls| && Remembers(s.calls[i], p)
    ensures i < |After(s, es).calls| && Remembers(After(s, es).calls[i], p)
    ensures After(s, es).calls[i].target == s.calls[i].target
    decreases |es|
  {
    if es != [] {
      var t := Step(s, es[0]);
      assert Remembers(t.calls[i], p) && t.calls[i].target == s.calls[i].target;
      MemoryKept(t, es[1..], i, p);
    }
  }

  /** A switch that begins in one mode, fails to start and is restored leaves exactly the mode it began
      in; a switch that succeeds leaves exactly its target; whatever happens between. */
  lemma SwitchEndsWhereItShould(es: seq<Event>, i: nat, between: seq<Event>, end: Event)
    requires Legal(INIT, es) && Enabled(After(INIT, es), Begin(i))
    requires Legal(Step(After(INIT, es), Begin(i)), between)
    requires end == RestoreEnds(i, true) || end == StartSucceeds(i)
    requires Enabled(After(Step(After(INIT, es), Begin(i)), between), end)
    ensures var s := After(INIT, es);
            Step(After(Step(s, Begin(i)), between), end).active
            == if end.StartSucceeds? then {s.calls[i].target} else Modes(ActiveMode(s.active))
  {
    var s := After(INIT, es);
    RunKeepsInv(INIT, es);
    InvKept(s, Begin(i));
    var t := Step(s, Begin(i));
    RunKeepsInv(t, between);
    MemoryKept(t, between, i, ActiveMode(s.active));
    var u := After(t, between);
    assert Fits(u.active, u.calls[i]);
  }

  /** When a stop throws, the restore is skipped: a switch whose own target's stop throws leaves at most its
      target active, and one that fails while it stops the others leaves at most the mode it began in. */
  lemma ThrowingStopSkipsRestore(es: seq<Event>, i: nat, between: seq<Event>, end: Event)
    requires Legal(INIT, es) && Enabled(After(INIT, es), Begin(i))
    requires Legal(Step(After(INIT, es), Begin(i)), between)
    requires end == StopTargetThrows(i) || end == StopThrows(i)
    requires Enabled(After(Step(After(INIT, es), Begin(i)), between), end)
    ensures var s := After(INIT, es);
            var u := After(Step(s, Begin(i)), between);
            && Step(u, end).calls[i].phase == Done(false) && Step(u, end).active == u.active
            && u.active <= if end.StopTargetThrows? then {s.calls[i].target} else Modes(ActiveMode(s.active))
  {
    var s := After(INIT, es);
    RunKeepsInv(INIT, es);
    InvKept(s, Begin(i));
    var t := Step(s, Begin(i));
    RunKeepsInv(t, between);
    MemoryKept(t, between, i, ActiveMode(s.active));
    var u := After(t, between);
    assert Fits(u.active, u.calls[i]);
  }

  // ---------- A call by its own history ----------

  lemma {:induction false} OneMore(s: State, es: seq<Event>, e: Event)
    ensures Legal(s, es + [e]) <==> Legal(s, es) && Enabled(After(s, es), e)
    ensures Legal(s, es + [e]) ==> After(s, es + [e]) == Step(After(s, es), e)
    decreases |es|
  {
    var all := es + [e];
    if es == [] {
      assert all[1..] == [];
    } else {
      assert all[1..] == es[1..] + [e];
      if Enabled(s, es[0]) { OneMore(Step(s, es[0]), es[1..], e); }
    }
  }

  lemma LastEvent(es: seq<Event>)
    requires Legal(INIT, es) && es != []
    ensures var n := |es| - 1;
      && Legal(INIT, es[..n]) && Enabled(After(INIT, es[..n]), es[n])
      && After(INIT, es) == Step(After(INIT, es[..n]), es[n])
  {
    var n := |es| - 1;
    assert es == es[..n] + [es[n]];
    OneMore(INIT, es[..n], es[n]);
  }

  /** The events of one call, in order. */
  ghost function Own(es: seq<Event>, i: nat): seq<Event> {
    if es == [] then []
    else
      var n := |es| - 1;
      Own(es[..n], i) + if IsOwn(es[n], i) then [es[n]] else []
  }

  /** The targets asked for, in order. */
  ghost function Requests(es: seq<Event>): seq<Mode> {
    if es == [] then []
    else var n := |es| - 1; Requests(es[..n]) + if es[n].Request? then [es[n].target] else []
  }

  /** The active mode when the run of the call began. */
  ghost function ModeFound(es: seq<Event>, i: nat): Option<Mode>
    requires Legal(INIT, es)
  {
    if es == [] then None
    else
      LastEvent(es);
      var n := |es| - 1;
      if es[n] == Begin(i) then ActiveMode(After(INIT, es[..n]).active) else ModeFound(es[..n], i)
  }

  /** All that one call can go through, and where each history leaves it. */
  ghost predicate FollowsScript(c: Call, own: seq<Event>, i: nat, found: Option<Mode>) {
    || (own == [] && c.phase == Waiting)
    || (own == [Begin(i)] && found == Some(c.target) && c.phase == AtTarget)
    || (exists ok :: own == [Begin(i), AnswerCurrent(i, ok)] && found == Some(c.target) && c.phase == Done(ok))
    || (found != Some(c.target) && FollowsSwitch(c, own, i, found))
  }

  ghost predicate FollowsSwitch(c: Call, own: seq<Event>, i: nat, found: Option<Mode>) {
    var stopped := [Begin(i), StopNext(i), StopNext(i)];
    || (own == [Begin(i)] && c.phase.Stopping? && c.phase.previous == found && InOrder(c.phase.left, c.target))
    || (own == [Begin(i), StopThrows(i)] && c.phase == Done(false))
    || (own == [Begin(i), StopNext(i)] && c.phase.Stopping? && c.phase.previous == found
        && exists first :: InOrder([first] + c.phase.left, c.target))
    || (own == [Begin(i), StopNext(i), StopThrows(i)] && c.phase == Done(false))
    || (own == stopped && c.phase == Starting(found))
    || (own == stopped + [StartSucceeds(i)] && c.phase == Done(true))
    || (own == stopped + [StopTargetThrows(i)] && c.phase == Done(false))
    || (own == stopped + [StartFails(i)] && c.phase == Restoring(found))
    || (exists ok :: own == stopped + [StartFails(i), RestoreEnds(i, ok)] && c.phase == Done(false))
  }

  /** The two modes other than the target, host before site before client. */
  ghost predicate InOrder(left: seq<Mode>, target: Mode) {
    && |left| == 2 && left[0] != target && left[1] != target && left[0] != left[1]
    && left[0] != Client && left[1] != Host
  }

  lemma ScriptStep(s: State, e: Event, i: nat, own: seq<Event>, found: Option<Mode>)
    requires Enabled(s, e) && i < |s.calls| && FollowsScript(s.calls[i], own, i, found)
    requires IsOwn(e, i)
    ensures FollowsScript(Step(s, e).calls[i], own + [e], i, if e.Begin? then ActiveMode(s.active) else found)
  {
    var c, d := s.calls[i], Step(s, e).calls[i];
    var stopped := [Begin(i), StopNext(i), StopNext(i)];
    match e {
      case Begin(_) =>
        assert own == [];
      case AnswerCurrent(_, ok) =>
        assert own + [e] == [Begin(i), AnswerCurrent(i, ok)];
      case StopNext(_) =>
        if own == [Begin(i)] {
          assert own + [e] == [Begin(i), StopNext(i)];
          assert [c.phase.left[0]] + d.phase.left == c.phase.left;
        } else {
          assert own == [Begin(i), StopNext(i)];
          assert own + [e] == stopped;
        }
      case RestoreEnds(_, ok) =>
        assert own + [e] == stopped + [StartFails(i), RestoreEnds(i, ok)];
      case _ =>
    }
  }

  predicate IsOwn(e: Event, i: nat) { Subject(e) == Some(i) && !e.PartlyStarted? && !e.PartlyRestored? }

  /** Only a request makes a call, and only its own events move it. */
  lemma CallStep(s: State, e: Event, i: nat)
    requires Enabled(s, e)
    ensures var t := Step(s, e);
      && |t.calls| == |s.calls| + (if e.Request? then 1 else 0)
      && (i < |s.calls| ==> t.calls[i].target == s.calls[i].target && (IsOwn(e, i) || t.calls[i] == s.calls[i]))
      && (i >= |s.calls| ==> !IsOwn(e, i))
      && (e.Request? ==> t.calls[|s.calls|] == Call(e.target, Waiting))
  {
  }

  /** Main result on one call: whatever else happens, its own events are one of these histories, and each
      leaves it in exactly one place. */
  lemma {:induction false} CallFollowsScript(es: seq<Event>, i: nat)
    requires Legal(INIT, es)
    ensures var s := After(INIT, es);
      && |s.calls| == |Requests(es)|
      && (if i < |s.calls| then
            s.calls[i].target == Requests(es)[i] && FollowsScript(s.calls[i], Own(es, i), i, ModeFound(es, i))
          else Own(es, i) == [])
  {
    if es != [] {
      hide FollowsScript, Legal, After, Step, Enabled;
      LastEvent(es);
      var n := |es| - 1;
      CallFollowsScript(es[..n], i);
      var s, e := After(INIT, es[..n]), es[n];
      CallStep(s, e, i);
      if IsOwn(e, i) {
        ScriptStep(s, e, i, Own(es[..n], i), ModeFound(es[..n], i));
      } else if i == |s.calls| && e.Request? {
        Unbegun(i, e.target, ModeFound(es, i));
      }
    } else {
      Nothing(INIT);
    }
  }

  lemma Unbegun(i: nat, target: Mode, found: Option<Mode>)
    ensures FollowsScript(Call(target, Waiting), [], i, found)
  {
  }

  ghost predicate Occurred(es: seq<Event>, e: Event) { e in es }

  lemma {:induction false} OwnIff(es: seq<Event>, i: nat, e: Event)
    requires IsOwn(e, i)
    ensures e in Own(es, i) <==> Occurred(es, e)
  {
    if es != [] {
      var n := |es| - 1;
      OwnIff(es[..n], i, e);
      assert es == es[..n] + [es[n]];
    }
  }

  /** A call has failed exactly if its 'current' failed, a stop threw or a restore ended for it, and it has
      succeeded exactly if its 'current' or its start did. */
  lemma CallEndsIff(es: seq<Event>, i: nat)
    requires Legal(INIT, es) && i < |After(INIT, es).calls|
    ensures After(INIT, es).calls[i].phase == Done(false)
       <==> || Occurred(es, AnswerCurrent(i, false)) || Occurred(es, StopThrows(i)) || Occurred(es, StopTargetThrows(i))
            || exists ok :: Occurred(es, RestoreEnds(i, ok))
    ensures After(INIT, es).calls[i].phase == Done(true)
       <==> Occurred(es, AnswerCurrent(i, true)) || Occurred(es, StartSucceeds(i))
  {
    hide Occurred, Own, FollowsScript;
    CallFollowsScript(es, i);
    AllOwn(es, i);
    ScriptEnds(After(INIT, es).calls[i], Own(es, i), i, ModeFound(es, i));
  }

  lemma ScriptEnds(c: Call, own: seq<Event>, i: nat, found: Option<Mode>)
    requires FollowsScript(c, own, i, found)
    ensures c.phase == Done(false)
       <==> || AnswerCurrent(i, false) in own || StopThrows(i) in own || StopTargetThrows(i) in own
            || exists ok :: RestoreEnds(i, ok) in own
    ensures c.phase == Done(true) <==> AnswerCurrent(i, true) in own || StartSucceeds(i) in own
  {
    var stopped := [Begin(i), StopNext(i), StopNext(i)];
    forall ok | own == stopped + [StartFails(i), RestoreEnds(i, ok)] ensures own[4] == RestoreEnds(i, ok) {}
    forall ok | own == [Begin(i), AnswerCurrent(i, ok)] ensures own[1] == AnswerCurrent(i, ok) {}
    assert own == stopped + [StopTargetThrows(i)] ==> own[3] == StopTargetThrows(i);
    assert own == stopped + [StartSucceeds(i)] ==> own[3] == StartSucceeds(i);
  }

  lemma AllOwn(es: seq<Event>, i: nat)
    ensures forall e :: IsOwn(e, i) ==> (e in Own(es, i) <==> Occurred(es, e))
  {
    forall e | IsOwn(e, i) ensures e in Own(es, i) <==> Occurred(es, e) {
      OwnIff(es, i, e);
    }
  }

  /** A failed start is always followed by a restore of the mode the call began in: until that ends the
      call is open, and it ends by nothing else. */
  lemma FailedStartRestores(es: seq<Event>, i: nat)
    requires Legal(INIT, es) && Occurred(es, StartFails(i))
    ensures i < |After(INIT, es).calls|
    ensures var c := After(INIT, es).calls[i];
      if exists ok :: Occurred(es, RestoreEnds(i, ok)) then c.phase == Done(false)
      else c.phase == Restoring(ModeFound(es, i))
  {
    hide Occurred, Own;
    CallFollowsScript(es, i);
    AllOwn(es, i);
    assert IsOwn(StartFails(i), i);
  }

  /** So a switch whose start fails, whose stops do not throw and whose restore succeeds ends with exactly
      the mode active in which it began, and one whose start succeeds with exactly its target. */
  lemma SwitchEndsInOneMode(es: seq<Event>, i: nat)
    requires es != [] && Legal(INIT, es) && es[|es| - 1] in {RestoreEnds(i, true), StartSucceeds(i)}
    ensures i < |Requests(es)|
    ensures After(INIT, es).active
         == if es[|es| - 1] == StartSucceeds(i) then {Requests(es)[i]} else Modes(ModeFound(es, i))
  {
    hide FollowsScript;
    var n := |es| - 1;
    LastEvent(es);
    CallFollowsScript(es[..n], i);
    RunKeepsInv(INIT, es[..n]);
    var s := After(INIT, es[..n]);
    assert Fits(s.active, s.calls[i]);
    if s.calls[i].phase.Restoring? {
      RestoresWhatItFound(s.calls[i], Own(es[..n], i), i, ModeFound(es[..n], i));
    }
  }

  lemma RestoresWhatItFound(c: Call, own: seq<Event>, i: nat, found: Option<Mode>)
    requires FollowsScript(c, own, i, found) && c.phase.Restoring?
    ensures c.phase.previous == found
  {
  }

  /** stopAll waits for exactly the calls made before it. */
  lemma {:induction false} StopAllWaitsFor(es: seq<Event>, k: nat)
    requires Legal(INIT, es) && k < |es| && es[k] == AskStopAll
    ensures !After(INIT, es).shutdown.NotAsked? && After(INIT, es).shutdown.after == |Requests(es[..k])|
    ensures After(INIT, es).shutdown.Asked? || forall i :: 0 <= i < |Requests(es[..k])| ==>
              i < |After(INIT, es).calls| && After(INIT, es).calls[i].phase.Done?
  {
    hide Legal, After;
    var n := |es| - 1;
    LastEvent(es);
    RunKeepsClosing(INIT, es) by { Nothing(INIT); }
    if k < n {
      assert es[..n][..k] == es[..k];
      StopAllWaitsFor(es[..n], k);
    } else {
      CallFollowsScript(es[..n], 0);
    }
  }

  /** However calls fail, the next one in line can always go on. */
  lemma {:induction false} NeverStuck(s: State, i: nat)
    requires Inv(s) && i < |s.calls| && !s.calls[i].phase.Done?
    ensures exists e :: Subject(e).Some? && Subject(e).value <= i && Enabled(s, e)
    decreases i
  {
    match s.calls[i].phase {
      case Waiting =>
        if i > 0 && !s.calls[i - 1].phase.Done? {
          NeverStuck(s, i - 1);
        } else {
          assert Enabled(s, Begin(i)) && Subject(Begin(i)) == Some(i);
        }
      case AtTarget => assert Enabled(s, AnswerCurrent(i, true)) && Subject(AnswerCurrent(i, true)) == Some(i);
      case Stopping(_, _) => assert Enabled(s, StopNext(i)) && Subject(StopNext(i)) == Some(i);
      case Starting(_) => assert Enabled(s, StartFails(i)) && Subject(StartFails(i)) == Some(i);
      case Restoring(_) => assert Enabled(s, RestoreEnds(i, false)) && Subject(RestoreEnds(i, false)) == Some(i);
    }
  }

  // ---------- Stopping everything ----------

  /** While no call was made after it, stopAll works alone, and only what it has not reached yet is active. */
  ghost predicate ClosingInv(s: State) {
    && (!s.shutdown.NotAsked? ==> s.shutdown.after <= |s.calls|)
    && (s.shutdown.Closing? || s.shutdown.GaveUp? ==> forall i :: 0 <= i < s.shutdown.after ==> s.calls[i].phase.Done?)
    && ((s.shutdown.Closing? || s.shutdown.GaveUp?) && |s.calls| == s.shutdown.after ==>
          forall m :: m in s.active ==> m in s.shutdown.left)
  }

  lemma ClosingKept(s: State, e: Event)
    requires ClosingInv(s) && Enabled(s, e)
    ensures ClosingInv(Step(s, e))
  {
    var t := Step(s, e);
    if e.StopAllNext? && s.shutdown.Closing? {
      var left := s.shutdown.left;
      forall m | |s.calls| == s.shutdown.after && m in t.active ensures m in t.shutdown.left {
        var k :| 0 <= k < |left| && left[k] == m;
        assert left[1..][k - 1] == m;
      }
    }
    if e.StopAllNext? && s.shutdown.Asked? {
      AllModes();
    }
  }

  lemma {:induction false} RunKeepsClosing(s: State, es: seq<Event>)
    requires ClosingInv(s) && Legal(s, es)
    ensures ClosingInv(After(s, es))
    decreases |es|
  {
    if es != [] {
      ClosingKept(s, es[0]);
      RunKeepsClosing(Step(s, es[0]), es[1..]);
    }
  }

  /** When stopAll is through and no call was made after it, nothing is active and no call is open; when it
      gave up, nothing is active that it had stopped before. */
  lemma StopAllStopsAll(es: seq<Event>)
    requires Legal(INIT, es)
    ensures var t := After(INIT, es);
            t.shutdown.Closing? && t.shutdown.left == [] && |t.calls| == t.shutdown.after
            ==> t.active == {} && forall i :: 0 <= i < |t.calls| ==> t.calls[i].phase.Done?
    ensures var t := After(INIT, es);
            t.shutdown.GaveUp? && |t.calls| == t.shutdown.after
            ==> (forall m :: m in t.active ==> m in t.shutdown.left)
                && forall i :: 0 <= i < |t.calls| ==> t.calls[i].phase.Done?
  {
    RunKeepsClosing(INIT, es);
  }

  lemma AllModes()
    ensures forall m: Mode :: m in MODES
  {
    forall m: Mode ensures m in MODES {
      match m {
        case Host => assert MODES[0] == m;
        case Site => assert MODES[1] == m;
        case Client => assert MODES[2] == m;
      }
    }
  }

  /** One more event in front of a run that ends in 'end'. */
  lemma Before(s: State, e: Event, t: State, rest: seq<Event>, end: State) returns (es: seq<Event>)
    requires Enabled(s, e) && Step(s, e) == t && Legal(t, rest) && After(t, rest) == end
    ensures es == [e] + rest && Legal(s, es) && After(s, es) == end
  {
    es := [e] + rest;
    assert es[1..] == rest;
  }

  /** Both happen: a target that came up before its start failed stays active when its stop throws, and the
      mode restored in part stays active when the restore fails. */
  lemma FailedSwitchCanLeaveAMode(s: State)
    requires s == State({}, [Call(Host, Starting(Some(Site)))], NotAsked)
    ensures exists es :: Legal(s, es) && After(s, es) == State({Host}, [Call(Host, Done(false))], NotAsked)
    ensures exists es :: Legal(s, es) && After(s, es) == State({Site}, [Call(Host, Done(false))], NotAsked)
  {
    hide Legal, After;
    var up := State({Host}, [Call(Host, Starting(Some(Site)))], NotAsked);
    var kept := State({Host}, [Call(Host, Done(false))], NotAsked);
    Nothing(kept);
    var es := Before(up, StopTargetThrows(0), kept, [], kept);
    es := Before(s, PartlyStarted(0), up, es, kept);
    var back := State({}, [Call(Host, Restoring(Some(Site)))], NotAsked);
    var partly := State({Site}, [Call(Host, Restoring(Some(Site)))], NotAsked);
    var left := State({Site}, [Call(Host, Done(false))], NotAsked);
    Nothing(left);
    es := Before(partly, RestoreEnds(0, false), left, [], left);
    es := Before(back, PartlyRestored(0), partly, es, left);
    es := Before(s, StartFails(0), back, es, left);
  }

  /** stopAll gives up exactly when one of its stops throws. */
  lemma {:induction false} GivesUpIff(es: seq<Event>)
    requires Legal(INIT, es)
    ensures After(INIT, es).shutdown.GaveUp? <==> StopAllThrows in es
  {
    hide Legal, After;
    if es == [] {
      Nothing(INIT);
    } else {
      LastEvent(es);
      GivesUpIff(es[..|es| - 1]);
      assert es == es[..|es| - 1] + [es[|es| - 1]];
    }
  }

  const STARTED_LATE := State({Host}, [Call(Host, Done(true))], Closing(0, []))

  /** Its two last stops come after the late start has succeeded. */
  lemma LateRun(requested: State) returns (es: seq<Event>)
    requires requested == State({}, [Call(Host, Waiting)], Closing(0, [Site, Client]))
    ensures Legal(requested, es) && After(requested, es) == STARTED_LATE
  {
    hide Legal, After;
    var left := Closing(0, [Site, Client]);
    var s1 := State({}, [Call(Host, Stopping(None, [Site, Client]))], left);
    var s2 := State({}, [Call(Host, Stopping(None, [Client]))], left);
    var s3 := State({}, [Call(Host, Starting(None))], left);
    var s4 := State({Host}, [Call(Host, Done(true))], left);
    var s5 := State({Host}, [Call(Host, Done(true))], Closing(0, [Client]));
    assert [Site, Client][1..] == [Client] && [Client][1..] == [];
    Nothing(STARTED_LATE);
    es := Before(s5, StopAllNext, STARTED_LATE, [], STARTED_LATE);
    es := Before(s4, StopAllNext, s5, es, STARTED_LATE);
    es := Before(s3, StartSucceeds(0), s4, es, STARTED_LATE);
    es := Before(s2, StopNext(0), s3, es, STARTED_LATE);
    es := Before(s1, StopNext(0), s2, es, STARTED_LATE);
    es := Before(requested, Begin(0), s1, es, STARTED_LATE);
  }

  /** Such a run: the switch is asked for while stopAll is between its stops; its mode stays active. */
  lemma LateSwitchSurvivesStopAll()
    ensures exists es :: Legal(INIT, es) && After(INIT, es) == STARTED_LATE
  {
    hide Legal, After;
    var s1 := State({}, [], Asked(0));
    var s2 := State({}, [], Closing(0, MODES));
    var s3 := State({}, [], Closing(0, [Site, Client]));
    var s4 := State({}, [Call(Host, Waiting)], Closing(0, [Site, Client]));
    assert MODES[1..] == [Site, Client];
    var es := LateRun(s4);
    es := Before(s3, Request(Host), s4, es, STARTED_LATE);
    es := Before(s2, StopAllNext, s3, es, STARTED_LATE);
    es := Before(s1, StopAllNext, s2, es, STARTED_LATE);
    es := Before(INIT, AskStopAll, s1, es, STARTED_LATE);
  }

  lemma Nothing(s: State)
    ensures Legal(s, []) && After(s, []) == s
  {
  }

  // ---------- What can still happen without another call ----------

  /** Neither a call of transitionTo nor one of stopAll. */
  predicate NoCall(e: Event) { !e.Request? && !e.AskStopAll? }

  ghost predicate NoCalls(es: seq<Event>) { forall k :: 0 <= k < |es| ==> NoCall(es[k]) }

  ghost predicate Reaches(s: State, t: State) {
    exists es :: Legal(s, es) && NoCalls(es) && After(s, es) == t
  }

  lemma ReachSelf(s: State)
    ensures Reaches(s, s)
  {
    Nothing(s);
    assert NoCalls([]);
  }

  lemma ReachStep(s: State, e: Event, t: State)
    requires Enabled(s, e) && NoCall(e) && Reaches(Step(s, e), t)
    ensures Reaches(s, t)
  {
    hide Legal, After;
    var es :| Legal(Step(s, e), es) && NoCalls(es) && After(Step(s, e), es) == t;
    var more := Before(s, e, Step(s, e), es, t);
    assert NoCalls(more);
  }

  lemma {:induction false} ReachRun(s: State, es: seq<Event>, t: State)
    requires Legal(s, es) && NoCalls(es) && Reaches(After(s, es), t)
    ensures Reaches(s, t)
    decreases |es|
  {
    hide Reaches;
    if es != [] {
      TailNoCalls(es);
      ReachRun(Step(s, es[0]), es[1..], t);
      ReachStep(s, es[0], t);
    }
  }

  lemma TailNoCalls(es: seq<Event>)
    requires NoCalls(es) && es != []
    ensures NoCalls(es[1..]) && NoCall(es[0])
  {
    forall k | 0 <= k < |es[1..]| ensures NoCall(es[1..][k]) { assert es[1..][k] == es[k + 1]; }
  }

  lemma ReachTrans(s: State, t: State, u: State)
    requires Reaches(s, t) && Reaches(t, u)
    ensures Reaches(s, u)
  {
    var es :| Legal(s, es) && NoCalls(es) && After(s, es) == t;
    ReachRun(s, es, u);
  }

  /** How many steps of its own a call has at most ahead of it, besides the partial ones. */
  function StepsLeft(c: Call): nat {
    match c.phase
    case Waiting => 6
    case AtTarget => 1
    case Stopping(_, left) => 3 + |left|
    case Starting(_) => 2
    case Restoring(_) => 1
    case Done(_) => 0
  }

  /** Every step of a call brings it closer to its end and no other step sets it back, so each call ends
      after at most six steps of its own. */
  lemma OwnStepsRunOut(s: State, e: Event, i: nat)
    requires Enabled(s, e) && i < |s.calls|
    ensures Step(s, e).calls[i].phase.Done? <==> StepsLeft(Step(s, e).calls[i]) == 0
    ensures if Subject(e) == Some(i) && !e.PartlyStarted? && !e.PartlyRestored?
            then StepsLeft(Step(s, e).calls[i]) < StepsLeft(s.calls[i]) else Step(s, e).calls[i] == s.calls[i]
  {
  }

  /** All calls but the i-th, and the shutdown, are as they were. */
  ghost predicate OnlyCall(s: State, t: State, i: nat) {
    |t.calls| == |s.calls| && t.shutdown == s.shutdown
    && forall j :: 0 <= j < |s.calls| && j != i ==> t.calls[j] == s.calls[j]
  }

  lemma {:induction false} FinishCall(s: State, i: nat) returns (t: State)
    requires i < |s.calls| && forall j :: 0 <= j < i ==> s.calls[j].phase.Done?
    ensures Reaches(s, t) && OnlyCall(s, t, i) && t.calls[i].phase.Done?
    decreases StepsLeft(s.calls[i])
  {
    hide Reaches;
    if s.calls[i].phase.Done? {
      t := s;
      ReachSelf(s);
    } else {
      var e := match s.calls[i].phase
        case Waiting => Begin(i)
        case AtTarget => AnswerCurrent(i, true)
        case Stopping(_, _) => StopThrows(i)
        case Starting(_) => StartFails(i)
        case _ => RestoreEnds(i, false);
      OwnStepsRunOut(s, e, i);
      t := FinishCall(Step(s, e), i);
      ReachStep(s, e, t);
    }
  }

  lemma {:induction false} FinishCallsBefore(s: State, i: nat) returns (t: State)
    requires i <= |s.calls|
    ensures Reaches(s, t) && t.shutdown == s.shutdown && |t.calls| == |s.calls|
    ensures forall j :: 0 <= j < |t.calls| ==> if j < i then t.calls[j].phase.Done? else t.calls[j] == s.calls[j]
    decreases i
  {
    hide Reaches;
    if i == 0 {
      t := s;
      ReachSelf(s);
    } else {
      var u := FinishCallsBefore(s, i - 1);
      t := FinishCall(u, i - 1);
      ReachTrans(s, u, t);
    }
  }

  /** However calls fail and wherever they stand, every call can come to its end without any other call. */
  lemma EveryCallCanEnd(s: State, i: nat)
    requires i < |s.calls|
    ensures exists t :: Reaches(s, t) && i < |t.calls| && t.calls[i].phase.Done?
  {
    hide Reaches;
    var t := FinishCallsBefore(s, i + 1);
  }

  // ---------- What a late call can do to stopAll ----------

  predicate MayActivate(c: Call) {
    c.phase.Waiting? || c.phase.Stopping? || c.phase.Starting? || (c.phase.Restoring? && c.phase.previous.Some?)
  }

  predicate AskedFor(s: State) { s.shutdown.Asked? || s.shutdown.Closing? }

  /** A call made after stopAll has still a mode to activate, or a mode is active that stopAll has passed. */
  ghost predicate Escapes(s: State)
    requires AskedFor(s)
  {
    (exists i :: s.shutdown.after <= i < |s.calls| && MayActivate(s.calls[i]))
    || (s.shutdown.Closing? && exists m :: m in s.active && m !in s.shutdown.left)
  }

  /** stopAll is through, and something is active. */
  predicate Survived(t: State) { t.shutdown.Closing? && t.shutdown.left == [] && t.active != {} }

  lemma ContainedKept(s: State, e: Event)
    requires AskedFor(s) && ClosingInv(s) && !Escapes(s) && Enabled(s, e) && NoCall(e) && !e.StopAllThrows?
    ensures AskedFor(Step(s, e)) && ClosingInv(Step(s, e)) && !Escapes(Step(s, e))
  {
    ClosingKept(s, e);
    AllModes();
    var t := Step(s, e);
    assert forall i :: t.shutdown.after <= i < |t.calls| && MayActivate(t.calls[i]) ==> MayActivate(s.calls[i]);
    if t.shutdown.Closing? {
      forall m | m in t.active ensures m in t.shutdown.left {
        if s.shutdown.Closing? {
          assert m in s.active;
          assert m in s.shutdown.left;
          if e.StopAllNext? { assert s.shutdown.left == [s.shutdown.left[0]] + t.shutdown.left; }
        }
      }
    }
  }

  lemma {:induction false} GivenUpForGood(s: State, es: seq<Event>)
    requires s.shutdown.GaveUp? && Legal(s, es)
    ensures After(s, es).shutdown.GaveUp?
    decreases |es|
  {
    if es != [] { GivenUpForGood(Step(s, es[0]), es[1..]); }
  }

  lemma {:induction false} ContainedStays(s: State, es: seq<Event>)
    requires AskedFor(s) && ClosingInv(s) && !Escapes(s) && Legal(s, es) && NoCalls(es)
    ensures !Survived(After(s, es))
    decreases |es|
  {
    if es != [] {
      hide Escapes, ClosingInv;
      TailNoCalls(es);
      if es[0].StopAllThrows? {
        GivenUpForGood(Step(s, es[0]), es[1..]);
      } else {
        ContainedKept(s, es[0]);
        ContainedStays(Step(s, es[0]), es[1..]);
      }
    }
  }

  lemma {:induction false} CloseAll(s: State) returns (t: State)
    requires s.shutdown.Closing?
    ensures Reaches(s, t) && t.calls == s.calls && t.shutdown == Closing(s.shutdown.after, [])
    ensures forall m :: m in t.active <==> m in s.active && m !in s.shutdown.left
    decreases |s.shutdown.left|
  {
    hide Reaches;
    if s.shutdown.left == [] {
      t := s;
      ReachSelf(s);
    } else {
      var u := Step(s, StopAllNext);
      assert s.shutdown.left == [s.shutdown.left[0]] + u.shutdown.left;
      t := CloseAll(u);
      ReachStep(s, StopAllNext, t);
    }
  }

  lemma {:induction false} Activate(s: State, i: nat) returns (t: State)
    requires i < |s.calls| && MayActivate(s.calls[i]) && forall j :: 0 <= j < i ==> s.calls[j].phase.Done?
    ensures Reaches(s, t) && t.shutdown == s.shutdown && t.active != {}
    decreases StepsLeft(s.calls[i])
  {
    hide Reaches;
    match s.calls[i].phase {
      case Waiting =>
        var u := s.(active := {});
        Quiet(s, u);
        OwnStepsRunOut(u, Begin(i), i);
        assert i > 0 ==> u.calls[i - 1].phase.Done?;
        assert Step(u, Begin(i)).calls[i].phase == Stopping(None, Others(s.calls[i].target));
        t := Activate(Step(u, Begin(i)), i);
        ReachStep(u, Begin(i), t);
        ReachTrans(s, u, t);
      case Stopping(_, _) =>
        OwnStepsRunOut(s, StopNext(i), i);
        t := Activate(Step(s, StopNext(i)), i);
        ReachStep(s, StopNext(i), t);
      case Starting(_) =>
        t := Step(s, StartSucceeds(i));
        assert s.calls[i].target in t.active;
        ReachSelf(t);
        ReachStep(s, StartSucceeds(i), t);
      case Restoring(previous) =>
        t := Step(s, RestoreEnds(i, true));
        assert previous.value in t.active;
        ReachSelf(t);
        ReachStep(s, RestoreEnds(i, true), t);
    }
  }

  /** Every mode can go down. */
  lemma Quiet(s: State, t: State)
    requires t == s.(active := {})
    ensures Reaches(s, t)
  {
    var s1 := Step(s, GoesDown(Host));
    var s2 := Step(s1, GoesDown(Site));
    assert Step(s2, GoesDown(Client)).active == {} by {
      forall m: Mode ensures m !in Step(s2, GoesDown(Client)).active {
        match m { case Host => case Site => case Client => }
      }
    }
    ReachSelf(t);
    ReachStep(s2, GoesDown(Client), t);
    ReachStep(s1, GoesDown(Site), t);
    ReachStep(s, GoesDown(Host), t);
  }

  /** Main result on stopping everything: without another call, some mode can be active when stopAll is
      through if and only if a call made after it still has a mode to activate, or a mode is active that
      its stops have passed. */
  lemma SurvivesStopAllIff(es: seq<Event>)
    requires Legal(INIT, es) && AskedFor(After(INIT, es))
    ensures var s := After(INIT, es); (exists t :: Reaches(s, t) && Survived(t)) <==> Escapes(s)
  {
    RunKeepsClosing(INIT, es);
    var s := After(INIT, es);
    if !Escapes(s) {
      forall t | Reaches(s, t) ensures !Survived(t) {
        var more :| Legal(s, more) && NoCalls(more) && After(s, more) == t;
        ContainedStays(s, more);
      }
    } else {
      EscapeSurvives(s);
    }
  }

  lemma EscapeSurvives(s: State)
    requires AskedFor(s) && ClosingInv(s) && Escapes(s)
    ensures exists t :: Reaches(s, t) && Survived(t)
  {
    hide Reaches;
    if s.shutdown.Closing? && exists m :: m in s.active && m !in s.shutdown.left {
      var m :| m in s.active && m !in s.shutdown.left;
      var t := CloseAll(s);
      assert m in t.active;
    } else {
      var i :| s.shutdown.after <= i < |s.calls| && MayActivate(s.calls[i]);
      var u := FinishCallsBefore(s, i);
      var v := u;
      ReachSelf(u);
      if u.shutdown.Asked? {
        v := Step(u, StopAllNext);
        ReachSelf(v);
        ReachStep(u, StopAllNext, v);
      }
      ReachTrans(s, u, v);
      var w := CloseAll(v);
      ReachTrans(s, v, w);
      var t := Activate(w, i);
      ReachTrans(s, w, t);
    }
  }

  /** Neither a call nor a step of stopAll. */
  predicate Else(e: Event) { NoCall(e) && !e.StopAllNext? && !e.StopAllThrows? }

  ghost predicate AllElse(es: seq<Event>) { forall k :: 0 <= k < |es| ==> Else(es[k]) }

  lemma {:induction false} ElseKeeps(s: State, es: seq<Event>)
    requires Legal(s, es) && AllElse(es)
    ensures After(s, es).shutdown == s.shutdown && |After(s, es).calls| == |s.calls|
    decreases |es|
  {
    if es != [] {
      assert Else(es[0]);
      forall k | 0 <= k < |es[1..]| ensures Else(es[1..][k]) {
        assert es[1..][k] == es[k + 1];
      }
      ElseKeeps(Step(s, es[0]), es[1..]);
    }
  }

  // ---------- The same, in place ----------

  class Transition {
    var active: set<Mode>
    var calls: seq<Call>
    var shutdown: Shutdown

    function Now(): State
      reads this
    {
      State(active, calls, shutdown)
    }

    constructor ()
      ensures Now() == INIT
    {
      active, calls, shutdown := {}, [], NotAsked;
    }

    method TransitionTo(target: Mode)
      modifies this
      ensures Now() == Step(old(Now()), Request(target))
    {
      calls := calls + [Call(target, Waiting)];
    }

    method SetPhase(i: nat, p: Phase)
      requires i < |calls|
      modifies this`calls
      ensures calls == old(calls)[i := old(calls)[i].(phase := p)]
    {
      calls := calls[i := calls[i].(phase := p)];
    }

    method BeginRun(i: nat)
      requires Enabled(Now(), Begin(i))
      modifies this
      ensures Now() == Step(old(Now()), Begin(i))
    {
      var previous := ActiveMode(active);
      if previous == Some(calls[i].target) {
        SetPhase(i, AtTarget);
      } else {
        SetPhase(i, Stopping(previous, Others(calls[i].target)));
      }
    }

    method StopOne(i: nat, throws: bool)
      requires i < |calls| && calls[i].phase.Stopping?
      modifies this
      ensures Now() == Step(old(Now()), if throws then StopThrows(i) else StopNext(i))
    {
      if throws {
        SetPhase(i, Done(false));
        return;
      }
      var previous, left := calls[i].phase.previous, calls[i].phase.left;
      if left != [] {
        active := active - {left[0]};
        left := left[1..];
      }
      SetPhase(i, if left == [] then Starting(previous) else Stopping(previous, left));
    }

    /** The start succeeds, or its target is stopped again; when that stop throws, there is no restore. */
    method EndStart(i: nat, ok: bool, stopThrows: bool)
      requires i < |calls| && calls[i].phase.Starting?
      modifies this
      ensures Now() == Step(old(Now()), if ok then StartSucceeds(i)
                                        else if stopThrows then StopTargetThrows(i) else StartFails(i))
    {
      if ok {
        active := active + {calls[i].target};
        SetPhase(i, Done(true));
      } else if stopThrows {
        SetPhase(i, Done(false));
      } else {
        active := active - {calls[i].target};
        SetPhase(i, Restoring(calls[i].phase.previous));
      }
    }

    method EndRestore(i: nat, ok: bool)
      requires i < |calls| && calls[i].phase.Restoring?
      modifies this
      ensures Now() == Step(old(Now()), RestoreEnds(i, ok))
    {
      if ok { active := active + Modes(calls[i].phase.previous); }
      SetPhase(i, Done(false));
    }

    /** What comes while a stop is awaited. */
    method Interrupt(es: seq<Event>)
      requires Legal(Now(), es)
      modifies this
      ensures Now() == After(old(Now()), es)
    {
      var k := 0;
      while k < |es|
        invariant k <= |es| && Legal(Now(), es[k..]) && After(Now(), es[k..]) == After(old(Now()), es)
      {
        var t := Step(Now(), es[k]);
        assert es[k..][1..] == es[k + 1..];
        active, calls, shutdown := t.active, t.calls, t.shutdown;
        k := k + 1;
      }
      assert es[k..] == [];
    }

    /** The loop of stopAll: before and after each stop anything may come that is not another call. It ends
        at the first stop that throws. */
    method StopAllModes(between: State -> seq<Event>, throws: Mode -> bool) returns (ok: bool)
      requires shutdown.Closing? && shutdown.left == MODES && ClosingInv(Now()) && |calls| == shutdown.after
      requires forall s :: Legal(s, between(s)) && AllElse(between(s))
      modifies this
      ensures ok <==> !throws(Host) && !throws(Site) && !throws(Client)
      ensures ok ==> active == {} && shutdown == Closing(old(shutdown.after), [])
      ensures !ok ==> shutdown.GaveUp? && shutdown.left != [] && throws(shutdown.left[0])
                      && forall m :: m in active ==> m in shutdown.left
      ensures forall i :: 0 <= i < |calls| ==> calls[i].phase.Done?
    {
      hide Legal, After;
      assert MODES[0..] == MODES && MODES[3..] == [];
      ghost var k := 0;
      while shutdown.left != []
        invariant k <= 3 && shutdown.Closing? && shutdown.left == MODES[k..]
        invariant forall j :: 0 <= j < k ==> !throws(MODES[j])
        invariant shutdown.after == old(shutdown.after) == |calls| && ClosingInv(Now())
        decreases |shutdown.left|
      {
        ElseKeeps(Now(), between(Now()));
        RunKeepsClosing(Now(), between(Now()));
        Interrupt(between(Now()));
        assert shutdown.left[0] == MODES[k];
        if throws(shutdown.left[0]) {
          ClosingKept(Now(), StopAllThrows);
          StopAllOne(true);
          return false;
        }
        ClosingKept(Now(), StopAllNext);
        StopAllOne(false);
        assert shutdown.left == MODES[k..][1..] == MODES[k + 1..];
        k := k + 1;
      }
      assert !throws(MODES[0]) && !throws(MODES[1]) && !throws(MODES[2]);
      return true;
    }

    method StopAllOne(throws: bool)
      requires shutdown.Closing? && shutdown.left != []
      modifies this
      ensures Now() == Step(old(Now()), if throws then StopAllThrows else StopAllNext)
    {
      if throws {
        shutdown := GaveUp(shutdown.after, shutdown.left);
        return;
      }
      active := active - {shutdown.left[0]};
      shutdown := Closing(shutdown.after, shutdown.left[1..]);
    }
  }
}

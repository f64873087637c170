/** Supervision of the local server (desktop/main.js): starts, readiness, crashes, restarts and stops.
    The code between two awaits is one step; anything else may happen at each await. */
module HostSupervisor {
  import opened Common

  // ---------- The state and its steps ----------

  /** A spawned server process; 'stopping' is its intentionalStop flag. */
  datatype Child = Child(alive: bool, supervised: bool, stopping: bool)

  /** Whose wait for readiness is still open: startHostServer's or the restart timer's. */
  datatype Wait = StartWait | RestartWait

  /** 'checking' counts the calls of startHostServer between their first check and their spawn;
      'granted' and 'respawned' count the delays the restart policy gave and the restarts made. */
  datatype State = State(
    children: seq<Child>, server: Option<nat>, wanted: bool, timer: bool, checking: nat, waits: map<nat, Wait>,
    granted: nat, respawned: nat)

  const INIT := State([], None, false, false, 0, map[], 0, 0)

  datatype Event =
    | StartBegin | StartRefused | StartSpawn
    | Ready(c: nat) | NotReady(c: nat, grant: bool)
    | Exit(c: nat, grant: bool) | SpawnError(c: nat)
    | TimerFires | Stop | Quit

  /** What can come at all. An 'error' event of a child that was not told to stop is a failed spawn, so it
      never comes from one that was found ready; one that was told to stop may fail to be signalled. */
  predicate Enabled(s: State, e: Event) {
    match e
    case StartRefused => s.checking > 0
    case StartSpawn => s.checking > 0
    case Ready(c) => c in s.waits && c < |s.children|
    case NotReady(c, _) => c in s.waits && c < |s.children|
    case Exit(c, _) => c < |s.children| && s.children[c].alive
    case SpawnError(c) =>
      c < |s.children| && s.children[c].alive && (s.children[c].stopping || !s.children[c].supervised)
    case TimerFires => s.timer
    case _ => true
  }

  function Spawned(s: State, w: Wait): State {
    var c := |s.children|;
    s.(children := s.children + [Child(true, false, false)], server := Some(c), waits := s.waits[c := w])
  }

  /** scheduleHostServerRestart; 'grant' is whether the restart policy gives a delay. */
  function Scheduled(s: State, grant: bool): State {
    if s.timer || s.server.Some? || !s.wanted || !grant then s
    else s.(timer := true, granted := s.granted + 1)
  }

  function Forgotten(server: Option<nat>, c: nat): Option<nat> { if server == Some(c) then None else server }

  function Step(s: State, e: Event): State
    requires Enabled(s, e)
  {
    match e
    case StartBegin => if s.server.Some? then s else s.(checking := s.checking + 1)
    case StartRefused => s.(checking := s.checking - 1)
    case StartSpawn => Spawned(s.(checking := s.checking - 1), StartWait)
    case Ready(c) =>
      s.(waits := s.waits - {c}, children := s.children[c := s.children[c].(supervised := true)],
         wanted := s.wanted || s.waits[c].StartWait?)
    case NotReady(c, grant) =>
      var t := s.(waits := s.waits - {c}, children := s.children[c := s.children[c].(stopping := true)],
                  server := Forgotten(s.server, c));
      if s.waits[c].StartWait? then t else Scheduled(t, grant)
    case Exit(c, grant) =>
      var child := s.children[c];
      var t := s.(children := s.children[c := child.(alive := false)], server := Forgotten(s.server, c));
      if child.supervised && s.wanted && !child.stopping then Scheduled(t, grant) else t
    case SpawnError(c) =>
      var child := s.children[c];
      s.(children := s.children[c := child.(alive := child.stopping)], server := Forgotten(s.server, c))
    case TimerFires =>
      var t := s.(timer := false);
      if !s.wanted || s.server.Some? then t else Spawned(t, RestartWait).(respawned := s.respawned + 1)
    case Stop =>
      var t := s.(wanted := false, timer := false, server := None);
      if s.server.Some? && s.server.value < |s.children|
      then t.(children := s.children[s.server.value := s.children[s.server.value].(stopping := true)]) else t
    case Quit => s.(wanted := false)
  }

  // ---------- Runs ----------

  predicate StartInFlight(s: State) {
    s.checking > 0 || exists c :: c in s.waits && s.waits[c].StartWait?
  }

  /** What the chain of mode switches makes sure of: a host start begins only after the one before it
      is over, and only when neither a server nor the wish for one is there (the active mode is not
      "host"). Everything else may come at any time. */
  predicate Routed(s: State, e: Event) {
    Enabled(s, e) && (e.StartBegin? ==> !StartInFlight(s) && s.server.None? && !s.wanted)
  }

  /** A run of steps that can come, routed or not. */
  ghost predicate Possible(s: State, es: seq<Event>)
    decreases |es|
  {
    es == [] || (Enabled(s, es[0]) && Possible(Step(s, es[0]), es[1..]))
  }

  /** A run whose starts are routed. */
  ghost predicate Legal(s: State, es: seq<Event>): (legal: bool)
    ensures legal ==> Possible(s, es)
    decreases |es|
  {
    es == [] || (Routed(s, es[0]) && Legal(Step(s, es[0]), es[1..]))
  }

  function After(s: State, es: seq<Event>): State
    requires Possible(s, es)
    decreases |es|
  {
    if es == [] then s else After(Step(s, es[0]), es[1..])
  }

  /** No event of the run is one of these. */
  ghost predicate Without(es: seq<Event>, excluded: Event -> bool) { forall k :: 0 <= k < |es| ==> !excluded(es[k]) }

  lemma TailWithout(es: seq<Event>, excluded: Event -> bool)
    requires Without(es, excluded) && es != []
    ensures Without(es[1..], excluded) && !excluded(es[0])
  {
    forall k | 0 <= k < |es[1..]| ensures !excluded(es[1..][k]) { assert es[1..][k] == es[k + 1]; }
  }

  // ---------- One server ----------

  predicate Running(s: State, c: nat) {
    c < |s.children| && s.children[c].alive && !s.children[c].stopping
  }

  // ---------- One step, field by field ----------

  /** A restart is scheduled by the exit of a child that had come up and was not told to stop, or by the
      failed wait of a restart, if a server is wanted, no other one is named, none is scheduled and the
      policy gives a delay. */
  ghost predicate Arms(s: State, e: Event)
    requires Enabled(s, e)
  {
    && !s.timer && s.wanted
    && ((e.Exit? && e.grant && s.children[e.c].supervised && !s.children[e.c].stopping)
        || (e.NotReady? && e.grant && s.waits[e.c].RestartWait?))
    && (s.server.None? || s.server == Some(e.c))
  }

  /** A server is spawned by the end of a start's checks, or by the timer when one is wanted and none named. */
  ghost predicate Spawns(s: State, e: Event) {
    e.StartSpawn? || (e.TimerFires? && s.wanted && s.server.None?)
  }

  /** What each event does to the children. */
  lemma ChildrenAfter(s: State, e: Event)
    requires Enabled(s, e)
    ensures var t := Step(s, e);
      && |t.children| == |s.children| + (if Spawns(s, e) then 1 else 0)
      && (Spawns(s, e) ==> Running(t, |s.children|) && !t.children[|s.children|].supervised)
      && forall c :: 0 <= c < |s.children| ==>
           && (t.children[c].alive <==>
                 s.children[c].alive && e != Exit(c, true) && e != Exit(c, false)
                 && !(e == SpawnError(c) && !s.children[c].stopping))
           && (t.children[c].stopping <==>
                 s.children[c].stopping || (e.NotReady? && e.c == c) || (e.Stop? && s.server == Some(c)))
           && (t.children[c].supervised <==> s.children[c].supervised || e == Ready(c))
  {
  }

  /** What each event does to the fields. */
  lemma FieldsAfter(s: State, e: Event)
    requires Enabled(s, e)
    ensures var t := Step(s, e);
      && (t.timer <==> Arms(s, e) || (s.timer && !e.TimerFires? && !e.Stop?))
      && t.granted == s.granted + (if Arms(s, e) then 1 else 0)
      && t.respawned == s.respawned + (if e.TimerFires? && Spawns(s, e) then 1 else 0)
      && (t.wanted <==> !e.Stop? && !e.Quit? && (s.wanted || (e.Ready? && s.waits[e.c].StartWait?)))
      && t.checking == s.checking + (if e.StartBegin? && s.server.None? then 1
                                     else if e.StartRefused? || e.StartSpawn? then -1 else 0)
      && t.server == (if Spawns(s, e) then Some(|s.children|)
                      else if e.Stop? || ((e.NotReady? || e.Exit? || e.SpawnError?) && s.server == Some(e.c)) then None
                      else s.server)
      && t.waits == (if Spawns(s, e) then s.waits[|s.children| := if e.StartSpawn? then StartWait else RestartWait]
                     else if e.Ready? || e.NotReady? then s.waits - {e.c} else s.waits)
  {
  }

  /** A live server that was not told to stop is the one that serverProcess names, and conversely. */
  ghost predicate OneServer(s: State) {
    forall c: nat :: Running(s, c) <==> s.server == Some(c)
  }

  ghost predicate Inv(s: State) { OneServer(s) && Rest(s) }

  lemma OneServerKept(s: State, e: Event)
    requires OneServer(s) && Enabled(s, e) && (e.StartSpawn? ==> s.server.None?)
    ensures OneServer(Step(s, e))
  {
    var t := Step(s, e);
    forall c: nat ensures Running(t, c) <==> t.server == Some(c) {
      assert Running(s, c) <==> s.server == Some(c);
      assert s.server.Some? ==> Running(s, s.server.value);
    }
  }

  lemma InvKept(s: State, e: Event)
    requires Inv(s) && Routed(s, e)
    ensures Inv(Step(s, e))
  {
    hide OneServer;
    assert OneServer(Step(s, e)) by { OneServerKept(s, e); }
    if e.StartSpawn? || e.TimerFires? {
      SpawnKeepsRest(s, e);
    } else {
      OtherKeepsRest(s, e);
    }
  }

  /** The invariant, besides the named server. */
  ghost predicate Rest(s: State) {
    && (forall c :: c in s.waits ==> c < |s.children|)
    && (s.checking > 0 ==> s.checking == 1 && s.server.None? && !s.wanted
                           && forall c :: c in s.waits ==> s.waits[c].RestartWait?)
    && (forall c, d :: c in s.waits && d in s.waits && s.waits[c].StartWait? && s.waits[d].StartWait? ==> c == d)
    && ((exists c :: c in s.waits && s.waits[c].StartWait?) ==> !s.wanted)
    && s.respawned + (if s.timer then 1 else 0) <= s.granted
  }

  lemma SpawnKeepsRest(s: State, e: Event)
    requires Rest(s) && Routed(s, e) && (e.StartSpawn? || e.TimerFires?)
    ensures Rest(Step(s, e))
  {
    var t := Step(s, e);
    assert forall c :: c in t.waits ==>
             (c in s.waits && s.waits[c] == t.waits[c]) || (c == |s.children| && c < |t.children|);
  }

  lemma OtherKeepsRest(s: State, e: Event)
    requires Rest(s) && Routed(s, e) && !e.StartSpawn? && !e.TimerFires?
    ensures Rest(Step(s, e))
  {
    var t := Step(s, e);
    assert forall c :: c in t.waits ==> c in s.waits && s.waits[c] == t.waits[c];
  }

  lemma {:induction false} RunKeepsInv(s: State, es: seq<Event>)
    requires Inv(s) && Legal(s, es)
    ensures Inv(After(s, es))
    decreases |es|
  {
    if es != [] {
      hide Inv;
      InvKept(s, es[0]);
      RunKeepsInv(Step(s, es[0]), es[1..]);
    }
  }

  /** In every run of crashes, readiness results, timers, stops and routed starts there is at most one
      live server that was not told to stop, serverProcess names it, and no restart was made for which
      the restart policy had not given a delay. */
  lemma AtMostOneServer(es: seq<Event>)
    requires Legal(INIT, es)
    ensures var s := After(INIT, es);
            && (forall c: nat, d: nat :: Running(s, c) && Running(s, d) ==> c == d)
            && (forall c: nat :: Running(s, c) <==> s.server == Some(c))
            && s.respawned <= s.granted
  {
    RunKeepsInv(INIT, es);
  }

  predicate AtMostOne(s: State) {
    forall c, d :: 0 <= c < d < |s.children| && Running(s, c) ==> !Running(s, d)
  }

  /** At most one server runs at every moment of the run. */
  ghost predicate AlwaysAtMostOne(s: State, es: seq<Event>)
    requires Possible(s, es)
    decreases |es|
  {
    AtMostOne(s) && (es == [] || AlwaysAtMostOne(Step(s, es[0]), es[1..]))
  }

  /** Every spawn of startHostServer finds serverProcess empty. */
  ghost predicate SpawnsFindNone(s: State, es: seq<Event>)
    requires Possible(s, es)
    decreases |es|
  {
    es == [] || ((es[0].StartSpawn? ==> s.server.None?) && SpawnsFindNone(Step(s, es[0]), es[1..]))
  }

  /** Main result on servers without any routing: in every run of steps that can come, at most one server
      runs at every moment if and only if each spawn after startHostServer's awaits still finds
      serverProcess empty, which it does not look at again. */
  lemma {:induction false} OneServerIffSpawnsFindNone(s: State, es: seq<Event>)
    requires OneServer(s) && Possible(s, es)
    ensures AlwaysAtMostOne(s, es) <==> SpawnsFindNone(s, es)
    decreases |es|
  {
    hide Running;
    if es != [] {
      var t := Step(s, es[0]);
      if es[0].StartSpawn? && s.server.Some? {
        LateSpawnIsSafeIff(s);
        assert !AtMostOne(t);
      } else {
        OneServerKept(s, es[0]);
        OneServerIffSpawnsFindNone(t, es[1..]);
      }
    }
    assert AtMostOne(s);
  }

  /** The spawn after startHostServer's awaits does not look at serverProcess again: from a sound state
      it leaves at most one running server exactly when serverProcess is still empty. */
  lemma LateSpawnIsSafeIff(s: State)
    requires OneServer(s) && s.checking > 0
    ensures var t := Step(s, StartSpawn);
            AtMostOne(t) <==> s.server.None?
  {
    var t := Step(s, StartSpawn);
    assert Running(t, |s.children|);
    if s.server.Some? {
      assert Running(s, s.server.value);
      assert Running(t, s.server.value) && s.server.value != |s.children|;
    } else {
      forall c: nat | Running(t, c) ensures c == |s.children| {
        assert !Running(s, c);
      }
    }
  }

  /** Two starts that are not routed through the chain (a second launch() during the first) both pass
      the check and both spawn. */
  lemma OverlappingStartsRunTwoServers()
    ensures var s1 := Step(INIT, StartBegin);
            Enabled(s1, StartBegin) && !Routed(s1, StartBegin)
            && var s2 := Step(s1, StartBegin);
               Enabled(s2, StartSpawn) && Enabled(Step(s2, StartSpawn), StartSpawn)
               && var s := Step(Step(s2, StartSpawn), StartSpawn);
                  Running(s, 0) && Running(s, 1) && s.server == Some(1)
  {
    var s2 := Step(Step(INIT, StartBegin), StartBegin);
    assert s2.checking == 2 && s2.children == [];
    var s3 := Step(s2, StartSpawn);
    assert s3.children == [Child(true, false, false)];
    var s := Step(s3, StartSpawn);
    assert |s.children| == 2 && s.children[0] == s3.children[0];
  }

  // ---------- A stop is final ----------

  ghost predicate NoStart(es: seq<Event>) { Without(es, (e: Event) => e.StartBegin?) }

  /** Some run without a further call of startHostServer spawns a server. */
  ghost predicate MaySpawn(s: State) {
    exists es :: Possible(s, es) && NoStart(es) && |After(s, es).children| > |s.children|
  }

  predicate Waits(s: State, w: Wait) { exists c :: c in s.waits && s.waits[c] == w }

  /** A running server whose exit can be taken for a crash: it has come up, or may still be found ready. */
  predicate Restartable(s: State, c: nat) { Running(s, c) && (s.children[c].supervised || c in s.waits) }

  /** Only what a state can never be without: the named server and the waited-for ones were spawned. */
  ghost predicate WellFormed(s: State) {
    (forall c :: c in s.waits ==> c < |s.children|) && (s.server.Some? ==> s.server.value < |s.children|)
  }

  ghost predicate Calm(s: State) {
    && WellFormed(s) && s.checking == 0 && s.server.None? && !s.timer
    && ((!s.wanted && !Waits(s, StartWait)) || (!Waits(s, RestartWait) && forall c: nat :: !Restartable(s, c)))
  }

  lemma CalmKept(s: State, e: Event)
    requires Calm(s) && Enabled(s, e) && !e.StartBegin?
    ensures Calm(Step(s, e)) && |Step(s, e).children| == |s.children|
  {
    var t := Step(s, e);
    assert forall c :: c in t.waits ==> c in s.waits && t.waits[c] == s.waits[c];
    forall w | Waits(t, w) ensures Waits(s, w) {
      var c :| c in t.waits && t.waits[c] == w;
      assert c in s.waits;
    }
    if e.Ready? { assert s.waits[e.c] == StartWait ==> Waits(s, StartWait); }
    if e.NotReady? { assert s.waits[e.c] == RestartWait ==> Waits(s, RestartWait); }
    if !s.wanted && !Waits(s, StartWait) {
    } else {
      assert e.Exit? ==> !Restartable(s, e.c);
      forall c: nat ensures !Restartable(t, c) {
        assert !Restartable(s, c);
      }
    }
  }

  lemma {:induction false} CalmStays(s: State, es: seq<Event>)
    requires Calm(s) && Possible(s, es) && NoStart(es)
    ensures Calm(After(s, es)) && |After(s, es).children| == |s.children|
    decreases |es|
  {
    if es != [] {
      TailWithout(es, (e: Event) => e.StartBegin?);
      CalmKept(s, es[0]);
      hide Calm;
      CalmStays(Step(s, es[0]), es[1..]);
    }
  }

  /** The start that can make a stop void: its late readiness sets hostServerWanted again, and then the
      failure of a restart's wait, or the exit of a running server other than the stopped one, arms the timer. */
  predicate StaleStart(s: State) {
    Waits(s, StartWait)
    && (Waits(s, RestartWait) || exists c :: 0 <= c < |s.children| && Restartable(s, c) && s.server != Some(c))
  }

  /** Main result on stops: in every well-formed state, however it was reached, nothing is spawned after a
      stop until the next start begins if and only if no start is on its way to its spawn and no start is
      waiting together with a restart or with another running server that could be restarted. */
  lemma StopIsFinalIff(s: State)
    requires WellFormed(s)
    ensures !MaySpawn(Step(s, Stop)) <==> s.checking == 0 && !StaleStart(s)
  {
    hide Calm, MaySpawn;
    var t := Step(s, Stop);
    if s.checking > 0 {
      OneEvent(t, StartSpawn);
    } else if StaleStart(s) {
      var a :| a in s.waits && s.waits[a] == StartWait;
      if Waits(s, RestartWait) {
        var b :| b in s.waits && s.waits[b] == RestartWait;
        StaleReadinessSpawns(t, a, b);
      } else {
        var c :| 0 <= c < |s.children| && Restartable(s, c) && s.server != Some(c);
        assert Restartable(t, c);
        StaleCrashSpawns(t, a, c);
      }
    } else {
      StoppedIsCalm(s);
      CalmNeverSpawns(t);
    }
  }

  lemma StoppedIsCalm(s: State)
    requires WellFormed(s) && s.checking == 0 && !StaleStart(s)
    ensures Calm(Step(s, Stop))
  {
    var t := Step(s, Stop);
    assert t.waits == s.waits;
    forall w | Waits(t, w) ensures Waits(s, w) {
      var c :| c in t.waits && t.waits[c] == w;
      assert c in s.waits;
    }
    if Waits(t, StartWait) {
      forall c: nat ensures !Restartable(t, c) {
        if Restartable(t, c) { assert Restartable(s, c) && s.server != Some(c); }
      }
    }
  }

  lemma CalmNeverSpawns(t: State)
    requires Calm(t)
    ensures !MaySpawn(t)
  {
    hide Calm;
    forall es | Possible(t, es) && NoStart(es) ensures |After(t, es).children| == |t.children| {
      CalmStays(t, es);
    }
  }

  /** In states that routed starts reach, a second running server is not there. */
  lemma RoutedStopIsFinalIff(s: State)
    requires Inv(s)
    ensures !MaySpawn(Step(s, Stop)) <==> s.checking == 0 && !(Waits(s, StartWait) && Waits(s, RestartWait))
  {
    assert s.server.Some? ==> Running(s, s.server.value);
    StopIsFinalIff(s);
    forall c | 0 <= c < |s.children| && Restartable(s, c) ensures s.server == Some(c) {
      assert Running(s, c) <==> s.server == Some(c);
    }
  }

  lemma OneEvent(t: State, e: Event)
    requires Enabled(t, e) && !e.StartBegin? && |Step(t, e).children| > |t.children|
    ensures MaySpawn(t)
  {
    var es := [e];
    var rest := es[1..];
    assert rest == [] && Possible(Step(t, e), rest) && After(Step(t, e), rest) == Step(t, e);
    assert Possible(t, es) && NoStart(es) && After(t, es) == Step(t, e);
  }

  lemma OneMore(t: State, e: Event)
    requires Enabled(t, e) && !e.StartBegin? && |Step(t, e).children| == |t.children| && MaySpawn(Step(t, e))
    ensures MaySpawn(t)
  {
    var es :| Possible(Step(t, e), es) && NoStart(es) && |After(Step(t, e), es).children| > |t.children|;
    var more := [e] + es;
    assert more[1..] == es && Possible(t, more) && After(t, more) == After(Step(t, e), es);
    assert NoStart(more) by {
      forall k | 0 <= k < |more| ensures !more[k].StartBegin? { assert k > 0 ==> more[k] == es[k - 1]; }
    }
  }

  lemma TimerSpawns(t: State)
    requires t.timer && t.wanted && t.server.None?
    ensures MaySpawn(t)
  {
    OneEvent(t, TimerFires);
  }

  /** The stopped start's late "ready" sets hostServerWanted again, and the stopped restart's late
      failure then arms the timer. */
  lemma StaleReadinessSpawns(t: State, a: nat, b: nat)
    requires a in t.waits && t.waits[a] == StartWait && b in t.waits && t.waits[b] == RestartWait
    requires a < |t.children| && b < |t.children| && t.server.None? && !t.timer
    ensures MaySpawn(t)
  {
    hide MaySpawn;
    var t1 := Step(t, Ready(a));
    TimerSpawns(Step(t1, NotReady(b, true)));
    OneMore(t1, NotReady(b, true));
    OneMore(t, Ready(a));
  }

  /** Or the exit of a second server, which the stop did not reach, arms it. */
  lemma StaleCrashSpawns(t: State, a: nat, c: nat)
    requires a in t.waits && t.waits[a] == StartWait && a < |t.children| && Restartable(t, c)
    requires t.server.None? && !t.timer
    ensures MaySpawn(t)
  {
    hide MaySpawn;
    var t1 := Step(t, Ready(a));
    assert Restartable(t1, c) && t1.wanted && t1.server.None? && !t1.timer;
    if t1.children[c].supervised {
      TimerSpawns(Step(t1, Exit(c, true)));
      OneMore(t1, Exit(c, true));
    } else {
      var t2 := Step(t1, Ready(c));
      TimerSpawns(Step(t2, Exit(c, true)));
      OneMore(t2, Exit(c, true));
      OneMore(t1, Ready(c));
    }
    OneMore(t, Ready(a));
  }

  lemma Snoc(s: State, es: seq<Event>, e: Event)
    requires Legal(s, es) && Routed(After(s, es), e)
    ensures Legal(s, es + [e]) && After(s, es + [e]) == Step(After(s, es), e)
    decreases |es|
  {
    if es == [] {
      var one := [] + [e];
      var rest := one[1..];
      assert rest == [] && Legal(Step(s, e), rest) && one[0] == e;
    } else {
      Snoc(Step(s, es[0]), es[1..], e);
      assert (es + [e])[1..] == es[1..] + [e];
    }
  }

  /** One more event of a run that ends in a known state. */
  lemma Then(es: seq<Event>, s: State, e: Event, t: State) returns (more: seq<Event>)
    requires Legal(INIT, es) && After(INIT, es) == s && Routed(s, e) && Step(s, e) == t
    ensures more == es + [e] && Legal(INIT, more) && After(INIT, more) == t
  {
    Snoc(INIT, es, e);
    more := es + [e];
  }

  lemma RestartWaiting() returns (es: seq<Event>)
    ensures Legal(INIT, es)
            && After(INIT, es) == State([Child(false, true, false), Child(true, false, false)], Some(1), true, false, 0,
                                        map[1 := RestartWait], 1, 1)
  {
    hide Legal, After;
    Empty(INIT);
    var s1 := State([], None, false, false, 1, map[], 0, 0);
    var s2 := State([Child(true, false, false)], Some(0), false, false, 0, map[0 := StartWait], 0, 0);
    var s3 := State([Child(true, true, false)], Some(0), true, false, 0, map[], 0, 0);
    var s4 := State([Child(false, true, false)], None, true, true, 0, map[], 1, 0);
    es := Then([], INIT, StartBegin, s1);
    es := Then(es, s1, StartSpawn, s2);
    es := Then(es, s2, Ready(0), s3);
    es := Then(es, s3, Exit(0, true), s4);
    es := Then(es, s4, TimerFires, Step(s4, TimerFires));
  }

  /** The second condition is needed. A start made by launch() is no part of the chain, so a mode switch
      does not wait for it: when it and a restart wait at once, a stop is followed by a spawn. */
  lemma StopDuringLaunchIsNotFinal()
    ensures exists es :: Legal(INIT, es) && StartInFlight(After(INIT, es)) && After(INIT, es).checking == 0
                         && MaySpawn(Step(After(INIT, es), Stop))
  {
    hide Legal, After, MaySpawn;
    var es := RestartWaiting();
    var s5 := After(INIT, es);
    var s6 := Step(s5, Stop);
    var s7 := s6.(checking := 1);
    es := Then(es, s5, Stop, s6);
    es := Then(es, s6, StartBegin, s7);
    es := Then(es, s7, StartSpawn, Step(s7, StartSpawn));
    var s := Step(s7, StartSpawn);
    RunKeepsInv(INIT, es);
    assert s.waits[1] == RestartWait && s.waits[2] == StartWait && StartInFlight(s);
    RoutedStopIsFinalIff(s);
  }

  /** So is the third: after two overlapping starts, one of them found ready, no start is on its way and no
      restart waits, and still a stop is followed by a spawn. */
  lemma StopAfterOverlapIsNotFinal()
    ensures exists es :: Possible(INIT, es) && After(INIT, es).checking == 0 && !Waits(After(INIT, es), RestartWait)
                         && MaySpawn(Step(After(INIT, es), Stop))
  {
    hide Possible, After, MaySpawn;
    var s1 := Step(Step(INIT, StartBegin), StartBegin);
    var s2 := Step(Step(s1, StartSpawn), StartSpawn);
    assert s2 == State([Child(true, false, false), Child(true, false, false)], Some(1), false, false, 0,
                       map[0 := StartWait, 1 := StartWait], 0, 0);
    var s := Step(s2, Ready(0));
    assert s.waits == map[1 := StartWait] && s.waits[1] == StartWait && Restartable(s, 0);
    var es: seq<Event> := [];
    Empty(INIT);
    es := Next(es, StartBegin);
    es := Next(es, StartBegin);
    es := Next(es, StartSpawn);
    es := Next(es, StartSpawn);
    es := Next(es, Ready(0));
    StopIsFinalIff(s);
  }

  lemma Next(es: seq<Event>, e: Event) returns (more: seq<Event>)
    requires Possible(INIT, es) && Enabled(After(INIT, es), e)
    ensures more == es + [e] && Possible(INIT, more) && After(INIT, more) == Step(After(INIT, es), e)
  {
    more := es + [e];
    PossibleSnoc(INIT, es, e);
  }

  lemma {:induction false} PossibleSnoc(s: State, es: seq<Event>, e: Event)
    requires Possible(s, es) && Enabled(After(s, es), e)
    ensures Possible(s, es + [e]) && After(s, es + [e]) == Step(After(s, es), e)
    decreases |es|
  {
    if es == [] {
      var one := [] + [e];
      var rest := one[1..];
      assert rest == [] && Possible(Step(s, e), rest) && one[0] == e;
    } else {
      PossibleSnoc(Step(s, es[0]), es[1..], e);
      assert (es + [e])[1..] == es[1..] + [e];
    }
  }

  lemma Empty(s: State)
    ensures Legal(s, []) && Possible(s, []) && After(s, []) == s
  {
  }

  /** Every stop comes while no start is in flight: the chain of mode switches stops the host only
      between its starts, and stopAll waits for the chain first. */
  ghost predicate StopsRouted(s: State, es: seq<Event>)
    requires Legal(s, es)
    decreases |es|
  {
    es == [] || ((es[0].Stop? ==> !StartInFlight(s)) && StopsRouted(Step(s, es[0]), es[1..]))
  }

  lemma {:induction false} Split(s: State, a: seq<Event>, b: seq<Event>)
    requires Legal(s, a + b)
    ensures Legal(s, a) && Legal(After(s, a), b) && After(s, a + b) == After(After(s, a), b)
    ensures StopsRouted(s, a + b) ==> StopsRouted(After(s, a), b)
    decreases |a|
  {
    if a == [] {
      assert a + b == b;
    } else {
      assert (a + b)[1..] == a[1..] + b && (a + b)[0] == a[0];
      Split(Step(s, a[0]), a[1..], b);
    }
  }

  /** Main result on stops: when starts and stops both go through the chain, every stop of every run is
      final: until the next start begins, nothing is spawned and nothing is left running. */
  lemma EveryRoutedStopIsFinal(es: seq<Event>, later: seq<Event>)
    requires Legal(INIT, es + ([Stop] + later)) && StopsRouted(INIT, es + ([Stop] + later)) && NoStart(later)
    ensures var t := After(INIT, es + ([Stop] + later));
            Legal(INIT, es) && |t.children| == |After(INIT, es).children| && forall c: nat :: !Running(t, c)
  {
    hide Inv, Running;
    Split(INIT, es, [Stop] + later);
    var s := After(INIT, es);
    assert ([Stop] + later)[0] == Stop && ([Stop] + later)[1..] == later;
    assert !StartInFlight(s);
    RoutedStopIsFinal(es, later);
  }

  /** With every start over before a stop, as the chain of mode switches arranges it, a stop is final. */
  lemma RoutedStopIsFinal(es: seq<Event>, later: seq<Event>)
    requires Legal(INIT, es) && !StartInFlight(After(INIT, es))
    requires Legal(Step(After(INIT, es), Stop), later) && NoStart(later)
    ensures var t := Step(After(INIT, es), Stop); |After(t, later).children| == |t.children|
    ensures forall c: nat :: !Running(After(Step(After(INIT, es), Stop), later), c)
  {
    var s := After(INIT, es);
    RunKeepsInv(INIT, es);
    var t := Step(s, Stop);
    InvKept(s, Stop);
    forall c: nat ensures !Running(t, c) {
      assert Running(t, c) <==> t.server == Some(c);
    }
    StillStays(t, later);
  }

  /** With no start in flight and nothing running, nothing runs until the next start begins. */
  ghost predicate Still(s: State) {
    !s.wanted && !StartInFlight(s) && s.server.None? && !s.timer && forall c: nat :: !Running(s, c)
  }

  lemma {:induction false} StillStays(s: State, es: seq<Event>)
    requires Still(s) && Possible(s, es) && NoStart(es)
    ensures Still(After(s, es)) && |After(s, es).children| == |s.children|
    decreases |es|
  {
    if es != [] {
      TailWithout(es, (e: Event) => e.StartBegin?);
      StillKept(s, es[0]);
      hide Still;
      StillStays(Step(s, es[0]), es[1..]);
    }
  }

  lemma StillKept(s: State, e: Event)
    requires Still(s) && Enabled(s, e) && !e.StartBegin?
    ensures Still(Step(s, e)) && |Step(s, e).children| == |s.children|
  {
    var t := Step(s, e);
    assert forall c :: c in t.waits ==> c in s.waits && t.waits[c] == s.waits[c];
    forall c: nat ensures !Running(t, c) {
      assert !Running(s, c);
    }
  }

  // ---------- When a wanted server comes back, and when it is lost ----------

  /** Neither the end of the wish for a server, nor another spawn, nor the timer itself. */
  ghost predicate LeavesTimer(es: seq<Event>) {
    Without(es, (e: Event) => e.Stop? || e.Quit? || e.StartSpawn? || e.TimerFires?)
  }

  lemma {:induction false} TimerWaits(s: State, es: seq<Event>)
    requires s.timer && s.wanted && s.server.None? && Possible(s, es) && LeavesTimer(es)
    ensures var t := After(s, es); t.timer && t.wanted && t.server.None?
    decreases |es|
  {
    if es != [] {
      TailWithout(es, (e: Event) => e.Stop? || e.Quit? || e.StartSpawn? || e.TimerFires?);
      TimerWaits(Step(s, es[0]), es[1..]);
    }
  }

  /** Main result on crashes: when a server that had come up ends unasked and the policy gives a delay,
      then whatever else happens, short of a stop, the end of the app or another spawn, the timer brings a
      new server, running and named by serverProcess. */
  lemma CrashIsRestarted(s: State, c: nat, between: seq<Event>)
    requires Enabled(s, Exit(c, true)) && s.server == Some(c) && s.wanted
    requires s.children[c].supervised && !s.children[c].stopping
    requires Possible(Step(s, Exit(c, true)), between) && LeavesTimer(between)
    ensures var t := After(Step(s, Exit(c, true)), between);
            Enabled(t, TimerFires) && Step(t, TimerFires).server == Some(|t.children|)
            && Running(Step(t, TimerFires), |t.children|)
  {
    hide LeavesTimer;
    TimerWaits(Step(s, Exit(c, true)), between);
  }

  /** What every run keeps, routed or not: the named server is running, and each running server is still
      waited for or has come up. */
  ghost predicate Accounted(s: State) {
    && (forall c :: c in s.waits ==> c < |s.children|)
    && (s.server.Some? ==> Running(s, s.server.value))
    && (forall c: nat :: Running(s, c) ==> s.children[c].supervised || c in s.waits)
  }

  lemma AccountedKept(s: State, e: Event)
    requires Accounted(s) && Enabled(s, e)
    ensures Accounted(Step(s, e))
  {
    var t := Step(s, e);
    forall c: nat | Running(t, c) ensures t.children[c].supervised || c in t.waits {
      assert c < |s.children| ==> Running(s, c);
    }
  }

  predicate SomeRuns(s: State) { exists c :: 0 <= c < |s.children| && Running(s, c) }

  /** A server is running, or something will bring one: an armed timer, a restart's open wait, or a start on
      its way to its spawn. */
  predicate Hope(s: State) { SomeRuns(s) || s.timer || s.checking > 0 || Waits(s, RestartWait) }

  /** A server is wanted, and nothing will bring one. */
  predicate Lost(s: State) { s.wanted && !Hope(s) }

  predicate OnlyRestart(s: State, c: nat) { forall d :: d in s.waits && d != c ==> s.waits[d].StartWait? }

  predicate OnlyRunning(s: State, c: nat) { forall d :: 0 <= d < |s.children| && d != c ==> !Running(s, d) }

  /** The steps that lose it, when nothing else is left: a start gives up; a readiness comes for a server that
      is gone; a wait fails without a restart that is granted; a running server ends without one, or was
      never spawned. */
  predicate Drops(s: State, e: Event) {
    Enabled(s, e) && !s.timer &&
    match e
    case StartRefused => s.wanted && s.checking == 1 && !SomeRuns(s) && !Waits(s, RestartWait)
    case Ready(c) => (s.wanted || s.waits[c].StartWait?) && s.checking == 0 && !SomeRuns(s) && OnlyRestart(s, c)
                     && (s.wanted ==> s.waits[c].RestartWait?)
    case NotReady(c, grant) =>
      s.wanted && s.checking == 0 && OnlyRunning(s, c) && OnlyRestart(s, c)
      && (if s.waits[c].StartWait? then Running(s, c) else !grant)
    case Exit(c, grant) =>
      s.wanted && s.checking == 0 && Running(s, c) && OnlyRunning(s, c) && !Waits(s, RestartWait)
      && !(s.children[c].supervised && grant)
    case SpawnError(c) =>
      s.wanted && s.checking == 0 && Running(s, c) && OnlyRunning(s, c) && !Waits(s, RestartWait)
    case _ => false
  }

  lemma WaitsWithout(s: State, t: State, c: nat)
    requires c in s.waits && t.waits == s.waits - {c}
    ensures Waits(t, RestartWait) <==> !OnlyRestart(s, c)
  {
    if !OnlyRestart(s, c) {
      var d :| d in s.waits && d != c && !s.waits[d].StartWait?;
      assert d in t.waits && t.waits[d] == RestartWait;
    }
  }

  lemma RunsWithout(s: State, t: State, c: nat)
    requires c < |s.children| == |t.children| && !Running(t, c)
    requires forall d :: 0 <= d < |s.children| && d != c ==> t.children[d] == s.children[d]
    ensures SomeRuns(t) <==> !OnlyRunning(s, c)
  {
    if !OnlyRunning(s, c) {
      var d :| 0 <= d < |s.children| && d != c && Running(s, d);
      assert Running(t, d);
    }
    if SomeRuns(t) {
      var d :| 0 <= d < |t.children| && Running(t, d);
      assert Running(s, d);
    }
  }

  lemma SameRuns(s: State, t: State)
    requires |s.children| == |t.children|
    requires forall d :: 0 <= d < |s.children| ==> (Running(t, d) <==> Running(s, d))
    ensures SomeRuns(t) <==> SomeRuns(s)
  {
  }

  lemma ReadyLosesIff(s: State, c: nat)
    requires Accounted(s) && Enabled(s, Ready(c)) && !Lost(s)
    ensures Lost(Step(s, Ready(c))) <==> Drops(s, Ready(c))
  {
    hide OnlyRestart, SomeRuns, Waits, Accounted;
    var t := Step(s, Ready(c));
    WaitsWithout(s, t, c);
    SameRuns(s, t);
    if s.waits[c].RestartWait? {
      RestartIsWaited(s, c);
    } else if OnlyRestart(s, c) {
      NoRestartWaits(s, c);
    }
  }

  lemma NotReadyLosesIff(s: State, c: nat, grant: bool)
    requires Accounted(s) && Enabled(s, NotReady(c, grant)) && !Lost(s)
    ensures Lost(Step(s, NotReady(c, grant))) <==> Drops(s, NotReady(c, grant))
  {
    hide OnlyRestart, SomeRuns, Waits, Accounted, OnlyRunning;
    var t := Step(s, NotReady(c, grant));
    WaitsWithout(s, t, c);
    assert t.children == s.children[c := s.children[c].(stopping := true)];
    RunsWithout(s, t, c);
    if s.waits[c].RestartWait? { RestartIsWaited(s, c); }
    if OnlyRunning(s, c) {
      NamedRuns(s, c);
      if !Running(s, c) { NoneRuns(s, c); } else { SomeRun(s, c); }
    }
    if OnlyRestart(s, c) && s.waits[c].StartWait? { NoRestartWaits(s, c); }
  }

  lemma EndLosesIff(s: State, e: Event)
    requires Accounted(s) && Enabled(s, e) && !Lost(s) && (e.Exit? || e.SpawnError?)
    ensures Lost(Step(s, e)) <==> Drops(s, e)
  {
    hide SomeRuns, Waits, Accounted, OnlyRunning;
    var t := Step(s, e);
    SameWaits(s, t);
    if Running(s, e.c) {
      RunsWithout(s, t, e.c);
      SomeRun(s, e.c);
      if OnlyRunning(s, e.c) { NamedRuns(s, e.c); }
    } else {
      SameRuns(s, t);
    }
  }

  lemma SpawnNeverLoses(s: State, e: Event)
    requires Accounted(s) && Enabled(s, e) && !Lost(s) && (e.StartSpawn? || e.TimerFires?)
    ensures !Lost(Step(s, e))
  {
    hide SomeRuns, Waits;
    var t := Step(s, e);
    if e.StartSpawn? || (s.wanted && s.server.None?) {
      SomeRun(t, |s.children|);
    } else if s.wanted {
      assert Running(t, s.server.value);
      SomeRun(t, s.server.value);
    }
  }

  /** The single steps that lose a wanted server, and no others. */
  lemma LostIff(s: State, e: Event)
    requires Accounted(s) && Enabled(s, e) && !Lost(s)
    ensures Lost(Step(s, e)) <==> Drops(s, e)
  {
    match e {
      case Ready(c) => ReadyLosesIff(s, c);
      case NotReady(c, grant) => NotReadyLosesIff(s, c, grant);
      case Exit(_, _) => EndLosesIff(s, e);
      case SpawnError(_) => EndLosesIff(s, e);
      case StartSpawn => SpawnNeverLoses(s, e);
      case TimerFires => SpawnNeverLoses(s, e);
      case StartBegin => BeginNeverLoses(s);
      case StartRefused => RefusalLosesIff(s);
      case _ =>
    }
  }

  lemma BeginNeverLoses(s: State)
    requires Accounted(s) && !Lost(s)
    ensures !Lost(Step(s, StartBegin))
  {
    if s.server.None? { SameRuns(s, Step(s, StartBegin)); }
  }

  lemma RefusalLosesIff(s: State)
    requires Enabled(s, StartRefused) && !Lost(s)
    ensures Lost(Step(s, StartRefused)) <==> Drops(s, StartRefused)
  {
    hide SomeRuns, Waits;
    var t := Step(s, StartRefused);
    SameRuns(s, t);
    SameWaits(s, t);
  }

  lemma SameWaits(s: State, t: State)
    requires t.waits == s.waits
    ensures Waits(t, RestartWait) <==> Waits(s, RestartWait)
  {
  }

  lemma NoneRuns(s: State, c: nat)
    requires OnlyRunning(s, c) && !Running(s, c)
    ensures !SomeRuns(s)
  {
  }

  lemma NoRestartWaits(s: State, c: nat)
    requires OnlyRestart(s, c) && c in s.waits && s.waits[c].StartWait?
    ensures !Waits(s, RestartWait)
  {
  }

  lemma SomeRun(s: State, c: nat)
    requires Running(s, c)
    ensures SomeRuns(s)
  {
  }

  lemma RestartIsWaited(s: State, c: nat)
    requires c in s.waits && s.waits[c].RestartWait?
    ensures Waits(s, RestartWait)
  {
  }

  /** If no other server runs, serverProcess names this one or none. */
  lemma NamedRuns(s: State, c: nat)
    requires Accounted(s) && OnlyRunning(s, c)
    ensures s.server.None? || s.server == Some(c)
  {
  }

  /** Once lost it stays lost, whatever comes, until a stop, the end of the app or a new start; nothing is
      spawned. And since the active mode still reads "host", no start comes through the chain. */
  lemma LostStays(s: State, e: Event)
    requires Accounted(s) && Lost(s)
    ensures !Routed(s, StartBegin)
    ensures Enabled(s, e) ==> |Step(s, e).children| == |s.children|
    ensures Enabled(s, e) ==> (Lost(Step(s, e)) <==> !e.Stop? && !e.Quit? && !e.StartBegin?)
  {
    if Enabled(s, e) {
      assert forall c :: c in s.waits ==> s.waits[c].StartWait? by {
        forall c | c in s.waits ensures s.waits[c].StartWait? {
          if s.waits[c].RestartWait? { RestartIsWaited(s, c); }
        }
      }
      var t := Step(s, e);
      assert forall c :: c in t.waits ==> c in s.waits && t.waits[c] == s.waits[c];
      forall c | 0 <= c < |t.children| ensures !Running(t, c) {
        assert !Running(s, c);
      }
      assert !SomeRuns(t) && !Waits(t, RestartWait);
      if e.Exit? { assert !Running(s, e.c); }
      if e.NotReady? { assert s.waits[e.c].StartWait?; }
    }
  }

  /** In states that routed starts reach, being lost shows in the fields alone. */
  lemma RoutedLost(s: State)
    requires Inv(s)
    ensures Lost(s) <==> s.wanted && s.server.None? && !s.timer && !Waits(s, RestartWait)
  {
    if s.server.Some? { assert Running(s, s.server.value); }
  }

  /** The server was lost at some step of the run and neither a stop nor a start came since. */
  ghost predicate DroppedIn(es: seq<Event>)
    requires Possible(INIT, es)
  {
    exists k :: 0 <= k < |es| && Possible(INIT, es[..k]) && Drops(After(INIT, es[..k]), es[k])
                && forall m :: k < m < |es| ==> !Ends(es[m])
  }

  predicate Ends(e: Event) { e.Stop? || e.Quit? || e.StartBegin? }

  lemma {:induction false} SplitPossible(s: State, a: seq<Event>, b: seq<Event>)
    requires Possible(s, a + b)
    ensures Possible(s, a) && Possible(After(s, a), b) && After(s, a + b) == After(After(s, a), b)
    decreases |a|
  {
    if a == [] {
      assert a + b == b;
    } else {
      assert (a + b)[1..] == a[1..] + b && (a + b)[0] == a[0];
      SplitPossible(Step(s, a[0]), a[1..], b);
    }
  }

  /** Main result on restarts: in every run, routed or not, a wanted server is running, coming back or being
      waited for, except exactly when one of the losing steps happened and neither a stop nor a new start
      came since. */
  lemma {:induction false} LostExactlyWhenDropped(es: seq<Event>)
    requires Possible(INIT, es)
    ensures Accounted(After(INIT, es)) && (Lost(After(INIT, es)) <==> DroppedIn(es))
    decreases |es|
  {
    if es != [] {
      hide Accounted, Lost, Drops, Enabled;
      var n := |es| - 1;
      var before, e := es[..n], es[n];
      assert es == before + [e];
      SplitPossible(INIT, before, [e]);
      var s := After(INIT, before);
      OneStepPossible(s, e);
      LostExactlyWhenDropped(before);
      AccountedKept(s, e);
      DroppedGrows(before, e);
      if Lost(s) {
        LostStays(s, e);
        if Ends(e) { LostDoesNotDrop(s, e); }
      } else {
        LostIff(s, e);
      }
    } else {
      hide Drops;
      assert !Lost(INIT);
    }
  }

  lemma OneStepPossible(s: State, e: Event)
    requires Possible(s, [e])
    ensures Enabled(s, e) && After(s, [e]) == Step(s, e)
  {
    assert [e][1..] == [];
  }

  lemma LostDoesNotDrop(s: State, e: Event)
    requires Ends(e)
    ensures !Drops(s, e)
  {
  }

  lemma DroppedGrows(before: seq<Event>, e: Event)
    requires Possible(INIT, before) && Possible(INIT, before + [e])
    ensures DroppedIn(before + [e]) <==> Drops(After(INIT, before), e) || (DroppedIn(before) && !Ends(e))
  {
    hide Possible, After, Drops, Ends;
    var es, n := before + [e], |before|;
    assert es[..n] == before && es[n] == e;
    if DroppedIn(es) {
      var k :| 0 <= k < |es| && Possible(INIT, es[..k]) && Drops(After(INIT, es[..k]), es[k])
        && forall m :: k < m < |es| ==> !Ends(es[m]);
      if k < n {
        assert es[..k] == before[..k] && es[k] == before[k];
        assert forall m :: k < m < n ==> before[m] == es[m];
      }
    }
    if DroppedIn(before) && !Ends(e) {
      var k :| 0 <= k < n && Possible(INIT, before[..k]) && Drops(After(INIT, before[..k]), before[k])
        && forall m :: k < m < n ==> !Ends(before[m]);
      assert es[..k] == before[..k] && es[k] == before[k];
      assert forall m :: k < m < |es| ==> es[m] == if m < n then before[m] else e;
    }
  }

  /** Such a run: the first server ends while it is being waited for, and the readiness of its port, answered
      before it ended, is noticed only then. */
  lemma ReadyAfterExitIsLost()
    ensures exists es :: Legal(INIT, es) && Lost(After(INIT, es))
  {
    hide Legal, After;
    Empty(INIT);
    var s1 := State([], None, false, false, 1, map[], 0, 0);
    var s2 := State([Child(true, false, false)], Some(0), false, false, 0, map[0 := StartWait], 0, 0);
    var s3 := State([Child(false, false, false)], None, false, false, 0, map[0 := StartWait], 0, 0);
    var s4 := State([Child(false, true, false)], None, true, false, 0, map[], 0, 0);
    var es := Then([], INIT, StartBegin, s1);
    es := Then(es, s1, StartSpawn, s2);
    es := Then(es, s2, Exit(0, true), s3);
    es := Then(es, s3, Ready(0), s4);
  }

  // ---------- The same, in place ----------

  class Supervisor {
    var children: seq<Child>
    var serverProcess: Option<nat>
    var hostServerWanted: bool
    var restartTimer: bool
    var checking: nat
    var waits: map<nat, Wait>
    ghost var granted: nat
    ghost var respawned: nat

    ghost function Now(): State
      reads this
    {
      State(children, serverProcess, hostServerWanted, restartTimer, checking, waits, granted, respawned)
    }

    constructor ()
      ensures Now() == INIT
    {
      children, serverProcess, hostServerWanted, restartTimer, checking, waits := [], None, false, false, 0, map[];
      granted, respawned := 0, 0;
    }

    method SpawnHostServer(w: Wait) returns (c: nat)
      modifies this
      ensures Now() == Spawned(old(Now()), w) && c == |old(children)|
    {
      c := |children|;
      children := children + [Child(true, false, false)];
      serverProcess := Some(c);
      waits := waits[c := w];
    }

    method ScheduleRestart(grant: bool)
      modifies this
      ensures Now() == Scheduled(old(Now()), grant)
    {
      if restartTimer || serverProcess.Some? || !hostServerWanted { return; }
      if !grant { return; }
      restartTimer := true;
      granted := granted + 1;
    }

    method BeginStart() returns (alreadyRunning: bool)
      modifies this
      ensures Now() == Step(old(Now()), StartBegin) && alreadyRunning == old(serverProcess.Some?)
    {
      if serverProcess.Some? { return true; }
      checking := checking + 1;
      return false;
    }

    /** The rest of startHostServer up to its wait for readiness. */
    method FinishStart(prerequisitesMet: bool)
      requires checking > 0
      modifies this
      ensures Now() == Step(old(Now()), if prerequisitesMet then StartSpawn else StartRefused)
    {
      checking := checking - 1;
      if prerequisitesMet {
        var c := SpawnHostServer(StartWait);
      }
    }

    method OnReadiness(c: nat, ready: bool, grant: bool)
      requires c in waits && c < |children|
      modifies this
      ensures Now() == Step(old(Now()), if ready then Ready(c) else NotReady(c, grant))
    {
      var w := waits[c];
      waits := waits - {c};
      if ready {
        children := children[c := children[c].(supervised := true)];
        if w == StartWait { hostServerWanted := true; }
      } else {
        children := children[c := children[c].(stopping := true)];
        if serverProcess == Some(c) { serverProcess := None; }
        if w == RestartWait { ScheduleRestart(grant); }
      }
    }

    method OnExit(c: nat, grant: bool)
      requires c < |children| && children[c].alive
      modifies this
      ensures Now() == Step(old(Now()), Exit(c, grant))
    {
      children := children[c := children[c].(alive := false)];
      if serverProcess == Some(c) { serverProcess := None; }
      if children[c].supervised && hostServerWanted && !children[c].stopping {
        ScheduleRestart(grant);
      }
    }

    method OnError(c: nat)
      requires c < |children| && children[c].alive && (children[c].stopping || !children[c].supervised)
      modifies this
      ensures Now() == Step(old(Now()), SpawnError(c))
    {
      children := children[c := children[c].(alive := children[c].stopping)];
      if serverProcess == Some(c) { serverProcess := None; }
    }

    method OnTimer()
      requires restartTimer
      modifies this
      ensures Now() == Step(old(Now()), TimerFires)
    {
      restartTimer := false;
      if !hostServerWanted || serverProcess.Some? { return; }
      var c := SpawnHostServer(RestartWait);
      respawned := respawned + 1;
    }

    /** The first thing quitting does; the stops follow. */
    method BeforeQuit()
      modifies this
      ensures Now() == Step(old(Now()), Quit)
    {
      hostServerWanted := false;
    }

    method StopHostServer()
      requires serverProcess.Some? ==> serverProcess.value < |children|
      modifies this
      ensures Now() == Step(old(Now()), Stop)
    {
      hostServerWanted, restartTimer := false, false;
      if serverProcess.Some? {
        var c := serverProcess.value;
        serverProcess := None;
        children := children[c := children[c].(stopping := true)];
      }
    }
  }
}

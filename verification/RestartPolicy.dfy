/** The sliding-window restart limit (desktop/serverSupervisor.js). */
module RestartPolicy {
  import opened Common

  datatype Limits = Limits(maxRestarts: nat, windowMs: nat, baseDelayMs: nat, maxDelayMs: nat)

  function Min(a: nat, b: nat): nat { if a < b then a else b }

  // ---------- One call ----------

  /** prune: drop from the front what is older than the cutoff. */
  function Pruned(restarts: seq<int>, cutoff: int): seq<int> {
    if restarts == [] || restarts[0] >= cutoff then restarts else Pruned(restarts[1..], cutoff)
  }

  /** next() reads the clock twice: at 'look' to prune and at 'push' to note the restart. */
  datatype Call = Next(look: int, push: int) | Recent(look: int) | Reset

  /** The list after a call. */
  function Called(l: Limits, restarts: seq<int>, c: Call): seq<int> {
    match c
    case Next(look, push) =>
      var kept := Pruned(restarts, look - l.windowMs);
      if |kept| >= l.maxRestarts then kept else kept + [push]
    case Recent(look) => Pruned(restarts, look - l.windowMs)
    case Reset => []
  }

  predicate Accepted(l: Limits, restarts: seq<int>, c: Call) {
    c.Next? && |Pruned(restarts, c.look - l.windowMs)| < l.maxRestarts
  }

  /** The delay of the next restart, or nothing. */
  function Delay(l: Limits, restarts: seq<int>, c: Call): Option<nat> {
    if Accepted(l, restarts, c)
    then Some(Min(l.maxDelayMs, l.baseDelayMs * Power2(|Pruned(restarts, c.look - l.windowMs)|))) else None
  }

  // ---------- Runs ----------

  function Ends(c: Call, before: int): int {
    match c
    case Next(_, push) => push
    case Recent(look) => look
    case Reset => before
  }

  /** The clock never goes back. */
  ghost predicate Ordered(calls: seq<Call>, since: int)
    decreases |calls|
  {
    calls == []
    || ((match calls[0]
         case Next(look, push) => since <= look <= push
         case Recent(look) => since <= look
         case Reset => true)
        && Ordered(calls[1..], Ends(calls[0], since)))
  }

  /** The state after a run: the list, every restart accepted since the last reset, and the last cutoff. */
  datatype State = State(restarts: seq<int>, history: seq<int>, cutoff: int)

  function After(l: Limits, s: State, c: Call): State {
    match c
    case Reset => State([], [], s.cutoff)
    case Next(look, push) =>
      State(Called(l, s.restarts, c), if Accepted(l, s.restarts, c) then s.history + [push] else s.history,
            look - l.windowMs)
    case Recent(look) => State(Called(l, s.restarts, c), s.history, look - l.windowMs)
  }

  function Run(l: Limits, s: State, calls: seq<Call>): State
    decreases |calls|
  {
    if calls == [] then s else Run(l, After(l, s, calls[0]), calls[1..])
  }

  function Start(now: int): State { State([], [], now) }

  // ---------- The list is the history inside the window ----------

  function InWindow(history: seq<int>, cutoff: int): seq<int> {
    if history == [] then []
    else if history[0] >= cutoff then [history[0]] + InWindow(history[1..], cutoff)
    else InWindow(history[1..], cutoff)
  }

  ghost predicate Ascending(s: seq<int>) { forall i, j :: 0 <= i < j < |s| ==> s[i] <= s[j] }

  ghost predicate Spaced(l: Limits, history: seq<int>) {
    forall i, j :: 0 <= i && i + l.maxRestarts <= j < |history| && i < j ==> history[j] - history[i] > l.windowMs
  }

  lemma {:induction false} PrunedIsSuffix(restarts: seq<int>, cutoff: int) returns (k: nat)
    requires Ascending(restarts)
    ensures k <= |restarts| && Pruned(restarts, cutoff) == restarts[k..]
    ensures forall i :: 0 <= i < |restarts| ==> (restarts[i] >= cutoff <==> i >= k)
  {
    if restarts == [] || restarts[0] >= cutoff {
      k := 0;
    } else {
      var rest := restarts[1..];
      var m := PrunedIsSuffix(rest, cutoff);
      k := m + 1;
      assert rest[m..] == restarts[k..];
      forall i | 0 <= i < |restarts| ensures restarts[i] >= cutoff <==> i >= k {
        if i > 0 { assert rest[i - 1] == restarts[i]; }
      }
    }
  }

  lemma {:induction false} WindowIsSuffix(history: seq<int>, cutoff: int, k: nat)
    requires k <= |history| && forall i :: 0 <= i < |history| ==> (history[i] >= cutoff <==> i >= k)
    ensures InWindow(history, cutoff) == history[k..]
  {
    if history != [] {
      var rest := history[1..];
      var m := if k == 0 then 0 else k - 1;
      forall i | 0 <= i < |rest| ensures rest[i] >= cutoff <==> i >= m {
        assert rest[i] == history[i + 1];
      }
      WindowIsSuffix(rest, cutoff, m);
      if k == 0 {
        assert [history[0]] + rest[0..] == history[0..];
      } else {
        assert rest[m..] == history[k..];
      }
    }
  }

  /** The list is exactly what of the history lies in the window; restarts too close together never happen. */
  ghost predicate Inv(l: Limits, s: State, now: int) {
    && Ascending(s.history) && (forall i :: 0 <= i < |s.history| ==> s.history[i] <= now)
    && s.cutoff <= now
    && s.restarts == InWindow(s.history, s.cutoff)
    && Spaced(l, s.history)
  }

  lemma PruneIsWindow(history: seq<int>, old1: int, new1: int)
    requires Ascending(history) && old1 <= new1
    ensures Pruned(InWindow(history, old1), new1) == InWindow(history, new1)
  {
    var a := PrunedIsSuffix(history, old1);
    WindowIsSuffix(history, old1, a);
    var b := PrunedIsSuffix(history, new1);
    WindowIsSuffix(history, new1, b);
    var kept := history[a..];
    var c := PrunedIsSuffix(kept, new1);
    WindowIsSuffix(kept, new1, c);
    assert a <= b;
    assert forall i :: 0 <= i < |kept| ==> kept[i] == history[a + i];
    assert c == b - a;
    assert kept[c..] == history[b..];
  }

  lemma AcceptKeepsSpacing(l: Limits, history: seq<int>, look: int, push: int)
    requires Ascending(history) && Spaced(l, history) && look <= push
    requires |InWindow(history, look - l.windowMs)| < l.maxRestarts
    ensures Spaced(l, history + [push])
  {
    var cutoff := look - l.windowMs;
    var k := PrunedIsSuffix(history, cutoff);
    WindowIsSuffix(history, cutoff, k);
    var more := history + [push];
    forall i, j | 0 <= i && i + l.maxRestarts <= j < |more| && i < j ensures more[j] - more[i] > l.windowMs {
      if j == |history| {
        assert i < k && history[i] < cutoff;
      }
    }
  }

  lemma WindowGrows(history: seq<int>, cutoff: int, push: int)
    requires Ascending(history) && push >= cutoff && forall i :: 0 <= i < |history| ==> history[i] <= push
    ensures InWindow(history + [push], cutoff) == InWindow(history, cutoff) + [push] && Ascending(history + [push])
  {
    var more := history + [push];
    var k := PrunedIsSuffix(history, cutoff);
    WindowIsSuffix(history, cutoff, k);
    assert forall i :: 0 <= i < |more| ==> (more[i] >= cutoff <==> i >= k);
    WindowIsSuffix(more, cutoff, k);
    assert more[k..] == history[k..] + [push];
  }

  lemma CallKeepsInv(l: Limits, s: State, c: Call, now: int)
    requires Inv(l, s, now) && Ordered([c], now) && s.cutoff + l.windowMs <= now
    ensures Inv(l, After(l, s, c), Ends(c, now)) && After(l, s, c).cutoff + l.windowMs <= Ends(c, now)
  {
    hide InWindow, Pruned, Spaced, Ascending;
    match c {
      case Next(look, push) =>
        PruneIsWindow(s.history, s.cutoff, look - l.windowMs);
        if Accepted(l, s.restarts, c) {
          AcceptKeepsSpacing(l, s.history, look, push);
          WindowGrows(s.history, look - l.windowMs, push);
        }
      case Recent(look) =>
        PruneIsWindow(s.history, s.cutoff, look - l.windowMs);
      case Reset =>
        NothingYet(l, s.cutoff);
    }
  }

  lemma NothingYet(l: Limits, cutoff: int)
    ensures InWindow([], cutoff) == [] && Spaced(l, []) && Ascending([])
  {
  }

  lemma {:induction false} RunKeepsInv(l: Limits, s: State, calls: seq<Call>, now: int) returns (end: int)
    requires Inv(l, s, now) && Ordered(calls, now) && s.cutoff + l.windowMs <= now
    ensures Inv(l, Run(l, s, calls), end)
    decreases |calls|
  {
    end := now;
    if calls != [] {
      hide Inv;
      assert Ordered([calls[0]], now) by {
        var one := [calls[0]];
        assert one[0] == calls[0] && one[1..] == [];
      }
      CallKeepsInv(l, s, calls[0], now);
      end := RunKeepsInv(l, After(l, s, calls[0]), calls[1..], Ends(calls[0], now));
    }
  }

  /** In every run with a clock that does not go back: the list is the accepted history since the last
      reset, cut to the window, and two accepted restarts that are maxRestarts or more apart in it lie
      strictly more than the window apart. */
  lemma WindowHolds(l: Limits, calls: seq<Call>, now: int)
    requires Ordered(calls, now)
    ensures var s := Run(l, Start(now - l.windowMs), calls);
            s.restarts == InWindow(s.history, s.cutoff) && Spaced(l, s.history)
  {
    NothingYet(l, now - l.windowMs);
    var end := RunKeepsInv(l, Start(now - l.windowMs), calls, now);
  }

  /** Each answer in terms of the history alone: no restart when the window already holds maxRestarts,
      and otherwise a delay that doubles with each restart in the window up to the cap. */
  lemma DelayFromHistory(l: Limits, calls: seq<Call>, now: int, look: int, push: int)
    requires Ordered(calls + [Next(look, push)], now)
    ensures var s := Run(l, Start(now - l.windowMs), calls);
            var recent := InWindow(s.history, look - l.windowMs);
            var doubled := l.baseDelayMs * Power2(|recent|);
            Delay(l, s.restarts, Next(look, push))
            == if |recent| >= l.maxRestarts then None
               else if doubled >= l.maxDelayMs then Some(l.maxDelayMs) else Some(doubled)
  {
    NothingYet(l, now - l.windowMs);
    var s0 := Start(now - l.windowMs);
    LastLook(l, s0, calls, Next(look, push), now);
    var s := Run(l, s0, calls);
    PruneIsWindow(s.history, s.cutoff, look - l.windowMs);
  }

  lemma {:induction false} LastLook(l: Limits, s: State, calls: seq<Call>, c: Call, now: int)
    requires Inv(l, s, now) && Ordered(calls + [c], now) && s.cutoff + l.windowMs <= now && c.Next?
    ensures var t := Run(l, s, calls);
            t.cutoff + l.windowMs <= c.look && Ascending(t.history) && t.restarts == InWindow(t.history, t.cutoff)
    decreases |calls|
  {
    if calls != [] {
      var all := calls + [c];
      assert all[0] == calls[0] && all[1..] == calls[1..] + [c];
      assert Ordered([calls[0]], now) by {
        var one := [calls[0]];
        assert one[0] == calls[0] && one[1..] == [];
      }
      CallKeepsInv(l, s, calls[0], now);
      hide Inv;
      LastLook(l, After(l, s, calls[0]), calls[1..], c, Ends(calls[0], now));
    } else {
      var one := [] + [c];
      assert one[0] == c;
    }
  }

  // ---------- Any clock ----------

  /** Nothing older than the cutoff stands behind something newer. */
  ghost predicate Sifted(s: seq<int>, cutoff: int) {
    forall i, j :: 0 <= i < j < |s| && s[j] < cutoff ==> s[i] < cutoff
  }

  ghost predicate Before(s: seq<int>, cutoff: int) { forall i :: 0 <= i < |s| ==> s[i] < cutoff }

  ghost predicate Inside(s: seq<int>, cutoff: int) { forall i :: 0 <= i < |s| ==> s[i] >= cutoff }

  lemma {:induction false} WindowMembers(s: seq<int>, cutoff: int)
    ensures |InWindow(s, cutoff)| <= |s| && Inside(InWindow(s, cutoff), cutoff)
    ensures InWindow(s, cutoff) == [] <==> Before(s, cutoff)
    ensures |InWindow(s, cutoff)| == |s| <==> Inside(s, cutoff)
    ensures |InWindow(s, cutoff)| == |s| ==> InWindow(s, cutoff) == s
  {
    if s != [] {
      var rest := s[1..];
      WindowMembers(rest, cutoff);
      assert s == [s[0]] + rest;
      assert forall i :: 0 <= i < |rest| ==> rest[i] == s[i + 1];
      assert Before(s, cutoff) <==> s[0] < cutoff && Before(rest, cutoff);
      assert Inside(s, cutoff) <==> s[0] >= cutoff && Inside(rest, cutoff);
    }
  }

  lemma {:induction false} WindowJoins(a: seq<int>, b: seq<int>, cutoff: int)
    ensures InWindow(a + b, cutoff) == InWindow(a, cutoff) + InWindow(b, cutoff)
  {
    if a == [] {
      assert a + b == b;
    } else {
      assert (a + b)[1..] == a[1..] + b;
      WindowJoins(a[1..], b, cutoff);
    }
  }

  /** Keeping the end of a list is filtering it exactly when the cut lies where the window begins. */
  lemma EndIsWindowIff(a: seq<int>, b: seq<int>, cutoff: int)
    ensures b == InWindow(a + b, cutoff) <==> Before(a, cutoff) && Inside(b, cutoff)
  {
    hide InWindow, Before;
    WindowJoins(a, b, cutoff);
    WindowMembers(a, cutoff);
    WindowMembers(b, cutoff);
    var inA, inB := InWindow(a, cutoff), InWindow(b, cutoff);
    if b == inA + inB {
      forall i | 0 <= i < |b| ensures b[i] >= cutoff {
        assert b[i] == if i < |inA| then inA[i] else inB[i - |inA|];
      }
      assert Inside(b, cutoff);
    }
  }

  lemma SiftedIff(a: seq<int>, b: seq<int>, cutoff: int)
    requires Before(a, cutoff) && (b == [] || b[0] >= cutoff)
    ensures Sifted(a + b, cutoff) <==> Inside(b, cutoff)
  {
    var s := a + b;
    assert forall i :: 0 <= i < |b| ==> s[|a| + i] == b[i];
    if Sifted(s, cutoff) {
      forall i | 0 <= i < |b| ensures b[i] >= cutoff {
        assert s[|a|] == b[0] && s[|a| + i] == b[i];
      }
    }
    if Inside(b, cutoff) {
      forall i, j | 0 <= i < j < |s| && s[j] < cutoff ensures s[i] < cutoff {
        assert if j < |a| then s[i] == a[i] else s[j] == b[j - |a|];
      }
    }
  }

  /** Pruning drops a front that lies before the cutoff and stops at the first element that does not. */
  lemma {:induction false} PrunedIsFront(s: seq<int>, cutoff: int) returns (gone: seq<int>)
    ensures s == gone + Pruned(s, cutoff) && Before(gone, cutoff)
    ensures Pruned(s, cutoff) == [] || Pruned(s, cutoff)[0] >= cutoff
  {
    if s == [] || s[0] >= cutoff {
      gone := [];
    } else {
      var rest := PrunedIsFront(s[1..], cutoff);
      gone := [s[0]] + rest;
      assert s == [s[0]] + s[1..];
    }
  }

  /** Pruning from the front is filtering by the window exactly for lists without such a pair. */
  lemma PrunedIsWindowIff(s: seq<int>, cutoff: int)
    ensures Pruned(s, cutoff) == InWindow(s, cutoff) <==> Sifted(s, cutoff)
  {
    hide InWindow, Pruned, Before, Inside, Sifted;
    var gone := PrunedIsFront(s, cutoff);
    EndIsWindowIff(gone, Pruned(s, cutoff), cutoff);
    SiftedIff(gone, Pruned(s, cutoff), cutoff);
  }

  /** Whatever the clock does, the list is the end of the history since the last reset. */
  ghost predicate EndsWith(s: seq<int>, end: seq<int>) { |end| <= |s| && s[|s| - |end|..] == end }

  lemma EndKept(l: Limits, s: State, c: Call)
    requires EndsWith(s.history, s.restarts)
    ensures EndsWith(After(l, s, c).history, After(l, s, c).restarts)
  {
    hide Pruned;
    if !c.Reset? {
      var kept := Pruned(s.restarts, c.look - l.windowMs);
      var gone := PrunedIsFront(s.restarts, c.look - l.windowMs);
      assert s.history[|s.history| - |kept|..] == s.restarts[|gone|..] == kept;
      if Accepted(l, s.restarts, c) {
        assert (s.history + [c.push])[|s.history| - |kept|..] == kept + [c.push];
      }
    }
  }

  lemma {:induction false} RunKeepsEnd(l: Limits, s: State, calls: seq<Call>)
    requires EndsWith(s.history, s.restarts)
    ensures EndsWith(Run(l, s, calls).history, Run(l, s, calls).restarts)
    decreases |calls|
  {
    hide EndsWith;
    if calls != [] {
      EndKept(l, s, calls[0]);
      RunKeepsEnd(l, After(l, s, calls[0]), calls[1..]);
    }
  }

  /** Main result for any clock: after any run, a look leaves exactly the accepted restarts of the window
      if and only if none that was dropped before lies in it again and none before it stands behind one
      inside it. */
  lemma LookGivesWindowIff(l: Limits, calls: seq<Call>, now: int, look: int)
    ensures var s := Run(l, Start(now), calls);
            var cutoff := look - l.windowMs;
            |s.restarts| <= |s.history|
            && (Called(l, s.restarts, Recent(look)) == InWindow(s.history, cutoff)
                <==> Before(s.history[..|s.history| - |s.restarts|], cutoff) && Sifted(s.history, cutoff))
  {
    hide InWindow, Pruned, Sifted, Inside, Run;
    RunKeepsEnd(l, Start(now), calls);
    var s := Run(l, Start(now), calls);
    var cutoff := look - l.windowMs;
    var dropped, kept := s.history[..|s.history| - |s.restarts|], Pruned(s.restarts, cutoff);
    var gone := PrunedIsFront(s.restarts, cutoff);
    assert s.history == dropped + gone + kept;
    EndIsWindowIff(dropped + gone, kept, cutoff);
    BeforeJoins(dropped, gone, cutoff);
    if Before(dropped, cutoff) { SiftedIff(dropped + gone, kept, cutoff); }
  }

  lemma BeforeJoins(a: seq<int>, b: seq<int>, cutoff: int)
    ensures Before(a + b, cutoff) <==> Before(a, cutoff) && Before(b, cutoff)
  {
    var s := a + b;
    assert forall i :: 0 <= i < |a| ==> s[i] == a[i];
    assert forall i :: 0 <= i < |b| ==> s[|a| + i] == b[i];
  }

  /** A clock that goes back breaks the first claim: what lies before the window can stay in the list. */
  lemma BackwardClockKeepsOldRestarts()
    ensures exists l, calls ::
              var s := Run(l, Start(0), calls); s.restarts != InWindow(s.history, s.cutoff)
  {
    var l := Limits(5, 10, 1, 1);
    var calls := [Next(100, 100), Next(50, 50), Recent(105)];
    var s1 := After(l, Start(0), calls[0]);
    assert s1.restarts == [100] && s1.history == [100];
    var s2 := After(l, s1, calls[1]);
    assert s2.restarts == [100, 50] && s2.history == [100, 50];
    var s3 := After(l, s2, calls[2]);
    assert s3.restarts == [100, 50] && s3.history == [100, 50] && s3.cutoff == 95;
    assert calls[1..][0] == calls[1] && calls[1..][1..][0] == calls[2] && calls[1..][1..][1..] == [];
    assert Run(l, Start(0), calls) == s3;
    assert [100, 50][1..] == [50] && [50][1..] == [];
    assert InWindow([50], 95) == [];
    assert InWindow([100, 50], 95) == [100];
  }

  // ---------- The same, in place ----------

  class Policy {
    const limits: Limits
    var restarts: seq<int>

    constructor (limits: Limits)
      ensures this.limits == limits && restarts == []
    {
      this.limits := limits;
      restarts := [];
    }

    method Prune(now: int)
      modifies this
      ensures restarts == Pruned(old(restarts), now - limits.windowMs)
    {
      var cutoff := now - limits.windowMs;
      while |restarts| > 0 && restarts[0] < cutoff
        invariant Pruned(restarts, cutoff) == Pruned(old(restarts), cutoff)
        decreases |restarts|
      {
        restarts := restarts[1..];
      }
    }

    method NextRestart(look: int, push: int) returns (delay: Option<nat>)
      modifies this
      ensures restarts == Called(limits, old(restarts), Next(look, push))
      ensures delay == Delay(limits, old(restarts), Next(look, push))
    {
      Prune(look);
      if |restarts| >= limits.maxRestarts { return None; }
      var power := 1;
      for i := 0 to |restarts|
        invariant power == Power2(i) && restarts == Pruned(old(restarts), look - limits.windowMs)
      {
        power := 2 * power;
      }
      delay := Some(Min(limits.maxDelayMs, limits.baseDelayMs * power));
      restarts := restarts + [push];
    }

    method RecentRestarts(look: int) returns (count: nat)
      modifies this
      ensures restarts == Called(limits, old(restarts), Recent(look)) && count == |restarts|
    {
      Prune(look);
      return |restarts|;
    }

    method ResetRestarts()
      modifies this
      ensures restarts == Called(limits, old(restarts), Reset)
    {
      restarts := [];
    }
  }
}

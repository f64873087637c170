/** From arriving frames to the picture (system/client/phoneStage.js): one slot for the newest frame, one
    decode at a time, and a generation that every clear of the picture raises. */
module FramePipeline {
  import opened Common

  /** A shown frame: its number in order of arrival, the picture generation it arrived in, and the stream
      it came from (none for a screenshot of the fallback path). */
  datatype Frame = Frame(number: nat, generation: nat, stream: Option<nat>)

  datatype Entry =
    | Arrived(frame: Frame)
    | Taken(frame: Frame)
    | Painted(frame: Frame)
    | Cleared

  /** 'decodes' are the frames whose decode some drain loop is waiting for, one per loop. */
  datatype State = State(
    stream: Option<nat>, pending: Option<Frame>, decoding: bool, decodes: seq<Frame>, generation: nat, picture: bool,
    arrivals: nat, log: seq<Entry>)

  const INIT := State(None, None, false, [], 0, false, 0, [])

  /** How an awaited decode ends: an image that can be painted, one without an area, or an error. */
  datatype Image = Drawable | Empty | Broken

  datatype Event =
    | SetStream(stream: nat)
    | Binary(length: nat, stream: nat)
    | Legacy
    | DecodeEnds(k: nat, image: Image)
    | ClearPicture
    | Clear

  predicate Enabled(s: State, e: Event) { e.DecodeEnds? ==> e.k < |s.decodes| }

  /** The loop's head: take the pending frame and decode it, or end. */
  function Drained(s: State): State {
    if s.pending.None? then s.(decoding := false)
    else s.(decodes := s.decodes + [s.pending.value], pending := None, log := s.log + [Taken(s.pending.value)])
  }

  function Put(s: State, stream: Option<nat>): State {
    var f := Frame(s.arrivals, s.generation, stream);
    s.(arrivals := s.arrivals + 1, pending := Some(f), log := s.log + [Arrived(f)])
  }

  function Shown(s: State, stream: Option<nat>): State {
    var t := Put(s, stream);
    if s.decoding then t else Drained(t.(decoding := true))
  }

  function Ended(s: State, k: nat): State
    requires k < |s.decodes|
  {
    s.(decodes := s.decodes[..k] + s.decodes[k + 1..])
  }

  function Drawn(s: State, f: Frame, image: Image): State {
    if f.generation != s.generation || !image.Drawable? then s
    else s.(picture := true, log := s.log + [Painted(f)])
  }

  function WithoutPicture(s: State): State {
    s.(generation := s.generation + 1, pending := None, picture := false, log := s.log + [Cleared])
  }

  function Step(s: State, e: Event): State
    requires Enabled(s, e)
  {
    match e
    case SetStream(stream) => s.(stream := Some(stream))
    case Binary(length, stream) => if length <= 5 || s.stream != Some(stream) then s else Shown(s, Some(stream))
    case Legacy => Shown(s, None)
    case DecodeEnds(k, image) => Drained(Drawn(Ended(s, k), s.decodes[k], image))
    case ClearPicture => WithoutPicture(s)
    case Clear => WithoutPicture(s).(stream := None)
  }

  ghost predicate Legal(s: State, es: seq<Event>)
    decreases |es|
  {
    es == [] || (Enabled(s, es[0]) && Legal(Step(s, es[0]), es[1..]))
  }

  function After(s: State, es: seq<Event>): State
    requires Legal(s, es)
    decreases |es|
  {
    if es == [] then s else After(Step(s, es[0]), es[1..])
  }

  // ---------- What the history keeps ----------

  /** Exactly one drain loop runs while 'decoding', none otherwise, and a waiting frame has a loop. */
  ghost predicate OneLoop(s: State) {
    |s.decodes| == (if s.decoding then 1 else 0) && (s.pending.Some? ==> s.decoding)
  }

  ghost predicate HasArrived(log: seq<Entry>, k: nat, f: Frame)
    requires k <= |log|
  {
    exists i :: 0 <= i < k && log[i].Arrived? && log[i].frame == f
  }

  ghost predicate ClearedAfter(log: seq<Entry>, i: nat) { exists j :: i < j < |log| && log[j].Cleared? }

  /** Frames are numbered in order of arrival. */
  ghost predicate Numbered(log: seq<Entry>, arrivals: nat) {
    && (forall i :: 0 <= i < |log| && log[i].Arrived? ==> log[i].frame.number < arrivals)
    && (forall i, j :: 0 <= i < j < |log| && log[i].Arrived? && log[j].Arrived? ==>
          log[i].frame.number < log[j].frame.number)
  }

  /** A frame is of an earlier generation exactly when the picture was cleared after it arrived. */
  ghost predicate Generations(log: seq<Entry>, generation: nat) {
    forall i :: 0 <= i < |log| && log[i].Arrived? ==>
      log[i].frame.generation <= generation && (log[i].frame.generation < generation <==> ClearedAfter(log, i))
  }

  /** Taken and painted frames have arrived, in order, and each taken one was the newest at that moment. */
  ghost predicate InOrder(log: seq<Entry>) {
    && (forall k :: 0 <= k < |log| && (log[k].Taken? || log[k].Painted?) ==> HasArrived(log, k, log[k].frame))
    && (forall i, j :: 0 <= i < j < |log| && log[i].Taken? && log[j].Taken? ==>
          log[i].frame.number < log[j].frame.number)
    && (forall i, j :: 0 <= i < j < |log| && log[i].Painted? && log[j].Painted? ==>
          log[i].frame.number < log[j].frame.number)
    && (forall i, k :: 0 <= i < k < |log| && log[i].Arrived? && log[k].Taken? ==>
          log[i].frame.number <= log[k].frame.number)
  }

  /** No painted frame arrived before a clear that came before the painting. */
  ghost predicate NothingStale(log: seq<Entry>) {
    forall i, j, k :: 0 <= i < j < k < |log| && log[i].Arrived? && log[j].Cleared? && log[k].Painted?
      ==> log[i].frame != log[k].frame
  }

  /** The newest frame, unless the picture was cleared after it, waits in the slot or was taken. */
  ghost predicate NewestKept(s: State) {
    forall i :: 0 <= i < |s.log| && s.log[i].Arrived? && s.log[i].frame.number + 1 == s.arrivals
                && !ClearedAfter(s.log, i)
      ==> s.pending == Some(s.log[i].frame) || exists k :: i < k < |s.log| && s.log[k] == Taken(s.log[i].frame)
  }

  /** Where the frames in the slot and in the decoder stand. */
  ghost predicate Queue(s: State) {
    && (s.pending.Some? ==> s.pending.value.number + 1 == s.arrivals && s.pending.value.generation == s.generation
                            && HasArrived(s.log, |s.log|, s.pending.value))
    && (forall k :: 0 <= k < |s.decodes| ==>
          HasArrived(s.log, |s.log|, s.decodes[k]) && s.decodes[k].number < s.arrivals)
    && (forall i :: 0 <= i < |s.log| && (s.log[i].Taken? || s.log[i].Painted?) ==>
          s.log[i].frame.number < s.arrivals
          && (s.pending.Some? ==> s.log[i].frame.number < s.pending.value.number)
          && (s.log[i].Painted? ==> forall k :: 0 <= k < |s.decodes| ==> s.log[i].frame.number < s.decodes[k].number))
    && (s.pending.Some? ==> forall k :: 0 <= k < |s.decodes| ==> s.decodes[k].number < s.pending.value.number)
  }

  ghost predicate Good(s: State) {
    Numbered(s.log, s.arrivals) && Generations(s.log, s.generation) && InOrder(s.log) && NothingStale(s.log)
    && NewestKept(s) && Queue(s)
  }

  lemma ClearedGrows(log: seq<Entry>, e: Entry, i: nat)
    requires i < |log|
    ensures ClearedAfter(log + [e], i) <==> ClearedAfter(log, i) || e.Cleared?
  {
    var more := log + [e];
    if ClearedAfter(log, i) {
      var j :| i < j < |log| && log[j].Cleared?;
      assert more[j].Cleared?;
    }
    if e.Cleared? { assert more[|log|].Cleared?; }
  }

  lemma ArrivedGrows(log: seq<Entry>, e: Entry, k: nat, f: Frame)
    requires k <= |log|
    ensures HasArrived(log + [e], k, f) <==> HasArrived(log, k, f)
    ensures HasArrived(log, k, f) ==> HasArrived(log + [e], |log| + 1, f)
  {
    var more := log + [e];
    assert forall i :: 0 <= i < k ==> more[i] == log[i];
    if HasArrived(log, k, f) {
      var i :| 0 <= i < k && log[i].Arrived? && log[i].frame == f;
      assert more[i].frame == f;
    }
  }

  lemma NumberedGrows(log: seq<Entry>, arrivals: nat, e: Entry)
    requires Numbered(log, arrivals) && (e.Arrived? ==> e.frame.number == arrivals)
    ensures Numbered(log + [e], if e.Arrived? then arrivals + 1 else arrivals)
  {
  }

  lemma GenerationsGrow(log: seq<Entry>, generation: nat, e: Entry)
    requires Generations(log, generation) && (e.Arrived? ==> e.frame.generation == generation)
    ensures Generations(log + [e], if e.Cleared? then generation + 1 else generation)
  {
    hide ClearedAfter;
    var more := log + [e];
    forall i | 0 <= i < |more| && more[i].Arrived?
      ensures var now := if e.Cleared? then generation + 1 else generation;
              more[i].frame.generation <= now && (more[i].frame.generation < now <==> ClearedAfter(more, i))
    {
      if i < |log| {
        assert more[i] == log[i];
        ClearedGrows(log, e, i);
      } else {
        NothingAfterTheEnd(more);
      }
    }
  }

  lemma NothingAfterTheEnd(log: seq<Entry>)
    requires log != []
    ensures !ClearedAfter(log, |log| - 1)
  {
  }

  lemma InOrderGrows(log: seq<Entry>, e: Entry)
    requires InOrder(log)
    requires e.Taken? || e.Painted? ==> HasArrived(log, |log|, e.frame)
    requires forall i :: 0 <= i < |log| && e.Taken? && (log[i].Taken? || log[i].Arrived?) ==>
               log[i].frame.number < e.frame.number || (log[i].Arrived? && log[i].frame.number == e.frame.number)
    requires forall i :: 0 <= i < |log| && e.Painted? && log[i].Painted? ==> log[i].frame.number < e.frame.number
    ensures InOrder(log + [e])
  {
    hide HasArrived;
    var more := log + [e];
    forall k | 0 <= k < |more| && (more[k].Taken? || more[k].Painted?) ensures HasArrived(more, k, more[k].frame) {
      ArrivedGrows(log, e, k, more[k].frame);
      if k < |log| { assert more[k] == log[k]; }
    }
  }

  lemma NothingStaleGrows(log: seq<Entry>, generation: nat, e: Entry)
    requires NothingStale(log) && Generations(log, generation) && (e.Painted? ==> e.frame.generation == generation)
    ensures NothingStale(log + [e])
  {
    var more := log + [e];
    forall i, j, k | 0 <= i < j < k < |more| && more[i].Arrived? && more[j].Cleared? && more[k].Painted?
      ensures more[i].frame != more[k].frame
    {
      assert more[i] == log[i] && more[j] == log[j];
      if k == |log| {
        assert ClearedAfter(log, i);
      } else {
        assert more[k] == log[k];
      }
    }
  }

  lemma PutKeeps(s: State, stream: Option<nat>)
    requires Good(s)
    ensures Good(Put(s, stream)) && Put(s, stream).decodes == s.decodes && Put(s, stream).pending.Some?
  {
    hide Numbered, Generations, InOrder, NothingStale, ClearedAfter;
    var e := Arrived(Frame(s.arrivals, s.generation, stream));
    var t := Put(s, stream);
    NumberedGrows(s.log, s.arrivals, e);
    GenerationsGrow(s.log, s.generation, e);
    InOrderGrows(s.log, e);
    NothingStaleGrows(s.log, s.generation, e);
    assert t.log[|s.log|] == e;
    assert NewestKept(t) by {
      assert Numbered(t.log, t.arrivals);
      NewestIsLast(s.log, s.arrivals, e);
    }
    assert Queue(t) by {
      forall k | 0 <= k < |s.decodes| ensures HasArrived(t.log, |t.log|, t.decodes[k]) {
        ArrivedGrows(s.log, e, |s.log|, s.decodes[k]);
      }
    }
  }

  lemma NewestIsLast(log: seq<Entry>, arrivals: nat, e: Entry)
    requires Numbered(log, arrivals) && e.Arrived? && e.frame.number == arrivals
    ensures forall i :: 0 <= i < |log + [e]| && (log + [e])[i].Arrived? && (log + [e])[i].frame.number == arrivals ==>
              i == |log|
  {
  }

  lemma TakeKeeps(s: State)
    requires Good(s) && s.decodes == []
    ensures Good(Drained(s))
  {
    if s.pending.Some? {
      hide Numbered, Generations, NothingStale, NewestKept, HasArrived, InOrder;
      var f := s.pending.value;
      var e := Taken(f);
      var t := Drained(s);
      NumberedGrows(s.log, s.arrivals, e);
      GenerationsGrow(s.log, s.generation, e);
      AllArrivedBefore(s.log, s.arrivals);
      InOrderGrows(s.log, e);
      NothingStaleGrows(s.log, s.generation, e);
      KeptInLog(s, t, e);
      TakeKeepsQueue(s);
    }
  }

  lemma TakeKeepsQueue(s: State)
    requires Queue(s) && s.decodes == [] && s.pending.Some?
    ensures Queue(Drained(s))
  {
    hide HasArrived;
    var f := s.pending.value;
    var t := Drained(s);
    ArrivedGrows(s.log, Taken(f), |s.log|, f);
    assert t.decodes == [f];
    forall i | 0 <= i < |t.log| && (t.log[i].Taken? || t.log[i].Painted?)
      ensures t.log[i].frame.number < t.arrivals && (t.log[i].Painted? ==> t.log[i].frame.number < f.number)
    {
      if i < |s.log| { assert t.log[i] == s.log[i]; }
    }
  }

  lemma AllArrivedBefore(log: seq<Entry>, arrivals: nat)
    requires Numbered(log, arrivals)
    ensures forall i :: 0 <= i < |log| && log[i].Arrived? ==> log[i].frame.number < arrivals
  {
  }

  /** What is not an arrival leaves the newest frame where it was, or takes it. */
  lemma KeptInLog(s: State, t: State, e: Entry)
    requires NewestKept(s) && t.log == s.log + [e] && t.arrivals == s.arrivals && !e.Arrived?
    requires t.pending == s.pending || (s.pending.Some? && e == Taken(s.pending.value)) || e.Cleared?
    ensures NewestKept(t)
  {
    hide ClearedAfter;
    forall i | 0 <= i < |t.log| && t.log[i].Arrived? && t.log[i].frame.number + 1 == t.arrivals
               && !ClearedAfter(t.log, i)
      ensures t.pending == Some(t.log[i].frame) || exists k :: i < k < |t.log| && t.log[k] == Taken(t.log[i].frame)
    {
      assert t.log[i] == s.log[i];
      ClearedGrows(s.log, e, i);
      if s.pending == Some(s.log[i].frame) {
        assert t.log[|s.log|] == e;
      } else {
        var k :| i < k < |s.log| && s.log[k] == Taken(s.log[i].frame);
        assert t.log[k] == s.log[k];
      }
    }
  }

  lemma ClearKeeps(s: State)
    requires Good(s)
    ensures Good(WithoutPicture(s))
  {
    hide Numbered, Generations, InOrder, NothingStale, ClearedAfter, HasArrived;
    var t := WithoutPicture(s);
    NumberedGrows(s.log, s.arrivals, Cleared);
    GenerationsGrow(s.log, s.generation, Cleared);
    InOrderGrows(s.log, Cleared);
    NothingStaleGrows(s.log, s.generation, Cleared);
    KeptInLog(s, t, Cleared);
    forall k | 0 <= k < |s.decodes| ensures HasArrived(t.log, |t.log|, t.decodes[k]) {
      ArrivedGrows(s.log, Cleared, |s.log|, s.decodes[k]);
    }
  }

  /** The one decode that was awaited ends; its frame is painted unless the picture was cleared since. */
  lemma DrawKeeps(s: State, image: Image)
    requires Good(s) && |s.decodes| == 1
    ensures Good(Drawn(Ended(s, 0), s.decodes[0], image)) && Ended(s, 0).decodes == []
  {
    hide Numbered, Generations, InOrder, NothingStale, ClearedAfter, HasArrived;
    var f := s.decodes[0];
    var u := Ended(s, 0);
    assert Good(u);
    if f.generation == s.generation && image.Drawable? {
      var e := Painted(f);
      var t := Drawn(u, f, image);
      NumberedGrows(s.log, s.arrivals, e);
      GenerationsGrow(s.log, s.generation, e);
      InOrderGrows(s.log, e);
      NothingStaleGrows(s.log, s.generation, e);
      KeptInLog(u, t, e);
      if s.pending.Some? { ArrivedGrows(s.log, e, |s.log|, s.pending.value); }
    }
  }

  ghost predicate Inv(s: State) { OneLoop(s) && Good(s) }

  lemma StreamDoesNotMatter(s: State, stream: Option<nat>)
    requires Good(s)
    ensures Good(s.(stream := stream))
  {
    hide Numbered, Generations, InOrder, NothingStale;
  }

  lemma InvKept(s: State, e: Event)
    requires Inv(s) && Enabled(s, e)
    ensures Inv(Step(s, e))
  {
    hide Good;
    match e {
      case SetStream(stream) => StreamDoesNotMatter(s, Some(stream));
      case Binary(length, stream) =>
        if length > 5 && s.stream == Some(stream) { ShowKeeps(s, Some(stream)); }
      case Legacy => ShowKeeps(s, None);
      case DecodeEnds(k, image) =>
        DrawKeeps(s, image);
        TakeKeeps(Drawn(Ended(s, 0), s.decodes[0], image));
      case ClearPicture => ClearKeeps(s);
      case Clear =>
        ClearKeeps(s);
        StreamDoesNotMatter(WithoutPicture(s), None);
    }
  }

  lemma ShowKeeps(s: State, stream: Option<nat>)
    requires Inv(s)
    ensures Inv(Shown(s, stream))
  {
    hide Numbered, Generations, InOrder, NothingStale;
    PutKeeps(s, stream);
    var t := Put(s, stream).(decoding := true);
    assert Good(t);
    if !s.decoding { TakeKeeps(t); }
  }

  lemma {:induction false} RunKeepsInv(s: State, es: seq<Event>)
    requires Inv(s) && Legal(s, es)
    ensures Inv(After(s, es))
    decreases |es|
  {
    if es != [] {
      hide Inv;
      InvKept(s, es[0]);
      RunKeepsInv(Step(s, es[0]), es[1..]);
    }
  }

  // ---------- The promises ----------

  /** In every run of arrivals, decodes and clears: one drain loop at most; what is painted is, in order,
      part of what arrived; nothing that arrived before a clear is painted after it; each decoded frame
      was the newest at that moment. */
  lemma NewestWins(es: seq<Event>)
    requires Legal(INIT, es)
    ensures var s := After(INIT, es);
            && |s.decodes| <= 1 && (s.decoding <==> s.decodes != [])
            && InOrder(s.log) && NothingStale(s.log)
  {
    hide Numbered, Generations, InOrder, NothingStale, NewestKept, Queue;
    NothingYet();
    RunKeepsInv(INIT, es);
  }

  /** The latest frame, if the picture was not cleared after it, was taken for decoding or waits behind
      the decode in progress; once nothing is being decoded it was taken, and the end of the decode in
      progress takes it. */
  lemma LatestFrameIsTaken(es: seq<Event>, i: nat)
    requires Legal(INIT, es)
    requires var s := After(INIT, es);
             i < |s.log| && s.log[i].Arrived? && s.log[i].frame.number + 1 == s.arrivals && !ClearedAfter(s.log, i)
    ensures var s := After(INIT, es);
            && (s.decodes == [] ==> TakenAfter(s.log, i))
            && (s.decodes != [] ==> forall image :: TakenAfter(Step(s, DecodeEnds(0, image)).log, i))
  {
    hide Numbered, Generations, InOrder, NothingStale, ClearedAfter, TakenAfter;
    NothingYet();
    RunKeepsInv(INIT, es);
    var s := After(INIT, es);
    WaitsOrTaken(s, i);
    if s.decodes != [] {
      forall image ensures TakenAfter(Step(s, DecodeEnds(0, image)).log, i) {
        TakenNext(s, i, image);
      }
    }
  }

  ghost predicate TakenAfter(log: seq<Entry>, i: nat)
    requires i < |log| && log[i].Arrived?
  {
    exists k :: i < k < |log| && log[k] == Taken(log[i].frame)
  }

  lemma NothingYet()
    ensures Inv(INIT)
  {
  }

  lemma WaitsOrTaken(s: State, i: nat)
    requires NewestKept(s) && i < |s.log| && s.log[i].Arrived? && s.log[i].frame.number + 1 == s.arrivals
    requires !ClearedAfter(s.log, i)
    ensures s.pending == Some(s.log[i].frame) || TakenAfter(s.log, i)
  {
  }

  lemma TakenNext(s: State, i: nat, image: Image)
    requires s.decodes != [] && i < |s.log| && s.log[i].Arrived?
    requires s.pending == Some(s.log[i].frame) || TakenAfter(s.log, i)
    ensures s.log <= Step(s, DecodeEnds(0, image)).log && TakenAfter(Step(s, DecodeEnds(0, image)).log, i)
  {
    var t := Step(s, DecodeEnds(0, image));
    assert s.log <= t.log;
    if s.pending == Some(s.log[i].frame) {
      assert t.log[|t.log| - 1] == Taken(s.log[i].frame);
    } else {
      var k :| i < k < |s.log| && s.log[k] == Taken(s.log[i].frame);
      assert t.log[k] == s.log[k];
    }
  }

  /** hasPicture says whether something was painted since the last clear. */
  ghost predicate PictureSays(s: State) {
    s.picture <==> exists k :: 0 <= k < |s.log| && s.log[k].Painted? && !ClearedAfter(s.log, k)
  }

  lemma PictureGrows(s: State, t: State, e: Entry)
    requires PictureSays(s) && t.log == s.log + [e]
    requires t.picture == if e.Painted? then true else if e.Cleared? then false else s.picture
    ensures PictureSays(t)
  {
    hide ClearedAfter;
    NothingAfterTheEnd(t.log);
    forall k | 0 <= k < |s.log|
      ensures t.log[k] == s.log[k] && (ClearedAfter(t.log, k) <==> ClearedAfter(s.log, k) || e.Cleared?)
    {
      ClearedGrows(s.log, e, k);
    }
    assert t.log[|s.log|] == e;
  }

  lemma PictureKept(s: State, e: Event)
    requires PictureSays(s) && Enabled(s, e)
    ensures PictureSays(Step(s, e))
  {
    hide PictureSays;
    match e {
      case SetStream(_) => Same(s, Step(s, e));
      case Binary(length, stream) =>
        if length > 5 && s.stream == Some(stream) { PictureAfterShow(s, Some(stream)); }
      case Legacy => PictureAfterShow(s, None);
      case DecodeEnds(k, image) =>
        var u, f := Ended(s, k), s.decodes[k];
        Same(s, u);
        var t := Drawn(u, f, image);
        if f.generation == u.generation && image.Drawable? { PictureGrows(u, t, Painted(f)); }
        PictureAfterTake(t);
      case ClearPicture => PictureGrows(s, WithoutPicture(s), Cleared);
      case Clear =>
        PictureGrows(s, WithoutPicture(s), Cleared);
        Same(WithoutPicture(s), Step(s, e));
    }
  }

  lemma Same(s: State, t: State)
    requires PictureSays(s) && t.log == s.log && t.picture == s.picture
    ensures PictureSays(t)
  {
  }

  lemma PictureAfterTake(s: State)
    requires PictureSays(s)
    ensures PictureSays(Drained(s))
  {
    if s.pending.Some? { PictureGrows(s, Drained(s), Taken(s.pending.value)); }
  }

  lemma PictureAfterShow(s: State, stream: Option<nat>)
    requires PictureSays(s)
    ensures PictureSays(Shown(s, stream))
  {
    hide PictureSays;
    var t := Put(s, stream);
    PictureGrows(s, t, Arrived(Frame(s.arrivals, s.generation, stream)));
    if !s.decoding {
      Same(t, t.(decoding := true));
      PictureAfterTake(t.(decoding := true));
    }
  }

  lemma {:induction false} PictureFollowsTheHistory(s: State, es: seq<Event>)
    requires PictureSays(s) && Legal(s, es)
    ensures PictureSays(After(s, es))
    decreases |es|
  {
    if es != [] {
      hide PictureSays;
      PictureKept(s, es[0]);
      PictureFollowsTheHistory(Step(s, es[0]), es[1..]);
    }
  }

  // ---------- What is shown, and what is painted ----------

  /** The stream set last, if the whole stage was not cleared since. */
  ghost function LastStream(es: seq<Event>): Option<nat> {
    if es == [] then None
    else match es[|es| - 1]
      case SetStream(stream) => Some(stream)
      case Clear => None
      case _ => LastStream(es[..|es| - 1])
  }

  lemma {:induction false} OneMore(s: State, es: seq<Event>, e: Event)
    ensures Legal(s, es + [e]) <==> Legal(s, es) && Enabled(After(s, es), e)
    ensures Legal(s, es + [e]) ==> After(s, es + [e]) == Step(After(s, es), e)
    decreases |es|
  {
    var all := es + [e];
    if es == [] {
      assert all[1..] == [];
    } else {
      assert all[1..] == es[1..] + [e];
      if Enabled(s, es[0]) { OneMore(Step(s, es[0]), es[1..], e); }
    }
  }

  lemma {:induction false} StreamIsLastSet(es: seq<Event>)
    requires Legal(INIT, es)
    ensures After(INIT, es).stream == LastStream(es)
  {
    if es != [] {
      hide Legal, After;
      var n := |es| - 1;
      assert es == es[..n] + [es[n]];
      OneMore(INIT, es[..n], es[n]);
      StreamIsLastSet(es[..n]);
    } else {
      assert After(INIT, es) == INIT;
    }
  }

  /** Over every run: a frame is shown if and only if it has an image and comes from the stream set last,
      or from the fallback path; and it carries the stream it came from. */
  lemma ShownIff(es: seq<Event>, e: Event)
    requires Legal(INIT, es) && Enabled(After(INIT, es), e)
    ensures var s := After(INIT, es); var t := Step(s, e);
      if e.Legacy? || (e.Binary? && e.length > 5 && LastStream(es) == Some(e.stream)) then
        var f := Frame(s.arrivals, s.generation, if e.Legacy? then None else Some(e.stream));
        |t.log| > |s.log| && t.log[|s.log|] == Arrived(f) && t.arrivals == s.arrivals + 1
      else t.arrivals == s.arrivals && forall k :: |s.log| <= k < |t.log| ==> !t.log[k].Arrived?
  {
    StreamIsLastSet(es);
  }

  /** Over every run: the end of a decode paints its frame if and only if the image can be drawn and the
      picture was not cleared since the frame arrived; nothing else paints. */
  lemma PaintedIff(es: seq<Event>, e: Event)
    requires Legal(INIT, es) && Enabled(After(INIT, es), e)
    ensures var s := After(INIT, es); var t := Step(s, e);
      (exists k :: |s.log| <= k < |t.log| && t.log[k].Painted?)
      <==> e.DecodeEnds? && e.image == Drawable
           && exists i :: 0 <= i < |s.log| && s.log[i] == Arrived(s.decodes[e.k]) && !ClearedAfter(s.log, i)
    ensures var s := After(INIT, es); var t := Step(s, e);
      forall k :: |s.log| <= k < |t.log| && t.log[k].Painted? ==> e.DecodeEnds? && t.log[k].frame == s.decodes[e.k]
  {
    hide Legal, After, ClearedAfter, Numbered, InOrder, NothingStale, NewestKept;
    NothingYet();
    RunKeepsInv(INIT, es);
    var s := After(INIT, es);
    var t := Step(s, e);
    if e.DecodeEnds? {
      var f := s.decodes[e.k];
      assert HasArrived(s.log, |s.log|, f);
      var i :| 0 <= i < |s.log| && s.log[i].Arrived? && s.log[i].frame == f;
      assert f.generation < s.generation <==> ClearedAfter(s.log, i);
      if e.image == Drawable && f.generation == s.generation {
        assert t.log[|s.log|] == Painted(f);
      }
    }
  }

  /** A clear, of the picture or of the whole stage, and nothing else, erases the picture and the slot and
      makes what was held too old to be painted. */
  lemma ClearedIff(s: State, e: Event)
    requires Enabled(s, e)
    ensures var t := Step(s, e);
      && s.log <= t.log
      && ((exists k :: |s.log| <= k < |t.log| && t.log[k].Cleared?) <==> e.ClearPicture? || e.Clear?)
      && (e.ClearPicture? || e.Clear? ==> !t.picture && t.pending.None? && t.generation > s.generation)
      && (!e.ClearPicture? && !e.Clear? ==> t.generation == s.generation)
      && t.stream == (match e case SetStream(stream) => Some(stream) case Clear => None case _ => s.stream)
  {
    if e.ClearPicture? || e.Clear? { assert Step(s, e).log[|s.log|].Cleared?; }
  }

  // ---------- Streams ----------

  /** The frames that can still be painted if nothing else arrives. */
  function Held(s: State): set<Frame> {
    (set k | 0 <= k < |s.decodes| :: s.decodes[k]) + if s.pending.Some? then {s.pending.value} else {}
  }

  predicate Foreign(f: Frame, stream: nat) { f.stream.Some? && f.stream.value != stream }

  /** Neither an arrival nor another change of the stream. */
  predicate Settling(e: Event) { !e.Binary? && !e.Legacy? && !e.SetStream? && !e.Clear? }

  ghost predicate AllSettling(es: seq<Event>) { forall k :: 0 <= k < |es| ==> Settling(es[k]) }

  /** Without another arrival a frame of another stream is painted in some continuation. */
  ghost predicate MayPaintForeign(s: State, stream: nat) {
    exists es, k :: Legal(s, es) && AllSettling(es) && |s.log| <= k < |After(s, es).log|
      && After(s, es).log[k].Painted? && Foreign(After(s, es).log[k].frame, stream)
  }

  /** The slot or the decoder holds a frame of another stream, and the picture was not cleared since. */
  ghost predicate HoldsForeign(s: State, stream: nat) {
    exists f :: f in Held(s) && f.generation == s.generation && Foreign(f, stream)
  }

  lemma SettlingPaintsHeld(s: State, e: Event)
    requires Enabled(s, e) && Settling(e)
    ensures var t := Step(s, e);
            && s.log <= t.log && Held(t) <= Held(s) && t.generation >= s.generation
            && forall k :: |s.log| <= k < |t.log| && t.log[k].Painted? ==>
                 t.log[k].frame in Held(s) && t.log[k].frame.generation == s.generation
  {
  }

  lemma {:induction false} OnlyHeldIsPainted(s: State, es: seq<Event>, k: nat)
    requires Legal(s, es) && AllSettling(es) && |s.log| <= k < |After(s, es).log| && After(s, es).log[k].Painted?
    ensures var f := After(s, es).log[k].frame; f in Held(s) && f.generation >= s.generation
    decreases |es|
  {
    hide Held;
    if es != [] {
      var t := Step(s, es[0]);
      assert Settling(es[0]);
      SettlingPaintsHeld(s, es[0]);
      assert AllSettling(es[1..]) by {
        forall m | 0 <= m < |es[1..]| ensures Settling(es[1..][m]) { assert es[1..][m] == es[m + 1]; }
      }
      if k < |t.log| {
        LogGrowsWith(t, es[1..]);
      } else {
        OnlyHeldIsPainted(t, es[1..], k);
      }
    }
  }

  lemma {:induction false} LogGrowsWith(s: State, es: seq<Event>)
    requires Legal(s, es)
    ensures s.log <= After(s, es).log
    decreases |es|
  {
    if es != [] {
      LogGrowsWith(Step(s, es[0]), es[1..]);
      assert s.log <= Step(s, es[0]).log;
    }
  }

  /** A held frame is never of a later generation than the current one. */
  lemma HeldIsNotNewer(s: State, f: Frame)
    requires Good(s) && f in Held(s)
    ensures f.generation <= s.generation
  {
    hide Numbered, InOrder, NothingStale, NewestKept;
    assert HasArrived(s.log, |s.log|, f);
  }

  /** Decoding what is held paints it: the awaited frame first, then the one in the slot. */
  lemma HeldIsPaintable(s: State, f: Frame, stream: nat)
    requires OneLoop(s) && f in Held(s) && f.generation == s.generation && Foreign(f, stream)
    ensures MayPaintForeign(s, stream)
  {
    var e := DecodeEnds(0, Drawable);
    var t := Step(s, e);
    if f == s.decodes[0] {
      Runs1(s, e);
      assert t.log[|s.log|] == Painted(f);
      assert AllSettling([e]) && |s.log| < |After(s, [e]).log| && After(s, [e]).log[|s.log|].Painted?;
    } else {
      assert s.pending == Some(f) && t.decodes == [f] && t.generation == s.generation;
      var u := Step(t, e);
      assert u.log[|t.log|] == Painted(f);
      Runs2(s, e, e);
      assert AllSettling([e, e]) && After(s, [e, e]).log[|t.log|].Painted?;
    }
  }

  lemma Runs1(s: State, a: Event)
    requires Enabled(s, a)
    ensures Legal(s, [a]) && After(s, [a]) == Step(s, a)
  {
    var es := [a];
    var rest := es[1..];
    assert rest == [] && Legal(Step(s, a), rest) && After(Step(s, a), rest) == Step(s, a);
  }

  lemma Runs2(s: State, a: Event, b: Event)
    requires Enabled(s, a) && Enabled(Step(s, a), b)
    ensures Legal(s, [a, b]) && After(s, [a, b]) == Step(Step(s, a), b)
  {
    Runs1(Step(s, a), b);
    assert [a, b][1..] == [b];
  }

  /** The stream is checked only on arrival. Main result on streams: after setStream, a frame of another
      stream can still be painted if and only if one of the current generation was in the slot or in the
      decoder when the stream was set. */
  lemma OldStreamIsPaintedIff(es: seq<Event>, stream: nat)
    requires Legal(INIT, es)
    ensures var s := After(INIT, es); MayPaintForeign(Step(s, SetStream(stream)), stream) <==> HoldsForeign(s, stream)
  {
    hide Numbered, Generations, InOrder, NothingStale, NewestKept, Queue, Foreign, Legal, AllSettling;
    NothingYet();
    RunKeepsInv(INIT, es);
    var s := After(INIT, es);
    var t := Step(s, SetStream(stream));
    StreamDoesNotMatter(s, Some(stream));
    if HoldsForeign(s, stream) {
      var f :| f in Held(s) && f.generation == s.generation && Foreign(f, stream);
      HeldIsPaintable(t, f, stream);
    }
    if MayPaintForeign(t, stream) {
      var more, k :| Legal(t, more) && AllSettling(more) && |t.log| <= k < |After(t, more).log|
        && After(t, more).log[k].Painted? && Foreign(After(t, more).log[k].frame, stream);
      OnlyHeldIsPainted(t, more, k);
      var f := After(t, more).log[k].frame;
      HeldIsNotNewer(t, f);
      assert f in Held(s);
    }
  }

  /** With a clear directly before, as switching devices does, it never can. */
  lemma ClearedStreamIsNeverPainted(es: seq<Event>, stream: nat)
    requires Legal(INIT, es)
    ensures !MayPaintForeign(Step(Step(After(INIT, es), Clear), SetStream(stream)), stream)
  {
    hide Numbered, Generations, InOrder, NothingStale, NewestKept, Queue, Foreign, Legal, AllSettling, After;
    NothingYet();
    RunKeepsInv(INIT, es);
    var s := After(INIT, es);
    var t := Step(Step(s, Clear), SetStream(stream));
    ClearKeeps(s);
    StreamDoesNotMatter(WithoutPicture(s), Some(stream));
    if MayPaintForeign(t, stream) {
      var more, k :| Legal(t, more) && AllSettling(more) && |t.log| <= k < |After(t, more).log|
        && After(t, more).log[k].Painted? && Foreign(After(t, more).log[k].frame, stream);
      OnlyHeldIsPainted(t, more, k);
      var f := After(t, more).log[k].frame;
      assert f in Held(s) && f.generation > s.generation;
      HeldIsNotNewer(s, f);
    }
  }

  const OLD_FRAME := Frame(0, 0, Some(1))

  /** Such a run: stream 1's frame is still being decoded when stream 2 is set. */
  lemma OldStreamCanBePainted()
    ensures exists es :: Legal(INIT, es) && After(INIT, es).stream == Some(2) && After(INIT, es).picture
              && After(INIT, es).log == [Arrived(OLD_FRAME), Taken(OLD_FRAME), Painted(OLD_FRAME)]
  {
    var es := [SetStream(1), Binary(6, 1), SetStream(2), DecodeEnds(0, Drawable)];
    var f := OLD_FRAME;
    var s1 := Step(INIT, SetStream(1));
    var s2 := Step(s1, Binary(6, 1));
    assert s2.log == [Arrived(f), Taken(f)] && s2.decodes == [f];
    var s3 := Step(s2, SetStream(2));
    var s4 := Step(s3, DecodeEnds(0, Drawable));
    assert s4.log == [Arrived(f), Taken(f), Painted(f)];
    var es1, es2, es3 := es[1..], es[1..][1..], es[1..][1..][1..];
    assert es1 == [Binary(6, 1), SetStream(2), DecodeEnds(0, Drawable)];
    assert es2 == [SetStream(2), DecodeEnds(0, Drawable)];
    assert es3 == [DecodeEnds(0, Drawable)];
    assert es3[1..] == [] && Legal(s4, es3[1..]) && After(s4, es3[1..]) == s4;
    assert Legal(s3, es3) && After(s3, es3) == s4;
    assert Legal(s2, es2) && After(s2, es2) == s4;
    assert Legal(s1, es1) && After(s1, es1) == s4;
    assert Legal(INIT, es) && After(INIT, es) == s4;
  }

  // ---------- The same, in place ----------

  class PhoneStage {
    var streamId: Option<nat>
    var pendingFrame: Option<Frame>
    var decoding: bool
    var decodes: seq<Frame>
    var pictureGeneration: nat
    var picture: bool
    var arrivals: nat
    ghost var log: seq<Entry>

    ghost function Now(): State
      reads this
    {
      State(streamId, pendingFrame, decoding, decodes, pictureGeneration, picture, arrivals, log)
    }

    constructor ()
      ensures Now() == INIT
    {
      streamId, pendingFrame, decoding, decodes := None, None, false, [];
      pictureGeneration, picture, arrivals, log := 0, false, 0, [];
    }

    method ShowFrame(stream: Option<nat>)
      modifies this
      ensures Now() == Shown(old(Now()), stream)
    {
      pendingFrame := Some(Frame(arrivals, pictureGeneration, stream));
      log := log + [Arrived(Frame(arrivals, pictureGeneration, stream))];
      arrivals := arrivals + 1;
      if !decoding {
        decoding := true;
        DrainHead();
      }
    }

    /** The head of the drain loop, up to the await of the decode. */
    method DrainHead()
      modifies this
      ensures Now() == Drained(old(Now()))
    {
      if pendingFrame.None? {
        decoding := false;
        return;
      }
      var f := pendingFrame.value;
      pendingFrame := None;
      decodes := decodes + [f];
      log := log + [Taken(f)];
    }

    /** The rest of the loop's body, after the await, and the way back to its head. */
    method OnDecoded(k: nat, image: Image)
      requires k < |decodes|
      modifies this
      ensures Now() == Step(old(Now()), DecodeEnds(k, image))
    {
      var f := decodes[k];
      decodes := decodes[..k] + decodes[k + 1..];
      if f.generation == pictureGeneration && image == Drawable {
        picture := true;
        log := log + [Painted(f)];
      }
      DrainHead();
    }

    method HandleBinary(length: nat, stream: nat) returns (shown: bool)
      modifies this
      ensures Now() == Step(old(Now()), Binary(length, stream))
      ensures shown <==> length > 5 && old(streamId) == Some(stream)
    {
      if length <= 5 { return false; }
      if streamId.None? || stream != streamId.value { return false; }
      ShowFrame(Some(stream));
      return true;
    }

    method Erase(alsoStream: bool)
      modifies this
      ensures Now() == Step(old(Now()), if alsoStream then Clear else ClearPicture)
    {
      pictureGeneration := pictureGeneration + 1;
      pendingFrame := None;
      picture := false;
      log := log + [Cleared];
      if alsoStream { streamId := None; }
    }
  }
}

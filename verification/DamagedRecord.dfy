/** Moving a damaged record aside (desktop/damagedRecordRecovery.js) while another writer may change
    files before every single call, and every call may fail. */
module DamagedRecord {
  import opened Common

  // ---------- The world around the recovery ----------

  /** A time stamp of a file: not reported, reported but not a finite number, or a point in time. */
  datatype Time = Absent | NotFinite | At(ms: int)

  /** A text that parses to a record under the expected key, or any other text. */
  datatype Text = Good(content: string) | Bad(content: string)

  datatype Times = Times(modified: Time, changed: Time, born: Time)

  datatype Node = File(text: Text, times: Times) | Folder(times: Times)

  datatype Errno = ENOENT | EEXIST | NOLINKS | OTHER

  /** Before each call the other writer does one thing; the call itself may fail for its own reasons. */
  datatype Edit = Leave | Put(name: string, node: Node) | Delete(name: string)

  datatype Turn = Turn(edit: Edit, fault: Option<Errno>, clock: int)

  /** What the recovery itself did to the folder. */
  datatype Event =
    | Renamed(from: string, to: string, node: Node, overwritten: Option<Node>)
    | Linked(from: string, to: string, node: Node)
    | Copied(from: string, to: string, text: Text)
    | Unlinked(name: string, node: Node)

  datatype World = World(names: map<string, Node>, turns: seq<Turn>, log: seq<Event>)

  function Edited(names: map<string, Node>, e: Edit): map<string, Node> {
    match e
    case Leave => names
    case Put(n, node) => names[n := node]
    case Delete(n) => names - {n}
  }

  /** The state in which the next call runs. */
  function Next(w: World): World {
    if w.turns == [] then w else w.(names := Edited(w.names, w.turns[0].edit), turns := w.turns[1..])
  }

  /** A call can fail for reasons of its own, but it never says ENOENT of a name that is there. */
  function Fault(w: World): Option<Errno> {
    if w.turns == [] then None
    else if w.turns[0].fault == Some(ENOENT) then Some(OTHER)
    else w.turns[0].fault
  }

  function Clock(w: World): int { if w.turns == [] then 0 else w.turns[0].clock }

  // ---------- File system calls ----------

  function Stat(w: World, name: string): (World, Result<Node, Errno>) {
    var v := Next(w);
    (v, if Fault(w).Some? then Err(Fault(w).value)
        else if name in v.names then Ok(v.names[name]) else Err(ENOENT))
  }

  function Read(w: World, name: string): (World, Result<Text, Errno>) {
    var v := Next(w);
    (v, if Fault(w).Some? then Err(Fault(w).value)
        else if name !in v.names then Err(ENOENT)
        else if v.names[name].Folder? then Err(OTHER)
        else Ok(v.names[name].text))
  }

  /** rename: replaces a file at the new name without asking. */
  function Rename(w: World, from: string, to: string): (World, Result<(), Errno>) {
    var v := Next(w);
    if Fault(w).Some? then (v, Err(Fault(w).value))
    else if from !in v.names then (v, Err(ENOENT))
    else if to in v.names && (v.names[to].Folder? || v.names[from].Folder?) then (v, Err(OTHER))
    else
      var node := v.names[from];
      var lost := if to in v.names then Some(v.names[to]) else None;
      (v.(names := (v.names - {from})[to := node], log := v.log + [Renamed(from, to, node, lost)]), Ok(()))
  }

  function Link(w: World, from: string, to: string): (World, Result<(), Errno>) {
    var v := Next(w);
    if Fault(w).Some? then (v, Err(Fault(w).value))
    else if from !in v.names then (v, Err(ENOENT))
    else if to in v.names then (v, Err(EEXIST))
    else if v.names[from].Folder? then (v, Err(NOLINKS))
    else (v.(names := v.names[to := v.names[from]], log := v.log + [Linked(from, to, v.names[from])]), Ok(()))
  }

  /** copyFile with COPYFILE_EXCL: refuses to overwrite. */
  function Copy(w: World, from: string, to: string): (World, Result<(), Errno>) {
    var v := Next(w);
    if Fault(w).Some? then (v, Err(Fault(w).value))
    else if from !in v.names then (v, Err(ENOENT))
    else if to in v.names then (v, Err(EEXIST))
    else if v.names[from].Folder? then (v, Err(OTHER))
    else
      var t := At(Clock(w));
      (v.(names := v.names[to := File(v.names[from].text, Times(t, t, t))],
          log := v.log + [Copied(from, to, v.names[from].text)]), Ok(()))
  }

  function Unlink(w: World, name: string): (World, Result<(), Errno>) {
    var v := Next(w);
    if Fault(w).Some? then (v, Err(Fault(w).value))
    else if name !in v.names then (v, Err(ENOENT))
    else if v.names[name].Folder? then (v, Err(OTHER))
    else (v.(names := v.names - {name}, log := v.log + [Unlinked(name, v.names[name])]), Ok(()))
  }

  // ---------- The recovery ----------

  datatype Status = Missing | Fine | Damaged(text: Text) | NotAFile | Unreadable

  function Classify(w: World, path: string): (World, Status) {
    var (w1, stat) := Stat(w, path);
    if stat.Err? then (w1, if stat.error == ENOENT then Missing else Unreadable)
    else if stat.value.Folder? then (w1, NotAFile)
    else
      var (w2, text) := Read(w1, path);
      (w2, if text.Err? then (if text.error == ENOENT then Missing else Unreadable)
           else if text.value.Good? then Fine else Damaged(text.value))
  }

  const BOOT_MARGIN_MS := 300_000
  const CLOCK_DISAGREEMENT_MS := 60_000
  const EARLIEST_PLAUSIBLE_BOOT_MS := 978_307_200_000

  /** When the machine started: the kernel's record, if the clock less the uptime agrees with it. */
  function BootTime(isMac: bool, now: Time, uptimeMs: Time, kernelSeconds: Option<nat>): Time {
    if !isMac || !now.At? || !uptimeMs.At? || uptimeMs.ms <= 0 || kernelSeconds.None? then Absent
    else
      var fromKernel := kernelSeconds.value * 1000;
      if fromKernel < EARLIEST_PLAUSIBLE_BOOT_MS || fromKernel > now.ms then Absent
      else
        var apart := fromKernel - (now.ms - uptimeMs.ms);
        if apart > CLOCK_DISAGREEMENT_MS || -apart > CLOCK_DISAGREEMENT_MS then Absent else At(fromKernel)
  }

  function Later(a: int, t: Time): int { if t.At? && t.ms > a then t.ms else a }

  /** The newest of the times that are reported, all of them finite, is before the start less the margin. */
  predicate OlderThanBoot(t: Times, boot: Time, margin: int) {
    if !boot.At? || !t.modified.At? then false
    else if t.changed.NotFinite? || t.born.NotFinite? then false
    else Later(Later(t.modified.ms, t.changed), t.born) < boot.ms - margin
  }

  function PutBack(w: World, moved: string, original: string): World {
    var (w1, linked) := Link(w, moved, original);
    if linked.Ok? then Unlink(w1, moved).0
    else if linked.error != NOLINKS then w1
    else
      var (w2, copied) := Copy(w1, moved, original);
      if copied.Err? then w2 else Unlink(w2, moved).0
  }

  datatype Moved = MovedTo(name: string) | Gone | Vetoed | Failed

  /** Attempts 'attempt' to 7: the first free name gets the record; then the moved text is checked. */
  function MoveFrom(w: World, path: string, candidate: nat -> string, judged: Text, attempt: nat): (World, Moved)
    decreases 8 - attempt
  {
    if attempt >= 8 then (w, Failed) else
    var target := candidate(attempt);
    var (w1, seen) := Stat(w, target);
    if seen.Ok? then MoveFrom(w1, path, candidate, judged, attempt + 1)
    else if seen.error == EEXIST then MoveFrom(w1, path, candidate, judged, attempt + 1)
    else if seen.error != ENOENT then (w1, Failed)
    else
      var (w2, renamed) := Rename(w1, path, target);
      if renamed.Err? then
        if renamed.error == EEXIST then MoveFrom(w2, path, candidate, judged, attempt + 1)
        else (w2, if renamed.error == ENOENT then Gone else Failed)
      else
        var (w3, text) := Read(w2, target);
        if text == Ok(judged) then (w3, MovedTo(target)) else (PutBack(w3, target, path), Vetoed)
  }

  datatype Reason =
    | WasMissing | WasFine | WasUnreadable | WasNotAFile | BootTimeUnknown | TimeUnknown
    | NotOlderThanBoot | ChangedMeanwhile | MoveFailed

  datatype Outcome = Recovered(name: string) | NotRecovered(reason: Reason)

  function Recover(w: World, path: string, candidate: nat -> string, boot: Time, margin: int): (World, Outcome) {
    var (w1, status) := Classify(w, path);
    if !status.Damaged? then
      (w1, NotRecovered(match status
                        case Missing => WasMissing
                        case Fine => WasFine
                        case NotAFile => WasNotAFile
                        case _ => WasUnreadable))
    else if !boot.At? then (w1, NotRecovered(BootTimeUnknown))
    else
      var (w2, stat) := Stat(w1, path);
      if stat.Err? then (w2, NotRecovered(TimeUnknown)) else
      var times := stat.value.times;
      if !times.modified.At? then (w2, NotRecovered(TimeUnknown))
      else if !OlderThanBoot(times, boot, margin) then
        (w2, NotRecovered(if times.changed.NotFinite? || times.born.NotFinite? then TimeUnknown else NotOlderThanBoot))
      else
        var (w3, moved) := MoveFrom(w2, path, candidate, status.text, 0);
        (w3, match moved
             case MovedTo(name) => Recovered(name)
             case Gone => NotRecovered(WasMissing)
             case Vetoed => NotRecovered(ChangedMeanwhile)
             case Failed => NotRecovered(MoveFailed))
  }

  // ---------- What holds when the other writer touches only the record itself ----------

  ghost predicate OnlyTouches(turns: seq<Turn>, path: string) {
    forall k :: 0 <= k < |turns| ==> turns[k].edit.Leave? || turns[k].edit.name == path
  }

  ghost predicate NeverThePath(candidate: nat -> string, path: string) {
    forall k: nat :: candidate(k) != path
  }

  /** All names but the record's have the same content in both. */
  ghost predicate OthersSame(a: map<string, Node>, b: map<string, Node>, path: string) {
    forall n :: n != path ==> (n in a <==> n in b) && (n in a ==> a[n] == b[n])
  }

  ghost predicate Quiet(w: World, v: World, path: string) {
    OnlyTouches(v.turns, path) && OthersSame(w.names, v.names, path) && v.log == w.log
  }

  lemma OneCall(w: World, path: string)
    requires OnlyTouches(w.turns, path)
    ensures Quiet(w, Next(w), path)
  {
    if w.turns != [] {
      assert w.turns[0].edit.Leave? || w.turns[0].edit.name == path;
      forall k | 0 <= k < |Next(w).turns|
        ensures Next(w).turns[k].edit.Leave? || Next(w).turns[k].edit.name == path
      {
        assert Next(w).turns[k] == w.turns[k + 1];
      }
    }
  }

  /** What putting a file back may add to the log. */
  ghost predicate PuttingBack(tail: seq<Event>, path: string, target: string, node: Node) {
    || tail == []
    || tail == [Linked(target, path, node)]
    || tail == [Linked(target, path, node), Unlinked(target, node)]
    || (node.File? && tail == [Copied(target, path, node.text)])
    || (node.File? && tail == [Copied(target, path, node.text), Unlinked(target, node)])
  }

  /** What a call that does not fail for its own reasons answers. */
  lemma CallsAnswer(w: World, a: string, b: string)
    requires !Fails(w, 0)
    ensures var names := Next(w).names;
      && Rename(w, a, b).1 == (if a !in names then Err(ENOENT)
                               else if b in names && AFolder(names, {a, b}) then Err(OTHER) else Ok(()))
      && Link(w, a, b).1 == (if a !in names then Err(ENOENT) else if b in names then Err(EEXIST)
                             else if AFolder(names, {a}) then Err(NOLINKS) else Ok(()))
      && Copy(w, a, b).1 == (if a !in names then Err(ENOENT) else if b in names then Err(EEXIST)
                             else if AFolder(names, {a}) then Err(OTHER) else Ok(()))
      && Unlink(w, a).1 == (if a !in names then Err(ENOENT) else if AFolder(names, {a}) then Err(OTHER) else Ok(()))
  {
  }

  ghost predicate AFolder(names: map<string, Node>, among: set<string>) {
    exists n :: n in among && n in names && names[n].Folder?
  }

  /** The single effect a recovery can have: the record's content of the moment moves to a name that
      was free, and the new name is removed again only right after the content was put back. */
  ghost predicate OneMove(w: World, v: World, path: string, target: string, node: Node, tail: seq<Event>) {
    && OnlyTouches(v.turns, path) && target != path && target !in w.names
    && PuttingBack(tail, path, target, node)
    && v.log == w.log + [Renamed(path, target, node, None)] + tail
    && (if |tail| == 2 then OthersSame(w.names, v.names, path) else OthersSame(w.names[target := node], v.names, path))
  }

  lemma Chain(a: map<string, Node>, b: map<string, Node>, c: map<string, Node>, path: string)
    requires OthersSame(a, b, path) && OthersSame(b, c, path)
    ensures OthersSame(a, c, path)
  {
  }

  lemma LinkStep(w: World, from: string, path: string)
    requires OnlyTouches(w.turns, path) && from != path && from in w.names
    ensures var (v, r) := Link(w, from, path);
            OnlyTouches(v.turns, path) && OthersSame(w.names, v.names, path) && from in v.names
            && v.log == w.log + if r.Ok? then [Linked(from, path, w.names[from])] else []
  {
    hide OnlyTouches;
    OneCall(w, path);
  }

  lemma CopyStep(w: World, from: string, path: string)
    requires OnlyTouches(w.turns, path) && from != path && from in w.names
    ensures var (v, r) := Copy(w, from, path);
            OnlyTouches(v.turns, path) && OthersSame(w.names, v.names, path) && from in v.names
            && (r.Ok? ==> w.names[from].File?)
            && v.log == w.log + if r.Ok? then [Copied(from, path, w.names[from].text)] else []
  {
    hide OnlyTouches;
    OneCall(w, path);
  }

  lemma UnlinkStep(w: World, name: string, path: string)
    requires OnlyTouches(w.turns, path) && name != path && name in w.names
    ensures var (v, r) := Unlink(w, name);
            OnlyTouches(v.turns, path)
            && OthersSame(if r.Ok? then w.names - {name} else w.names, v.names, path)
            && v.log == w.log + if r.Ok? then [Unlinked(name, w.names[name])] else []
  {
    hide OnlyTouches;
    OneCall(w, path);
  }

  lemma ReadStep(w: World, name: string, path: string)
    requires OnlyTouches(w.turns, path) && name != path && name in w.names
    ensures var (v, r) := Read(w, name);
            Quiet(w, v, path) && v.names[name] == w.names[name]
            && (r.Ok? ==> w.names[name].File? && w.names[name].text == r.value)
  {
    hide OnlyTouches;
    OneCall(w, path);
  }

  lemma StatStep(w: World, name: string, path: string)
    requires OnlyTouches(w.turns, path) && name != path
    ensures var (v, r) := Stat(w, name);
            Quiet(w, v, path) && (r == Err(ENOENT) ==> name !in w.names)
  {
    hide OnlyTouches;
    OneCall(w, path);
  }

  lemma RenameStep(w: World, path: string, target: string)
    requires OnlyTouches(w.turns, path) && path != target && target !in w.names
    ensures var (v, r) := Rename(w, path, target);
            OnlyTouches(v.turns, path)
            && (r.Err? ==> Quiet(w, v, path))
            && (r.Ok? ==> target in v.names && v.log == w.log + [Renamed(path, target, v.names[target], None)]
                          && OthersSame(w.names[target := v.names[target]], v.names, path))
  {
    hide OnlyTouches;
    OneCall(w, path);
  }

  lemma PutBackIsSafe(w: World, target: string, path: string)
    requires OnlyTouches(w.turns, path) && target != path && target in w.names
    ensures var v := PutBack(w, target, path); var node := w.names[target];
            OnlyTouches(v.turns, path) && w.log <= v.log && PuttingBack(v.log[|w.log|..], path, target, node)
            && OthersSame(if |v.log| == |w.log| + 2 then w.names - {target} else w.names, v.names, path)
  {
    hide OnlyTouches, Link, Copy, Unlink;
    var node := w.names[target];
    LinkStep(w, target, path);
    var (w1, linked) := Link(w, target, path);
    if linked.Ok? {
      UnlinkStep(w1, target, path);
      var (w2, gone) := Unlink(w1, target);
      assert w2.log[|w.log|..] == [Linked(target, path, node)] + if gone.Ok? then [Unlinked(target, node)] else [];
    } else if linked.error == NOLINKS {
      CopyStep(w1, target, path);
      var (w2, copied) := Copy(w1, target, path);
      if copied.Ok? {
        UnlinkStep(w2, target, path);
        var (w3, gone) := Unlink(w2, target);
        assert w3.log[|w.log|..] == [Copied(target, path, node.text)]
                                    + if gone.Ok? then [Unlinked(target, node)] else [];
      } else {
        assert w2.log[|w.log|..] == [];
      }
    } else {
      assert w1.log[|w.log|..] == [];
    }
  }

  // ---------- Where the content ends up after a veto ----------

  ghost predicate Fails(w: World, k: nat) { k < |w.turns| && w.turns[k].fault.Some? }

  ghost predicate NoLinks(w: World, k: nat) { k < |w.turns| && w.turns[k].fault == Some(NOLINKS) }

  /** What the other writer leaves under a name by what it does before call k. */
  ghost function Rewritten(found: Option<Node>, w: World, k: nat, name: string): Option<Node> {
    if k >= |w.turns| then found
    else match w.turns[k].edit
      case Leave => found
      case Put(n, node) => if n == name then Some(node) else found
      case Delete(n) => if n == name then None else found
  }

  ghost function Under(names: map<string, Node>, name: string): Option<Node> {
    if name in names then Some(names[name]) else None
  }

  /** The calls from here on, numbered 0, 1, 2, bring the content at 'target' back under the record's name:
      by a link, or by a copy where links are refused, if the name is then free and the call does not fail. */
  ghost predicate LinksBack(w: World, target: string, path: string)
    requires target in w.names
  {
    !Fails(w, 0) && w.names[target].File? && Rewritten(Under(w.names, path), w, 0, path).None?
  }

  /** Links are refused by the file system, or because a folder was moved. */
  ghost predicate LinksRefused(w: World, target: string, path: string)
    requires target in w.names
  {
    || NoLinks(w, 0)
    || (!Fails(w, 0) && w.names[target].Folder? && Rewritten(Under(w.names, path), w, 0, path).None?)
  }

  ghost predicate CopiesBack(w: World, target: string, path: string)
    requires target in w.names
  {
    && LinksRefused(w, target, path) && !Fails(w, 1) && w.names[target].File?
    && Rewritten(Rewritten(Under(w.names, path), w, 0, path), w, 1, path).None?
  }

  /** The names in the end: the content is under the record's name exactly if it was linked or copied
      back, and no longer under its new name exactly if in addition its removal did not fail. */
  ghost predicate PutBackIfPossible(w: World, v: World, target: string, path: string)
    requires target in w.names
  {
    var node := w.names[target];
    var first := Rewritten(Under(w.names, path), w, 0, path);
    && OthersSame(w.names - {target}, v.names - {target}, path)
    && (target in v.names ==> v.names[target] == node)
    && (if LinksBack(w, target, path) then
          Under(v.names, path) == Rewritten(Some(node), w, 1, path) && (target in v.names <==> Fails(w, 1))
        else if CopiesBack(w, target, path) then
          && (target in v.names <==> Fails(w, 2))
          && exists times: Times :: Under(v.names, path) == Rewritten(Some(File(node.text, times)), w, 2, path)
        else
          && target in v.names
          && Under(v.names, path) == if LinksRefused(w, target, path) then Rewritten(first, w, 1, path) else first)
  }

  /** v goes on where w is after its first call. */
  ghost predicate GoesOn(w: World, v: World, path: string) {
    && OnlyTouches(v.turns, path)
    && (forall k: nat :: Fails(v, k) <==> Fails(w, k + 1)) && (forall k: nat :: NoLinks(v, k) <==> NoLinks(w, k + 1))
    && (forall k: nat, x :: Rewritten(x, v, k, path) == Rewritten(x, w, k + 1, path))
  }

  lemma NextGoesOn(w: World, path: string)
    requires OnlyTouches(w.turns, path)
    ensures GoesOn(w, Next(w), path) && OthersSame(w.names, Next(w).names, path)
    ensures Under(Next(w).names, path) == Rewritten(Under(w.names, path), w, 0, path)
    ensures Fault(w).Some? <==> Fails(w, 0)
    ensures Fault(w) == Some(NOLINKS) <==> NoLinks(w, 0)
  {
    OneCall(w, path);
  }

  lemma LinkEffect(w: World, target: string, path: string)
    requires OnlyTouches(w.turns, path) && target != path && target in w.names
    ensures var (v, r) := Link(w, target, path);
      && GoesOn(w, v, path) && OthersSame(w.names, v.names, path)
      && (r.Ok? <==> LinksBack(w, target, path)) && (r == Err(NOLINKS) <==> LinksRefused(w, target, path))
      && Under(v.names, path) == if r.Ok? then Some(w.names[target]) else Rewritten(Under(w.names, path), w, 0, path)
  {
    hide OnlyTouches, GoesOn, Fails, NoLinks, Rewritten, Next, Fault;
    NextGoesOn(w, path);
    var v := Next(w);
    assert target in v.names && v.names[target] == w.names[target];
    assert GoesOn(w, Link(w, target, path).0, path) by { Goes(w, v, Link(w, target, path).0, path); }
  }

  lemma Goes(w: World, v: World, u: World, path: string)
    requires GoesOn(w, v, path) && u.turns == v.turns
    ensures GoesOn(w, u, path)
  {
    forall k: nat, x ensures Rewritten(x, u, k, path) == Rewritten(x, v, k, path) {}
    assert forall k: nat :: Fails(u, k) == Fails(v, k) && NoLinks(u, k) == NoLinks(v, k);
  }

  lemma CopyEffect(w: World, target: string, path: string)
    requires OnlyTouches(w.turns, path) && target != path && target in w.names
    ensures var (v, r) := Copy(w, target, path);
      && GoesOn(w, v, path) && OthersSame(w.names, v.names, path)
      && (r.Ok? <==> w.names[target].File? && !Fails(w, 0) && Rewritten(Under(w.names, path), w, 0, path).None?)
      && (r.Err? ==> Under(v.names, path) == Rewritten(Under(w.names, path), w, 0, path))
      && (r.Ok? ==> exists times: Times :: Under(v.names, path) == Some(File(w.names[target].text, times)))
  {
    hide OnlyTouches, GoesOn, Fails, NoLinks, Rewritten, Next, Fault;
    NextGoesOn(w, path);
    var v, u := Next(w), Copy(w, target, path).0;
    assert target in v.names && v.names[target] == w.names[target];
    Goes(w, v, u, path);
    if Copy(w, target, path).1.Ok? {
      var t := At(Clock(w));
      assert Under(u.names, path) == Some(File(w.names[target].text, Times(t, t, t)));
    }
  }

  lemma UnlinkEffect(w: World, target: string, path: string)
    requires OnlyTouches(w.turns, path) && target != path && target in w.names && w.names[target].File?
    ensures var v := Unlink(w, target).0;
      && OthersSame(w.names - {target}, v.names - {target}, path)
      && (target in v.names <==> Fails(w, 0)) && (target in v.names ==> v.names[target] == w.names[target])
      && Under(v.names, path) == Rewritten(Under(w.names, path), w, 0, path)
  {
    hide OnlyTouches, GoesOn, Fails, NoLinks, Rewritten, Next, Fault;
    NextGoesOn(w, path);
  }

  /** Main result on a vetoed move: the content is put back if and only if that is possible. */
  lemma PutBackIff(w: World, target: string, path: string)
    requires OnlyTouches(w.turns, path) && target != path && target in w.names
    ensures PutBackIfPossible(w, PutBack(w, target, path), target, path)
  {
    hide OnlyTouches, Fails, NoLinks, Rewritten, Link, Copy, Unlink;
    LinkEffect(w, target, path);
    var (w1, linked) := Link(w, target, path);
    if linked.Ok? {
      UnlinkEffect(w1, target, path);
    } else if linked.error == NOLINKS {
      CopyEffect(w1, target, path);
      var (w2, copied) := Copy(w1, target, path);
      if copied.Ok? {
        UnlinkEffect(w2, target, path);
        assert Fails(w1, 1) <==> Fails(w, 2);
      }
    }
  }

  /** What a move promises of its answer. */
  ghost predicate Promised(w: World, v: World, moved: Moved, path: string, judged: Text) {
    && ((moved.Gone? || moved.Failed?) ==> Quiet(w, v, path))
    && (moved.Vetoed? ==> exists target, node, tail :: OneMove(w, v, path, target, node, tail))
    && (moved.MovedTo? ==>
          exists node: Node :: node.File? && node.text == judged && OneMove(w, v, path, moved.name, node, []))
  }

  lemma {:induction false} MoveIsSafe(w: World, path: string, candidate: nat -> string, judged: Text, attempt: nat)
    requires OnlyTouches(w.turns, path) && NeverThePath(candidate, path)
    ensures var (v, moved) := MoveFrom(w, path, candidate, judged, attempt); Promised(w, v, moved, path, judged)
    decreases 8 - attempt
  {
    hide OnlyTouches, PutBack, OneMove, Stat, Rename, Read, Promised;
    if attempt < 8 {
      var target := candidate(attempt);
      StatStep(w, target, path);
      var (w1, seen) := Stat(w, target);
      if seen.Ok? || seen.error == EEXIST {
        MoveIsSafe(w1, path, candidate, judged, attempt + 1);
        var (v, moved) := MoveFrom(w1, path, candidate, judged, attempt + 1);
        Prepend(w, w1, v, moved, path, judged);
      } else if seen.error != ENOENT {
        Untouched(w, w1, Failed, path, judged);
      } else {
        RenameStep(w1, path, target);
        var (w2, renamed) := Rename(w1, path, target);
        if renamed.Err? {
          if renamed.error == EEXIST {
            MoveIsSafe(w2, path, candidate, judged, attempt + 1);
            var (v, moved) := MoveFrom(w2, path, candidate, judged, attempt + 1);
            Prepend(w, w2, v, moved, path, judged);
          } else {
            Untouched(w, w2, if renamed.error == ENOENT then Gone else Failed, path, judged);
          }
        } else {
          AfterRename(w, path, target, judged);
        }
      }
    } else {
      Untouched(w, w, Failed, path, judged);
    }
  }

  lemma Untouched(w: World, v: World, moved: Moved, path: string, judged: Text)
    requires Quiet(w, v, path) && (moved.Gone? || moved.Failed?)
    ensures Promised(w, v, moved, path, judged)
  {
  }

  /** A quiet step before a move changes nothing of what the move promises. */
  lemma Prepend(w: World, u: World, v: World, moved: Moved, path: string, judged: Text)
    requires Quiet(w, u, path) && Promised(u, v, moved, path, judged)
    ensures Promised(w, v, moved, path, judged)
  {
    hide OnlyTouches, PuttingBack;
    forall target, node, tail | OneMove(u, v, path, target, node, tail)
      ensures OneMove(w, v, path, target, node, tail)
    {
    }
  }

  /** The attempt that renames: the text that is checked is the text that was moved. */
  lemma AfterRename(w: World, path: string, target: string, judged: Text)
    requires OnlyTouches(w.turns, path) && target != path && Stat(w, target).1 == Err(ENOENT)
    requires Rename(Stat(w, target).0, path, target).1.Ok?
    ensures var w2 := Rename(Stat(w, target).0, path, target).0;
            var (w3, text) := Read(w2, target);
            Promised(w, if text == Ok(judged) then w3 else PutBack(w3, target, path),
                     if text == Ok(judged) then MovedTo(target) else Vetoed, path, judged)
  {
    hide OnlyTouches, PutBack, PuttingBack, Stat, Rename, Read;
    StatStep(w, target, path);
    var w1 := Stat(w, target).0;
    RenameStep(w1, path, target);
    var (w2, renamed) := Rename(w1, path, target);
    var node := w2.names[target];
    ReadStep(w2, target, path);
    var (w3, text) := Read(w2, target);
    assert OthersSame(w.names[target := node], w3.names, path);
    if text == Ok(judged) {
      NoTail(path, target, node);
      assert w3.log == w.log + [Renamed(path, target, node, None)] + [];
      assert OneMove(w, w3, path, target, node, []);
    } else {
      PutBackIsSafe(w3, target, path);
      var v := PutBack(w3, target, path);
      var tail := v.log[|w3.log|..];
      assert v.log == w3.log + tail == w.log + [Renamed(path, target, node, None)] + tail;
      Chain(if |tail| == 2 then w.names else w.names[target := node],
            if |tail| == 2 then w3.names - {target} else w3.names,
            v.names, path);
      assert OneMove(w, v, path, target, node, tail);
    }
  }

  lemma NoTail(path: string, target: string, node: Node)
    ensures PuttingBack([], path, target, node)
  {
  }

  // ---------- The promises of a recovery ----------

  /** A name is only taken away right after its content was linked or copied to the record's name. */
  ghost predicate NeverDropsContent(log: seq<Event>, from: nat, path: string) {
    forall k :: from <= k < |log| && log[k].Unlinked? ==>
      from < k && (log[k - 1] == Linked(log[k].name, path, log[k].node)
                   || (log[k].node.File? && log[k - 1] == Copied(log[k].name, path, log[k].node.text)))
  }

  ghost predicate NothingOverwritten(log: seq<Event>, from: nat) {
    forall k :: from <= k < |log| && log[k].Renamed? ==> log[k].overwritten.None?
  }

  /** Whatever was renamed away is still under its new name, or was put back under the old one. */
  ghost predicate Findable(w: World, from: nat, path: string) {
    forall k :: from <= k < |w.log| && w.log[k].Renamed? ==>
      w.log[k].from == path &&
      ((w.log[k].to in w.names && w.names[w.log[k].to] == w.log[k].node)
       || (k + 1 < |w.log| &&
           (w.log[k + 1] == Linked(w.log[k].to, path, w.log[k].node)
            || (w.log[k].node.File? && w.log[k + 1] == Copied(w.log[k].to, path, w.log[k].node.text)))))
  }

  lemma OneMoveLosesNothing(w: World, v: World, path: string, target: string, node: Node, tail: seq<Event>)
    requires OneMove(w, v, path, target, node, tail)
    ensures NeverDropsContent(v.log, |w.log|, path) && NothingOverwritten(v.log, |w.log|) && Findable(v, |w.log|, path)
    ensures forall n :: n in w.names && n != path ==> n in v.names && v.names[n] == w.names[n]
  {
    var n := |w.log|;
    assert v.log[n] == Renamed(path, target, node, None);
    forall k | n < k < |v.log| ensures v.log[k] == tail[k - n - 1] {}
    if |tail| < 2 {
      assert v.names[target] == w.names[target := node][target];
    } else {
      assert v.log[n + 1] == tail[0] && v.log[n + 2] == tail[1];
    }
  }

  /** The record as it was judged, and as its age was looked up. */
  function Judged(w: World, path: string): Status { Classify(w, path).1 }

  function Dated(w: World, path: string): Result<Node, Errno> { Stat(Classify(w, path).0, path).1 }

  lemma ClassifyIsQuiet(w: World, path: string)
    requires OnlyTouches(w.turns, path)
    ensures Quiet(w, Classify(w, path).0, path)
    ensures Judged(w, path).Damaged? ==>
              Judged(w, path).text.Bad? && path in Next(Next(w)).names && Next(Next(w)).names[path].File?
              && Next(Next(w)).names[path].text == Judged(w, path).text
  {
    OneCall(w, path);
    OneCall(Next(w), path);
  }

  /** Moving aside loses nothing, whatever the other writer does to the record and whichever calls fail. */
  lemma RecoveryIsLossless(w: World, path: string, candidate: nat -> string, boot: Time, margin: int)
    requires OnlyTouches(w.turns, path) && NeverThePath(candidate, path)
    ensures var (v, outcome) := Recover(w, path, candidate, boot, margin);
            && w.log <= v.log
            && NeverDropsContent(v.log, |w.log|, path) && NothingOverwritten(v.log, |w.log|)
            && Findable(v, |w.log|, path)
            && (forall n :: n in w.names && n != path ==> n in v.names && v.names[n] == w.names[n])
            && (outcome.Recovered? || outcome.reason == ChangedMeanwhile || v.log == w.log)
  {
    hide OnlyTouches, Classify, MoveFrom, OneMove, NeverDropsContent, NothingOverwritten, Findable;
    ClassifyIsQuiet(w, path);
    var w1 := Classify(w, path).0;
    OneCall(w1, path);
    var (v, outcome) := Recover(w, path, candidate, boot, margin);
    if v.log == w.log && Quiet(w, v, path) {
      NothingLogged(v, path);
    } else {
      var w2 := Next(w1);
      var judged := Judged(w, path).text;
      MoveIsSafe(w2, path, candidate, judged, 0);
      var (u, moved) := MoveFrom(w2, path, candidate, judged, 0);
      assert v == u;
      if moved.Gone? || moved.Failed? {
        NothingLogged(v, path);
      } else {
        var target, node, tail :| OneMove(w2, u, path, target, node, tail);
        OneMoveLosesNothing(w2, u, path, target, node, tail);
        MoveExtendsLog(w2, u, path, target, node, tail);
      }
    }
  }

  lemma NothingLogged(v: World, path: string)
    ensures NeverDropsContent(v.log, |v.log|, path) && NothingOverwritten(v.log, |v.log|) && Findable(v, |v.log|, path)
  {
  }

  lemma MoveExtendsLog(w: World, v: World, path: string, target: string, node: Node, tail: seq<Event>)
    requires OneMove(w, v, path, target, node, tail)
    ensures w.log <= v.log
  {
  }

  /** "Recovered" is only said of exactly the text that was judged damaged, kept under a name that was
      free, of a file whose every reported time lies before the known start less the margin. */
  lemma RecoveredMeansKept(w: World, path: string, candidate: nat -> string, boot: Time, margin: int)
    requires OnlyTouches(w.turns, path) && NeverThePath(candidate, path)
    ensures var (v, outcome) := Recover(w, path, candidate, boot, margin);
            outcome.Recovered? ==>
              && Judged(w, path).Damaged? && Judged(w, path).text.Bad?
              && outcome.name !in w.names && outcome.name in v.names
              && v.names[outcome.name].File? && v.names[outcome.name].text == Judged(w, path).text
              && boot.At? && Dated(w, path).Ok? && OlderThanBoot(Dated(w, path).value.times, boot, margin)
  {
    hide OnlyTouches, Classify, MoveFrom, OlderThanBoot;
    ClassifyIsQuiet(w, path);
    var w1 := Classify(w, path).0;
    OneCall(w1, path);
    if Recover(w, path, candidate, boot, margin).1.Recovered? {
      MoveIsSafe(Next(w1), path, candidate, Judged(w, path).text, 0);
    }
  }

  function Stamps(t: Times): set<Time> { {t.modified, t.changed, t.born} }

  /** What "older than the start" means, time by time. */
  lemma OlderMeansEveryTime(t: Times, boot: Time, margin: int)
    ensures OlderThanBoot(t, boot, margin) <==>
              (boot.At? && t.modified.At? && forall x | x in Stamps(t) ::
                 x.Absent? || (x.At? && x.ms < boot.ms - margin))
  {
    assert t.modified in Stamps(t) && t.changed in Stamps(t) && t.born in Stamps(t);
  }

  /** The margin covers the tolerated disagreement: a file that counts as older than the start is
      older than it by four minutes on the other clock as well. */
  lemma OlderByBothClocks(t: Times, isMac: bool, now: Time, uptimeMs: Time, kernelSeconds: Option<nat>, x: Time)
    requires OlderThanBoot(t, BootTime(isMac, now, uptimeMs, kernelSeconds), BOOT_MARGIN_MS)
    requires x in Stamps(t) && !x.Absent?
    ensures isMac && now.At? && uptimeMs.At? && x.At?
    ensures x.ms < now.ms - uptimeMs.ms - 240_000 && x.ms < now.ms
  {
    OlderMeansEveryTime(t, BootTime(isMac, now, uptimeMs, kernelSeconds), BOOT_MARGIN_MS);
  }

  // ---------- A writer that also touches the new name ----------

  /** The look at the new name and the rename are two calls. Whatever the other writer does, the rename
      overwrites a file exactly when that writer puts one under the new name in between. */
  lemma RenameOverwritesIff(w: World, path: string, target: string)
    requires path != target && Stat(w, target).1 == Err(ENOENT)
    requires Rename(Stat(w, target).0, path, target).1.Ok?
    ensures var w1 := Stat(w, target).0;
            var w2 := Rename(w1, path, target).0;
            w2.log[|w2.log| - 1].overwritten.Some? <==>
              w1.turns != [] && w1.turns[0].edit.Put? && w1.turns[0].edit.name == target
  {
  }

  /** The call that renames, if a move gets that far: the world just before it, and the new name. */
  function RenameCall(w: World, path: string, candidate: nat -> string, attempt: nat): Option<(World, string)>
    decreases 8 - attempt
  {
    if attempt >= 8 then None else
    var target := candidate(attempt);
    var (w1, seen) := Stat(w, target);
    if seen.Ok? || seen.error == EEXIST then RenameCall(w1, path, candidate, attempt + 1)
    else if seen.error != ENOENT then None
    else
      var (w2, renamed) := Rename(w1, path, target);
      if renamed.Ok? then Some((w1, target))
      else if renamed.error == EEXIST then RenameCall(w2, path, candidate, attempt + 1)
      else None
  }

  /** The other writer puts a file under the new name directly before the rename. */
  predicate SlippedIn(call: Option<(World, string)>) {
    call.Some? && var (u, target) := call.value;
                  u.turns != [] && u.turns[0].edit.Put? && u.turns[0].edit.name == target
  }

  ghost predicate RenamesNothing(w: World, v: World) {
    w.log <= v.log && forall k :: |w.log| <= k < |v.log| ==> !v.log[k].Renamed?
  }

  lemma OtherCallsRenameNothing(w: World, a: string, b: string)
    ensures RenamesNothing(w, Link(w, a, b).0) && RenamesNothing(w, Copy(w, a, b).0)
            && RenamesNothing(w, Unlink(w, a).0)
  {
  }

  lemma PutBackRenamesNothing(w: World, moved: string, original: string)
    ensures RenamesNothing(w, PutBack(w, moved, original))
  {
    hide Link, Copy, Unlink;
    OtherCallsRenameNothing(w, moved, original);
    var (w1, linked) := Link(w, moved, original);
    OtherCallsRenameNothing(w1, moved, original);
    OtherCallsRenameNothing(Copy(w1, moved, original).0, moved, original);
  }

  lemma {:induction false} MoveOverwritesIff(w: World, path: string, candidate: nat -> string,
                                           judged: Text, attempt: nat)
    requires NeverThePath(candidate, path)
    ensures var v := MoveFrom(w, path, candidate, judged, attempt).0;
            !NothingOverwritten(v.log, |w.log|) <==> SlippedIn(RenameCall(w, path, candidate, attempt))
    decreases 8 - attempt
  {
    hide PutBack;
    if attempt < 8 {
      var target := candidate(attempt);
      var (w1, seen) := Stat(w, target);
      assert w1.log == w.log;
      if seen.Ok? || seen.error == EEXIST {
        MoveOverwritesIff(w1, path, candidate, judged, attempt + 1);
      } else if seen.error == ENOENT {
        var (w2, renamed) := Rename(w1, path, target);
        if renamed.Ok? {
          RenameOverwritesIff(w, path, target);
          var (w3, text) := Read(w2, target);
          assert w3.log == w2.log && |w2.log| == |w.log| + 1 && w2.log[|w.log|].Renamed?;
          PutBackRenamesNothing(w3, target, path);
          var v := if text == Ok(judged) then w3 else PutBack(w3, target, path);
          assert v.log[|w.log|] == w2.log[|w.log|];
        } else {
          assert w2.log == w.log;
          if renamed.error == EEXIST { MoveOverwritesIff(w2, path, candidate, judged, attempt + 1); }
        }
      }
    }
  }

  /** Where a recovery begins to move, if it does: a damaged record older than the known start. */
  function MoveBegins(w: World, path: string, boot: Time, margin: int): Option<World> {
    var w1 := Classify(w, path).0;
    var dated := Stat(w1, path);
    if Judged(w, path).Damaged? && dated.1.Ok? && OlderThanBoot(dated.1.value.times, boot, margin)
    then Some(dated.0) else None
  }

  /** Main result for any other writer: a recovery overwrites a file if and only if it gets to a rename and
      the other writer put a file under the new name between the look at it and that rename. */
  lemma RecoveryOverwritesIff(w: World, path: string, candidate: nat -> string, boot: Time, margin: int)
    requires NeverThePath(candidate, path)
    ensures var v := Recover(w, path, candidate, boot, margin).0;
            var begins := MoveBegins(w, path, boot, margin);
            !NothingOverwritten(v.log, |w.log|)
            <==> begins.Some? && SlippedIn(RenameCall(begins.value, path, candidate, 0))
  {
    hide MoveFrom, RenameCall, SlippedIn;
    var begins := MoveBegins(w, path, boot, margin);
    var v := Recover(w, path, candidate, boot, margin).0;
    if begins.Some? {
      assert begins.value.log == w.log;
      MoveOverwritesIff(begins.value, path, candidate, Judged(w, path).text, 0);
    } else {
      assert v.log == w.log;
    }
  }

  // ---------- How a move ends ----------

  /** The world when the moved text has been read again, the new name, and what was read. */
  function CheckCall(w: World, path: string, candidate: nat -> string): Option<(World, string, Result<Text, Errno>)> {
    match RenameCall(w, path, candidate, 0)
    case None => None
    case Some((u, target)) =>
      var (v, text) := Read(Rename(u, path, target).0, target);
      Some((v, target, text))
  }

  lemma {:induction false} MoveEndsIff(w: World, path: string, candidate: nat -> string, judged: Text, attempt: nat)
    requires OnlyTouches(w.turns, path) && NeverThePath(candidate, path)
    ensures var (v, moved) := MoveFrom(w, path, candidate, judged, attempt);
      var call := RenameCall(w, path, candidate, attempt);
      && (call.None? <==> moved.Gone? || moved.Failed?)
      && (call.Some? ==>
            var (u, target) := call.value;
            var (checked, text) := Read(Rename(u, path, target).0, target);
            && target != path && target in checked.names && OnlyTouches(checked.turns, path)
            && moved == (if text == Ok(judged) then MovedTo(target) else Vetoed)
            && if text == Ok(judged) then v == checked else PutBackIfPossible(checked, v, target, path))
    decreases 8 - attempt
  {
    hide OnlyTouches, PutBack, PutBackIfPossible, Stat, Rename, Read;
    if attempt < 8 {
      var target := candidate(attempt);
      StatStep(w, target, path);
      var (w1, seen) := Stat(w, target);
      if seen.Ok? || seen.error == EEXIST {
        MoveEndsIff(w1, path, candidate, judged, attempt + 1);
      } else if seen.error == ENOENT {
        RenameStep(w1, path, target);
        var (w2, renamed) := Rename(w1, path, target);
        if renamed.Ok? {
          ReadStep(w2, target, path);
          PutBackIff(Read(w2, target).0, target, path);
        } else if renamed.error == EEXIST {
          MoveEndsIff(w2, path, candidate, judged, attempt + 1);
        }
      }
    }
  }

  /** How a recovery that gets to its rename ends: recovered exactly when the text read again is the one
      that was judged; otherwise it says so, and the content is put back wherever that is possible. */
  lemma VetoPutsBack(w: World, path: string, candidate: nat -> string, boot: Time, margin: int)
    requires OnlyTouches(w.turns, path) && NeverThePath(candidate, path)
    ensures var (v, outcome) := Recover(w, path, candidate, boot, margin);
      var begins := MoveBegins(w, path, boot, margin);
      var call := if begins.Some? then CheckCall(begins.value, path, candidate) else None;
      && (outcome.Recovered? <==> call.Some? && call.value.2 == Ok(Judged(w, path).text))
      && (outcome == NotRecovered(ChangedMeanwhile) <==> call.Some? && call.value.2 != Ok(Judged(w, path).text))
      && (outcome == NotRecovered(ChangedMeanwhile) ==>
            var (checked, target, _) := call.value;
            && target in checked.names && PutBackIfPossible(checked, v, target, path)
            && (NothingComes(checked) && path !in checked.names && checked.names[target].File? ==>
                  && path in v.names && v.names[path] == checked.names[target]
                  && target !in v.names))
  {
    hide OnlyTouches, Classify, MoveFrom, RenameCall, Rename, Read, PutBackIfPossible, NothingComes;
    ClassifyIsQuiet(w, path);
    OneCall(Classify(w, path).0, path);
    var begins := MoveBegins(w, path, boot, margin);
    if begins.Some? {
      MoveEndsIff(begins.value, path, candidate, Judged(w, path).text, 0);
      var (v, moved) := MoveFrom(begins.value, path, candidate, Judged(w, path).text, 0);
      if moved.Vetoed? {
        var (checked, target, _) := CheckCall(begins.value, path, candidate).value;
        LeftAlone(checked, v, target, path);
      }
    }
  }

  lemma LeftAlone(w: World, v: World, target: string, path: string)
    requires target in w.names && target != path && PutBackIfPossible(w, v, target, path)
    ensures NothingComes(w) && path !in w.names && w.names[target].File? ==>
              path in v.names && v.names[path] == w.names[target] && target !in v.names
  {
  }

  ghost predicate NothingComes(w: World) {
    forall k :: 0 <= k < |w.turns| ==> w.turns[k].edit.Leave? && w.turns[k].fault.None?
  }

  // ---------- What each answer means ----------

  /** Each judgement by what is under the name at the two looks, and by whether they fail. */
  lemma JudgedIff(w: World, path: string)
    ensures var first := Rewritten(Under(w.names, path), w, 0, path);
      var second := Rewritten(first, w, 1, path);
      var read := !Fails(w, 0) && first.Some? && first.value.File?;
      var judged := Judged(w, path);
      && (judged.Missing? <==> (!Fails(w, 0) && first.None?) || (read && !Fails(w, 1) && second.None?))
      && (judged.NotAFile? <==> !Fails(w, 0) && first.Some? && first.value.Folder?)
      && (judged.Fine? <==> read && !Fails(w, 1) && second.Some? && second.value.File? && second.value.text.Good?)
      && (judged.Damaged? <==> read && !Fails(w, 1) && second.Some? && second.value.File? && second.value.text.Bad?)
      && (judged.Damaged? ==> judged.text == second.value.text)
  {
    hide Fails;
    assert Fault(w).Some? <==> Fails(w, 0) by { SeesNext(w, path); }
    assert Under(Next(w).names, path) == Rewritten(Under(w.names, path), w, 0, path) by { SeesNext(w, path); }
    var v := Next(w);
    assert Fault(v).Some? <==> Fails(w, 1) by { SeesNext(v, path); SeesLater(w, path); }
    assert Under(Next(v).names, path) == Rewritten(Under(v.names, path), w, 1, path) by {
      SeesNext(v, path);
      SeesLater(w, path);
    }
    hide Next, Rewritten;
  }

  lemma SeesNext(w: World, path: string)
    ensures Under(Next(w).names, path) == Rewritten(Under(w.names, path), w, 0, path)
    ensures Fault(w).Some? <==> Fails(w, 0)
  {
  }

  lemma SeesLater(w: World, path: string)
    ensures forall x :: Rewritten(x, Next(w), 0, path) == Rewritten(x, w, 1, path)
    ensures Fails(Next(w), 0) <==> Fails(w, 1)
  {
  }

  /** Each reason for leaving the record alone, by the judgement, the start and the times of the file. */
  lemma ReasonsIff(w: World, path: string, candidate: nat -> string, boot: Time, margin: int)
    ensures var r := Recover(w, path, candidate, boot, margin).1;
      var judged, dated := Judged(w, path), Dated(w, path);
      var known := dated.Ok? && dated.value.times.modified.At? && NotFinite !in Stamps(dated.value.times);
      var begins := MoveBegins(w, path, boot, margin);
      && (r == NotRecovered(WasFine) <==> judged.Fine?)
      && (r == NotRecovered(WasNotAFile) <==> judged.NotAFile?)
      && (r == NotRecovered(WasUnreadable) <==> judged.Unreadable?)
      && (r == NotRecovered(BootTimeUnknown) <==> judged.Damaged? && !boot.At?)
      && (r == NotRecovered(TimeUnknown) <==> judged.Damaged? && boot.At? && !known)
      && (r == NotRecovered(NotOlderThanBoot) <==>
            judged.Damaged? && boot.At? && known
            && exists x :: x in Stamps(dated.value.times) && x.At? && x.ms >= boot.ms - margin)
      && (begins.Some? <==>
            judged.Damaged? && boot.At? && known
            && forall x :: x in Stamps(dated.value.times) && x.At? ==> x.ms < boot.ms - margin)
      && (begins.Some? ==>
            var moved := MoveFrom(begins.value, path, candidate, judged.text, 0).1;
            && (r == NotRecovered(MoveFailed) <==> moved.Failed?) && (r == NotRecovered(WasMissing) <==> moved.Gone?))
      && (begins.None? ==> (r == NotRecovered(WasMissing) <==> judged.Missing?) && r != NotRecovered(MoveFailed))
  {
    hide MoveFrom, Classify;
    var dated := Dated(w, path);
    if dated.Ok? {
      OlderMeansEveryTime(dated.value.times, boot, margin);
      var t := dated.value.times;
      assert t.modified in Stamps(t) && t.changed in Stamps(t) && t.born in Stamps(t);
    }
  }

  ghost predicate NoFaults(w: World) {
    forall k :: 0 <= k < |w.turns| ==> w.turns[k].fault.None?
  }

  lemma FaultlessStat(w: World, name: string, path: string)
    requires OnlyTouches(w.turns, path) && NoFaults(w) && name != path
    ensures var (v, seen) := Stat(w, name);
      && NoFaults(v) && Quiet(w, v, path)
      && (seen.Ok? <==> name in w.names) && (seen.Err? ==> seen.error == ENOENT)
  {
    OneCall(w, path);
  }

  lemma FaultlessRename(w: World, path: string, target: string)
    requires OnlyTouches(w.turns, path) && NoFaults(w) && target != path && target !in w.names
    ensures var (v, renamed) := Rename(w, path, target);
      && (renamed.Err? ==> renamed.error == ENOENT && path !in v.names && v.log == w.log)
      && (renamed.Ok? ==> |v.log| == |w.log| + 1 && v.log[|w.log|].Renamed? && v.log[|w.log|].to == target)
  {
    OneCall(w, path);
  }

  /** When no call fails, a move takes the first new name that is free and gives up only if none of the
      eight is; "gone" is only said of a record that is gone. */
  lemma {:induction false} MoveTakesFirstFree(w: World, path: string, candidate: nat -> string,
                                              judged: Text, attempt: nat)
    requires OnlyTouches(w.turns, path) && NeverThePath(candidate, path) && NoFaults(w)
    ensures var (v, moved) := MoveFrom(w, path, candidate, judged, attempt);
      && (moved.Failed? <==> forall k: nat :: attempt <= k < 8 ==> candidate(k) in w.names)
      && (moved.Gone? ==> path !in v.names && v.log == w.log)
      && (moved.MovedTo? || moved.Vetoed? ==>
            |v.log| > |w.log| && v.log[|w.log|].Renamed?
            && (moved.MovedTo? ==> moved.name == v.log[|w.log|].to)
            && exists k: nat :: FirstFree(w, candidate, attempt, k) && v.log[|w.log|].to == candidate(k))
    decreases 8 - attempt
  {
    hide OnlyTouches, NoFaults, PutBack, Stat, Rename, RenamesNothing;
    if attempt < 8 {
      var target := candidate(attempt);
      FaultlessStat(w, target, path);
      var (w1, seen) := Stat(w, target);
      if seen.Ok? {
        MoveTakesFirstFree(w1, path, candidate, judged, attempt + 1);
        forall k: nat | FirstFree(w1, candidate, attempt + 1, k) ensures FirstFree(w, candidate, attempt, k) {}
      } else {
        FaultlessRename(w1, path, target);
        var (w2, renamed) := Rename(w1, path, target);
        if renamed.Ok? {
          assert FirstFree(w, candidate, attempt, attempt);
          var (w3, text) := Read(w2, target);
          PutBackKeepsLog(w3, target, path);
        }
      }
    }
  }

  lemma PutBackKeepsLog(w: World, target: string, path: string)
    ensures w.log <= PutBack(w, target, path).log
  {
    hide PutBack;
    PutBackRenamesNothing(w, target, path);
  }

  ghost predicate FirstFree(w: World, candidate: nat -> string, attempt: nat, k: nat) {
    attempt <= k < 8 && candidate(k) !in w.names && forall j: nat :: attempt <= j < k ==> candidate(j) in w.names
  }

  /** The start is known exactly on a Mac whose kernel names a plausible time, not in the future, that
      the clock less the uptime confirms to the minute; and then it is the kernel's. */
  lemma BootTimeIff(isMac: bool, now: Time, uptimeMs: Time, kernelSeconds: Option<nat>)
    ensures var boot := BootTime(isMac, now, uptimeMs, kernelSeconds);
      && (boot.At? <==>
            && isMac && now.At? && uptimeMs.At? && uptimeMs.ms > 0 && kernelSeconds.Some?
            && EARLIEST_PLAUSIBLE_BOOT_MS <= 1000 * kernelSeconds.value <= now.ms
            && now.ms - uptimeMs.ms - 60_000 <= 1000 * kernelSeconds.value <= now.ms - uptimeMs.ms + 60_000)
      && (boot.At? ==> boot.ms == 1000 * kernelSeconds.value)
      && !boot.NotFinite?
  {
  }

  /** Such a run: the recovery succeeds and a file that appeared under the new name is gone. */
  lemma OverwritingRun()
    ensures exists w, path, candidate, boot ::
              NeverThePath(candidate, path) && Recover(w, path, candidate, boot, BOOT_MARGIN_MS).1.Recovered?
              && !NothingOverwritten(Recover(w, path, candidate, boot, BOOT_MARGIN_MS).0.log, |w.log|)
  {
    var stamp := Times(At(0), Absent, Absent);
    var damaged := File(Bad("{"), stamp);
    var other := File(Good("kept"), stamp);
    var none := Turn(Leave, None, 0);
    var w := World(map["r" := damaged], [none, none, none, none, Turn(Put("r.damaged", other), None, 0)], []);
    var candidate: nat -> string := k => "r.damaged";
    assert NeverThePath(candidate, "r");
    var w1 := Classify(w, "r").0;
    assert w1.turns == w.turns[2..] && w1.names == w.names && Judged(w, "r") == Damaged(Bad("{"));
    var w2 := Stat(w1, "r").0;
    assert w2.turns == w.turns[3..] && w2.names == w.names;
    var w3 := Stat(w2, "r.damaged").0;
    assert w3.turns == w.turns[4..];
    var w4 := Rename(w3, "r", "r.damaged").0;
    assert w4.log == [Renamed("r", "r.damaged", damaged, Some(other))];
    assert w4.names["r.damaged"] == damaged && w4.turns == [];
    var v := Recover(w, "r", candidate, At(300_001), BOOT_MARGIN_MS).0;
    assert v.log == w4.log && v.log[0].overwritten.Some?;
    assert !NothingOverwritten(v.log, |w.log|);
  }

  // ---------- The same, step by step in place ----------

  class Recovery {
    var world: World

    constructor (w: World)
      ensures world == w
    {
      world := w;
    }

    method PutBackInPlace(moved: string, original: string)
      modifies this
      ensures world == PutBack(old(world), moved, original)
    {
      var (w1, linked) := Link(world, moved, original);
      world := w1;
      if linked.Err? {
        if linked.error != NOLINKS { return; }
        var (w2, copied) := Copy(world, moved, original);
        world := w2;
        if copied.Err? { return; }
      }
      world := Unlink(world, moved).0;
    }

    method MoveAside(path: string, candidate: nat -> string, judged: Text) returns (moved: Moved)
      modifies this
      ensures (world, moved) == MoveFrom(old(world), path, candidate, judged, 0)
    {
      var attempt := 0;
      while attempt < 8
        invariant attempt <= 8
        invariant MoveFrom(world, path, candidate, judged, attempt) == MoveFrom(old(world), path, candidate, judged, 0)
        decreases 8 - attempt
      {
        var target := candidate(attempt);
        attempt := attempt + 1;
        var (w1, seen) := Stat(world, target);
        world := w1;
        if seen.Ok? { continue; }
        if seen.error != ENOENT {
          if seen.error == EEXIST { continue; }
          return Failed;
        }
        var (w2, renamed) := Rename(world, path, target);
        world := w2;
        if renamed.Err? {
          if renamed.error == EEXIST { continue; }
          return if renamed.error == ENOENT then Gone else Failed;
        }
        var (w3, text) := Read(world, target);
        world := w3;
        if text != Ok(judged) {
          PutBackInPlace(target, path);
          return Vetoed;
        }
        return MovedTo(target);
      }
      return Failed;
    }

    method RecoverInPlace(path: string, candidate: nat -> string, boot: Time, margin: int) returns (outcome: Outcome)
      modifies this
      ensures (world, outcome) == Recover(old(world), path, candidate, boot, margin)
    {
      var (w1, status) := Classify(world, path);
      world := w1;
      match status {
        case Missing => return NotRecovered(WasMissing);
        case Fine => return NotRecovered(WasFine);
        case Unreadable => return NotRecovered(WasUnreadable);
        case NotAFile => return NotRecovered(WasNotAFile);
        case Damaged(text) =>
          if !boot.At? { return NotRecovered(BootTimeUnknown); }
          var (w2, stat) := Stat(world, path);
          world := w2;
          if stat.Err? || !stat.value.times.modified.At? { return NotRecovered(TimeUnknown); }
          var times := stat.value.times;
          if !OlderThanBoot(times, boot, margin) {
            return NotRecovered(if times.changed.NotFinite? || times.born.NotFinite?
                                then TimeUnknown else NotOlderThanBoot);
          }
          var moved := MoveAside(path, candidate, text);
          match moved {
            case MovedTo(name) => return Recovered(name);
            case Gone => return NotRecovered(WasMissing);
            case Vetoed => return NotRecovered(ChangedMeanwhile);
            case Failed => return NotRecovered(MoveFailed);
          }
      }
    }
  }
}

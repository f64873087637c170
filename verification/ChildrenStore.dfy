/** The record of child processes kept by desktop/childrenStore.js: one small file, replaced as a whole,
    and the generation counters that keep late answers from writing. */
module ChildrenStore {
  import opened Common
  import opened DurableFiles

  datatype Record = Record(
    kind: string, pid: int, port: Option<int>, startTime: Option<string>, command: Option<string>,
    unverified: bool, recordedAt: int)

  type Children = map<string, Record>

  /** A file's text: one that reads as a record of children, or any other text. */
  datatype Text = Readable(children: Children) | Unusable(text: string)

  /** What classifyRecordFile answers. */
  datatype State = Missing | Usable(children: Children) | Damaged | NotAFile | Unreadable

  function Judge(fs: Fs<Text>, found: Option<nat>): State {
    if found.None? then Missing
    else if found.value !in fs.nodes then Missing
    else match fs.nodes[found.value]
      case Folder => NotAFile
      case File(Readable(c)) => Usable(c)
      case File(Unusable(_)) => Damaged
  }

  function Current(fs: Fs<Text>, path: string): State { Judge(fs, Find(fs.names, path)) }

  /** What the file under the name holds, as far as it reads as a record. */
  ghost function Stored(fs: Fs<Text>, path: string): Children {
    if path !in fs.names || fs.names[path] !in fs.nodes then map[]
    else match fs.nodes[fs.names[path]]
      case File(Readable(children)) => children
      case _ => map[]
  }

  /** Something is under the name that does not read as a record: a person has to look at it. */
  ghost predicate Blocked(fs: Fs<Text>, path: string) {
    && path in fs.names && fs.names[path] in fs.nodes
    && (fs.nodes[fs.names[path]] == Folder || fs.nodes[fs.names[path]].text.Unusable?)
  }

  /** Each answer of the classification by what is under the name. */
  lemma ReadsAsIff(fs: Fs<Text>, path: string)
    ensures Current(fs, path) in {Damaged, NotAFile} <==> Blocked(fs, path)
    ensures Current(fs, path) == NotAFile <==>
              path in fs.names && fs.names[path] in fs.nodes && fs.nodes[fs.names[path]] == Folder
    ensures forall children :: Current(fs, path) == Usable(children) <==>
              path in fs.names && fs.names[path] in fs.nodes && fs.nodes[fs.names[path]] == File(Readable(children))
    ensures Current(fs, path) == Missing <==> path !in fs.names || fs.names[path] !in fs.nodes
  {
  }

  /** After a power cut, reading the file may give this state; unflushed content reads as anything. */
  ghost predicate MayRead(fs: Fs<Text>, path: string, state: State) {
    exists found :: MayLeadTo(fs, path, found) &&
      (state == Judge(fs, found) || (found.Some? && found.value !in fs.flushed))
  }

  ghost predicate Whole(fs: Fs<Text>, found: Option<nat>, versions: set<State>) {
    (found.Some? ==> found.value in fs.flushed && found.value < fs.next) && Judge(fs, found) in versions
  }

  /** Whatever a cut leaves is one of these versions, complete. */
  ghost predicate Covered(fs: Fs<Text>, path: string, versions: set<State>) {
    forall found :: CanBe(fs.disk, fs.pending, path, found) ==> Whole(fs, found, versions)
  }

  lemma CutLeavesAVersion(fs: Fs<Text>, path: string, versions: set<State>, state: State)
    requires Covered(fs, path, versions) && MayRead(fs, path, state)
    ensures state in versions
  {
    var found :| MayLeadTo(fs, path, found) &&
      (state == Judge(fs, found) || (found.Some? && found.value !in fs.flushed));
    MayLeadToCanBe(fs, path, found);
    assert Whole(fs, found, versions);
  }

  lemma CoveredMore(fs: Fs<Text>, path: string, fewer: set<State>, more: set<State>)
    requires Covered(fs, path, fewer) && fewer <= more
    ensures Covered(fs, path, more)
  {
    forall found | CanBe(fs.disk, fs.pending, path, found) ensures Whole(fs, found, more) {
      assert Whole(fs, found, fewer);
    }
  }

  // ---------- Each step of writeAll ----------

  lemma CoveredAlter(fs: Fs<Text>, c: Change, path: string, versions: set<State>)
    requires Covered(fs, path, versions) && !Touches(c, path)
    ensures Covered(Alter(fs, c), path, versions)
  {
    forall found | CanBe(Alter(fs, c).disk, Alter(fs, c).pending, path, found)
      ensures Whole(Alter(fs, c), found, versions)
    {
      AfterAlter(fs, c, path, found);
    }
  }

  lemma CoveredCreate(fs: Fs<Text>, name: string, empty: Text, path: string, versions: set<State>)
    requires Covered(fs, path, versions) && name != path
    ensures Covered(Create(fs, name, empty), path, versions)
  {
    var mid := fs.(nodes := fs.nodes[fs.next := File(empty)], next := fs.next + 1);
    forall found | CanBe(mid.disk, mid.pending, path, found) ensures Whole(mid, found, versions) {
      assert Whole(fs, found, versions);
    }
    CoveredAlter(mid, Link(name, fs.next), path, versions);
  }

  /** No outcome leads to this inode. */
  ghost predicate Unlinked(fs: Fs<Text>, path: string, inode: nat) {
    !CanBe(fs.disk, fs.pending, path, Some(inode))
  }

  lemma CoveredWrite(fs: Fs<Text>, inode: nat, text: Text, path: string, versions: set<State>)
    requires Covered(fs, path, versions) && Unlinked(fs, path, inode)
    ensures Covered(Write(fs, inode, text), path, versions) && Unlinked(Write(fs, inode, text), path, inode)
  {
    forall found | CanBe(fs.disk, fs.pending, path, found) ensures Whole(Write(fs, inode, text), found, versions) {
      assert Whole(fs, found, versions);
    }
  }

  lemma CoveredFlush(fs: Fs<Text>, inode: nat, path: string, versions: set<State>)
    requires Covered(fs, path, versions)
    ensures Covered(Flush(fs, inode), path, versions)
  {
    forall found | CanBe(fs.disk, fs.pending, path, found) ensures Whole(Flush(fs, inode), found, versions) {
      assert Whole(fs, found, versions);
    }
  }

  lemma CoveredRename(fs: Fs<Text>, from: string, path: string, versions: set<State>, children: Children)
    requires Covered(fs, path, versions) && from in fs.names && from != path
    requires fs.names[from] in fs.flushed && fs.names[from] < fs.next
    requires fs.names[from] in fs.nodes && fs.nodes[fs.names[from]] == File(Readable(children))
    ensures Covered(Rename(fs, from, path), path, versions + {Usable(children)})
    ensures Current(Rename(fs, from, path), path) == Usable(children)
  {
    var c := Move(from, path, fs.names[from]);
    forall found | CanBe(Alter(fs, c).disk, Alter(fs, c).pending, path, found)
      ensures Whole(Alter(fs, c), found, versions + {Usable(children)})
    {
      AfterAlter(fs, c, path, found);
    }
  }

  lemma CoveredFlushFolder(fs: Fs<Text>, path: string)
    requires path in fs.names ==> fs.names[path] in fs.flushed && fs.names[path] < fs.next
    ensures Covered(FlushFolder(fs), path, {Current(fs, path)})
  {
  }

  // ---------- One whole replacement, cut anywhere ----------

  const NOTHING: Text := Unusable("")

  ghost predicate Sound(fs: Fs<Text>, path: string, versions: set<State>) {
    Covered(fs, path, versions) && Whole(fs, Find(fs.names, path), versions)
  }

  /** The disk after the first k steps of writeAll: create, write, flush, rename, flush the folder. */
  function Replacing(fs: Fs<Text>, path: string, temporary: string, children: Children, k: nat): Fs<Text> {
    if k == 0 then fs
    else if k == 1 then Create(fs, temporary, NOTHING)
    else if k == 2 then Write(Create(fs, temporary, NOTHING), fs.next, Readable(children))
    else if k == 3 then Flush(Replacing(fs, path, temporary, children, 2), fs.next)
    else if k == 4 then
      var ready := Replacing(fs, path, temporary, children, 3);
      if temporary in ready.names then Rename(ready, temporary, path) else ready
    else FlushFolder(Replacing(fs, path, temporary, children, 4))
  }

  lemma FreshUnlinked(fs: Fs<Text>, path: string, temporary: string, versions: set<State>)
    requires Sound(fs, path, versions) && temporary != path
    ensures Unlinked(Create(fs, temporary, NOTHING), path, fs.next)
  {
    AfterAlter(fs.(nodes := fs.nodes[fs.next := File(NOTHING)], next := fs.next + 1), Link(temporary, fs.next),
               path, Some(fs.next));
  }

  /** The temporary file is ready: complete, flushed, and nothing leads to it but its own name. */
  ghost predicate Ready(fs: Fs<Text>, path: string, temporary: string, text: Text) {
    && temporary in fs.names && Unlinked(fs, path, fs.names[temporary])
    && (path in fs.names ==> fs.names[path] != fs.names[temporary])
    && fs.names[temporary] < fs.next
    && fs.names[temporary] in fs.nodes && fs.nodes[fs.names[temporary]] == File(text)
  }

  lemma SoundCreate(fs: Fs<Text>, path: string, temporary: string, versions: set<State>)
    requires Sound(fs, path, versions) && temporary != path
    ensures var t := Create(fs, temporary, NOTHING);
      && Sound(t, path, versions) && Current(t, path) == Current(fs, path)
      && Ready(t, path, temporary, NOTHING)
  {
    hide CanBe;
    CoveredCreate(fs, temporary, NOTHING, path, versions);
    FreshUnlinked(fs, path, temporary, versions);
  }

  lemma SoundWrite(fs: Fs<Text>, path: string, temporary: string, text: Text, versions: set<State>)
    requires Sound(fs, path, versions) && Ready(fs, path, temporary, NOTHING)
    ensures var t := Write(fs, fs.names[temporary], text);
      && Sound(t, path, versions) && Current(t, path) == Current(fs, path)
      && Ready(t, path, temporary, text)
  {
    hide CanBe;
    CoveredWrite(fs, fs.names[temporary], text, path, versions);
  }

  lemma SoundFlush(fs: Fs<Text>, path: string, temporary: string, text: Text, versions: set<State>)
    requires Sound(fs, path, versions) && Ready(fs, path, temporary, text)
    ensures var t := Flush(fs, fs.names[temporary]);
      && Sound(t, path, versions) && Current(t, path) == Current(fs, path)
      && Ready(t, path, temporary, text) && t.names[temporary] in t.flushed
  {
    hide CanBe;
    CoveredFlush(fs, fs.names[temporary], path, versions);
  }

  lemma SoundDrop(fs: Fs<Text>, path: string, temporary: string, versions: set<State>)
    requires Sound(fs, path, versions) && temporary != path && temporary in fs.names
    ensures Sound(Remove(fs, temporary), path, versions) && Current(Remove(fs, temporary), path) == Current(fs, path)
  {
    hide CanBe;
    CoveredAlter(fs, Drop(temporary), path, versions);
  }

  lemma SoundRename(fs: Fs<Text>, path: string, temporary: string, children: Children, versions: set<State>)
    requires Sound(fs, path, versions) && temporary != path && Ready(fs, path, temporary, Readable(children))
    requires fs.names[temporary] in fs.flushed
    ensures var t := Rename(fs, temporary, path);
      && Sound(t, path, versions + {Usable(children)}) && Current(t, path) == Usable(children)
      && temporary !in t.names
  {
    hide CanBe;
    CoveredRename(fs, temporary, path, versions, children);
  }

  lemma SoundFlushFolder(fs: Fs<Text>, path: string, versions: set<State>)
    requires Sound(fs, path, versions)
    ensures Sound(FlushFolder(fs), path, {Current(fs, path)}) && Current(FlushFolder(fs), path) == Current(fs, path)
  {
    hide CanBe;
    CoveredFlushFolder(fs, path);
  }

  /** Main result on power cuts: whenever the power goes during a replacement, and whichever unflushed
      changes are lost, the record reads as a version it could have before, or as the new one, never as
      anything half-written; once the folder is flushed only the new one is left. */
  lemma CutDuringReplacement(fs: Fs<Text>, path: string, temporary: string, children: Children,
                             versions: set<State>, k: nat, state: State)
    requires Sound(fs, path, versions) && temporary != path && k <= 5
    requires MayRead(Replacing(fs, path, temporary, children, k), path, state)
    ensures k <= 3 ==> state in versions
    ensures k == 4 ==> state in versions || state == Usable(children)
    ensures k == 5 ==> state == Usable(children)
  {
    hide CanBe, MayRead, Create, Write, Flush, FlushFolder, Rename, Covered, Current;
    var created := Create(fs, temporary, NOTHING);
    SoundCreate(fs, path, temporary, versions);
    var written := Write(created, created.names[temporary], Readable(children));
    SoundWrite(created, path, temporary, Readable(children), versions);
    var flushed := Flush(written, written.names[temporary]);
    SoundFlush(written, path, temporary, Readable(children), versions);
    TemporaryInode(fs, temporary, Readable(children));
    var renamed := Rename(flushed, temporary, path);
    SoundRename(flushed, path, temporary, children, versions);
    SoundFlushFolder(renamed, path, versions + {Usable(children)});
    assert Replacing(fs, path, temporary, children, 0) == fs && Replacing(fs, path, temporary, children, 1) == created;
    assert Replacing(fs, path, temporary, children, 2) == written;
    assert Replacing(fs, path, temporary, children, 3) == flushed;
    assert Replacing(fs, path, temporary, children, 4) == renamed;
    assert Replacing(fs, path, temporary, children, 5) == FlushFolder(renamed);
    assert k in {0, 1, 2, 3, 4, 5};
    var allowed := if k <= 3 then versions else if k == 4 then versions + {Usable(children)} else {Usable(children)};
    CutLeavesAVersion(Replacing(fs, path, temporary, children, k), path, allowed, state);
  }

  lemma TemporaryInode(fs: Fs<Text>, temporary: string, text: Text)
    ensures var created := Create(fs, temporary, NOTHING);
      && temporary in created.names && created.names[temporary] == fs.next
      && Write(created, fs.next, text).names == created.names
      && Flush(Write(created, fs.next, text), fs.next).names == created.names
  {
  }

  /** The name may lead where it led before if the newest folder change is the one that is lost. */
  lemma NewestChangeLost(fs: Fs<Text>, c: Change, path: string, found: Option<nat>)
    requires MayLeadTo(fs, path, found)
    ensures MayLeadTo(Alter(fs, c), path, found)
  {
    var keep: seq<bool> :| |keep| == |fs.pending| && Find(Survivors(fs.disk, fs.pending, keep), path) == found;
    var more := keep + [false];
    assert (fs.pending + [c])[..|fs.pending|] == fs.pending && more[..|fs.pending|] == keep;
    assert Find(Survivors(fs.disk, fs.pending + [c], more), path) == found;
  }

  /** The converse: until the folder is flushed, every version that a cut could leave before can still
      come back, however many replacements were made since. */
  lemma OlderVersionMayReturn(fs: Fs<Text>, path: string, temporary: string, children: Children,
                              versions: set<State>, k: nat, state: State)
    requires Sound(fs, path, versions) && temporary != path && k <= 4 && MayRead(fs, path, state)
    ensures MayRead(Replacing(fs, path, temporary, children, k), path, state)
  {
    hide CanBe, MayLeadTo, Effect;
    var found :| MayLeadTo(fs, path, found) &&
      (state == Judge(fs, found) || (found.Some? && found.value !in fs.flushed));
    MayLeadToCanBe(fs, path, found);
    assert Whole(fs, found, versions);
    var grown := fs.(nodes := fs.nodes[fs.next := File(NOTHING)], next := fs.next + 1);
    SameFolder(fs, grown, path, found);
    NewestChangeLost(grown, Link(temporary, fs.next), path, found);
    var created := Create(fs, temporary, NOTHING);
    var written := Write(created, fs.next, Readable(children));
    SameFolder(created, written, path, found);
    var flushed := Flush(written, fs.next);
    SameFolder(written, flushed, path, found);
    TemporaryInode(fs, temporary, Readable(children));
    NewestChangeLost(flushed, Move(temporary, path, fs.next), path, found);
    assert k in {0, 1, 2, 3, 4};
    assert Replacing(fs, path, temporary, children, 2) == written;
    assert Replacing(fs, path, temporary, children, 3) == flushed;
  }

  /** Why the new content is flushed before it is renamed: without that step a cut after the rename can
      leave anything at all under the name, however the new text was written. */
  lemma UnflushedMayReadAsAnything(fs: Fs<Text>, path: string, temporary: string, children: Children, state: State)
    requires temporary != path
    ensures var written := Write(Create(fs, temporary, NOTHING), fs.next, Readable(children));
      temporary in written.names && MayRead(Rename(written, temporary, path), path, state)
  {
    TemporaryInode(fs, temporary, Readable(children));
    var written := Write(Create(fs, temporary, NOTHING), fs.next, Readable(children));
    var t := Rename(written, temporary, path);
    var n := |t.pending| - 1;
    var keep := seq(n, _ => false) + [true];
    assert t.pending[n] == Move(temporary, path, fs.next);
    assert Find(Survivors(t.disk, t.pending, keep), path) == Some(fs.next);
    assert MayLeadTo(t, path, Some(fs.next)) && fs.next !in t.flushed;
  }

  lemma SameFolder(fs: Fs<Text>, t: Fs<Text>, path: string, found: Option<nat>)
    requires MayLeadTo(fs, path, found) && t.disk == fs.disk && t.pending == fs.pending
    ensures MayLeadTo(t, path, found)
  {
    var keep: seq<bool> :| |keep| == |fs.pending| && Find(Survivors(fs.disk, fs.pending, keep), path) == found;
    assert Find(Survivors(t.disk, t.pending, keep), path) == found;
  }

  // ---------- Going on after a cut ----------

  /** What a power cut leaves: some of the folder changes since the last flush, and the flushed content.
      All of it is on the disk then. */
  ghost predicate CutLeaves(fs: Fs<Text>, left: Fs<Text>) {
    && (exists keep: seq<bool> :: |keep| == |fs.pending| && left.disk == Survivors(fs.disk, fs.pending, keep))
    && left.names == left.disk && left.pending == [] && left.next == fs.next
    && left.nodes.Keys == fs.nodes.Keys && left.flushed >= fs.nodes.Keys + fs.flushed
    && forall i :: i in fs.nodes && i in fs.flushed ==> left.nodes[i] == fs.nodes[i]
  }

  /** A cut of a covered disk leaves a sound one again, with one of the versions that could be found, and
      that one only. */
  lemma CutKeepsSound(fs: Fs<Text>, left: Fs<Text>, path: string, versions: set<State>)
    requires Covered(fs, path, versions) && CutLeaves(fs, left)
    ensures Current(left, path) in versions && Sound(left, path, {Current(left, path)})
  {
    var keep: seq<bool> :| |keep| == |fs.pending| && left.disk == Survivors(fs.disk, fs.pending, keep);
    SurvivorsCanBe(fs.disk, fs.pending, keep, path);
    var found := Find(left.disk, path);
    assert Whole(fs, found, versions);
    assert Judge(left, found) == Judge(fs, found);
  }

  // ---------- Late answers ----------

  function Generation(generations: map<string, nat>, kind: string): nat {
    if kind in generations then generations[kind] else 0
  }

  /** What moves the generations and the file: a record call starts, a remove call is made, and the process
      of the record call begun at step 'call' is described. */
  datatype Event = Begun(kind: string, pid: int) | Removed(kind: string, only: Option<int>) | Answered(call: nat)

  function Generations(events: seq<Event>): map<string, nat> {
    if events == [] then map[]
    else
      var g := Generations(events[..|events| - 1]);
      var e := events[|events| - 1];
      if e.Answered? then g else g[e.kind := Generation(g, e.kind) + 1]
  }

  /** The record call begun at step i may write when its process is described at step j. */
  predicate MayWrite(events: seq<Event>, i: nat, j: nat)
    requires i < j <= |events| && events[i].Begun?
  {
    Generation(Generations(events[..j]), events[i].kind) == Generation(Generations(events[..i]), events[i].kind) + 1
  }

  ghost predicate Overtaken(events: seq<Event>, i: nat, j: nat)
    requires i < j <= |events| && events[i].Begun?
  {
    exists k :: i < k < j && !events[k].Answered? && events[k].kind == events[i].kind
  }

  lemma {:induction false} GenerationsGrow(events: seq<Event>, i: nat, j: nat)
    requires i < j <= |events| && events[i].Begun?
    ensures var before := Generation(Generations(events[..i]), events[i].kind);
            var now := Generation(Generations(events[..j]), events[i].kind);
            now >= before + 1 && (now == before + 1 <==> !Overtaken(events, i, j))
  {
    assert events[..j][..j - 1] == events[..j - 1] && events[..j][j - 1] == events[j - 1];
    if i < j - 1 {
      GenerationsGrow(events, i, j - 1);
      if Overtaken(events, i, j) && !Overtaken(events, i, j - 1) {
        assert !events[j - 1].Answered? && events[j - 1].kind == events[i].kind;
      }
      if !events[j - 1].Answered? && events[j - 1].kind == events[i].kind {
        assert Overtaken(events, i, j);
      }
    }
  }

  /** Main result on late answers: a record call can still write exactly when no remove and no newer
      record of the same kind came in between, whatever the order of the answers. */
  lemma NoResurrection(events: seq<Event>, i: nat, j: nat)
    requires i < j <= |events| && events[i].Begun?
    ensures MayWrite(events, i, j) <==> !Overtaken(events, i, j)
  {
    GenerationsGrow(events, i, j);
  }

  /** Every answer is that of a record call made before it. */
  ghost predicate Answers(events: seq<Event>) {
    forall j :: 0 <= j < |events| && events[j].Answered? ==> events[j].call < j && events[events[j].call].Begun?
  }

  /** What the event at step n makes of the file. */
  function AfterEvent(file: map<string, int>, events: seq<Event>, n: nat): map<string, int>
    requires n < |events| && (events[n].Answered? ==> events[n].call < n && events[events[n].call].Begun?)
  {
    match events[n]
    case Begun(_, _) => file
    case Removed(kind, only) => if kind in file && (only.None? || only.value == file[kind]) then file - {kind} else file
    case Answered(i) => if MayWrite(events, i, n) then file[events[i].kind := events[i].pid] else file
  }

  /** Which process the file names for each kind, when no write fails. */
  function Recorded(events: seq<Event>): map<string, int>
    requires Answers(events)
  {
    if events == [] then map[]
    else
      var n := |events| - 1;
      assert Answers(events[..n]) by {
        forall j | 0 <= j < n && events[..n][j].Answered?
          ensures events[..n][j].call < j && events[..n][events[..n][j].call].Begun?
        {
          assert events[..n][j] == events[j] && events[j].call < j;
        }
      }
      AfterEvent(Recorded(events[..n]), events, n)
  }

  lemma PrefixAnswers(events: seq<Event>, n: nat)
    requires Answers(events) && n <= |events|
    ensures Answers(events[..n])
  {
    forall j | 0 <= j < n && events[..n][j].Answered?
      ensures events[..n][j].call < j && events[..n][events[..n][j].call].Begun?
    {
      assert events[..n][j] == events[j] && events[j].call < j;
    }
  }

  /** No other record call is for the process of this one. */
  ghost predicate OwnProcess(events: seq<Event>, i: nat)
    requires i < |events| && events[i].Begun?
  {
    forall j :: 0 <= j < |events| && j != i ==> !(events[j].Begun? && events[j].pid == events[i].pid)
  }

  /** A process whose record call never got to write is not in the file. */
  lemma {:induction false} NeverRecorded(events: seq<Event>, i: nat, n: nat)
    requires Answers(events) && n <= |events| && i < |events| && events[i].Begun? && OwnProcess(events, i)
    requires forall j :: i < j < n && events[j] == Answered(i) ==> Overtaken(events, i, j)
    ensures Answers(events[..n]) && events[i].pid !in Recorded(events[..n]).Values
    decreases n
  {
    hide Generations, MayWrite;
    PrefixAnswers(events, n);
    if n > 0 {
      NeverRecorded(events, i, n - 1);
      var e := events[n - 1];
      assert events[..n][..n - 1] == events[..n - 1] && events[..n][n - 1] == e;
      if e == Answered(i) {
        OvertakenInPrefix(events, i, n);
        NoResurrection(events[..n], i, n - 1);
      } else if e.Answered? {
        assert events[..n][e.call] == events[e.call];
      }
    }
  }

  lemma OvertakenInPrefix(events: seq<Event>, i: nat, n: nat)
    requires i < n - 1 < |events| && events[i].Begun? && Overtaken(events, i, n - 1)
    ensures Overtaken(events[..n], i, n - 1)
  {
    var k :| i < k < n - 1 && !events[k].Answered? && events[k].kind == events[i].kind;
    assert events[..n][k] == events[k];
  }

  /** Main result on live processes: once described, a process gets into the file if and only if neither
      a newer record call nor a remove of its kind came since its call began, whatever process that
      remove names. */
  lemma RecordedIffNotOvertaken(events: seq<Event>, i: nat)
    requires Answers(events) && events != [] && events[|events| - 1] == Answered(i) && OwnProcess(events, i)
    requires forall j :: 0 <= j < |events| - 1 ==> events[j] != Answered(i)
    ensures events[i].pid in Recorded(events).Values <==> !Overtaken(events, i, |events| - 1)
  {
    hide Generations, MayWrite, Overtaken;
    var n := |events| - 1;
    NeverRecorded(events, i, n);
    NoResurrection(events, i, n);
    if MayWrite(events, i, n) {
      assert events[i].kind in Recorded(events) && Recorded(events)[events[i].kind] == events[i].pid;
    }
  }

  /** So one remove of the kind, before the description, keeps the live process out of the file for good. */
  lemma CancelledByAnyRemove(events: seq<Event>, i: nat, k: nat)
    requires Answers(events) && i < k < |events| && events[i].Begun? && OwnProcess(events, i)
    requires events[k].Removed? && events[k].kind == events[i].kind
    requires forall j :: 0 <= j <= k ==> events[j] != Answered(i)
    ensures events[i].pid !in Recorded(events).Values
  {
    hide OwnProcess, Recorded;
    NeverRecorded(events, i, |events|);
    assert events[..|events|] == events;
  }

  lemma RecordedNext(events: seq<Event>, e: Event)
    requires Answers(events + [e])
    ensures Answers(events)
    ensures Recorded(events + [e]) == AfterEvent(Recorded(events), events + [e], |events|)
  {
    PrefixAnswers(events + [e], |events|);
    assert (events + [e])[..|events|] == events;
  }

  /** Such a run, for any two processes: the newer one is live and being described when the exit of the
      older one is handled; afterwards the file names neither. */
  lemma OldExitCancelsNewRecord(kind: string, older: int, newer: int)
    requires older != newer
    ensures var first := [Begun(kind, older), Answered(0)];
            var events := first + [Begun(kind, newer)] + [Removed(kind, Some(older))] + [Answered(2)];
            Answers(first) && Recorded(first) == map[kind := older] && Answers(events) && Recorded(events) == map[]
  {
    hide Recorded, MayWrite, Generations;
    var empty: seq<Event> := [];
    var begun := empty + [Begun(kind, older)];
    var first := begun + [Answered(0)];
    assert first == [Begun(kind, older), Answered(0)];
    var second := first + [Begun(kind, newer)];
    var removed := second + [Removed(kind, Some(older))];
    var events := removed + [Answered(2)];
    RecordedNext(removed, Answered(2));
    RecordedNext(second, Removed(kind, Some(older)));
    RecordedNext(first, Begun(kind, newer));
    RecordedNext(begun, Answered(0));
    RecordedNext(empty, Begun(kind, older));
    NothingRecorded();
    NoResurrection(first, 0, 1);
    assert events[3] == Removed(kind, Some(older)) && events[2] == Begun(kind, newer);
    assert Overtaken(events, 2, 4);
    NoResurrection(events, 2, 4);
    assert Recorded(first) == map[kind := older];
    assert Recorded(removed) == map[];
  }

  lemma NothingRecorded()
    ensures Answers([]) && Recorded([]) == map[]
  {
  }

  // ---------- The store ----------

  /** Which calls fail; a failing write leaves some other text, an unflushed folder is not an error. */
  datatype Faults = Faults(
    folder: bool, open: bool, write: Option<string>, flush: bool, close: bool, rename: bool,
    folderFlushed: bool, remove: bool)
  {
    /** The record is replaced: every call up to the rename succeeds. */
    predicate Completes() { !folder && !open && write.None? && !flush && !close && !rename }

    /** The call returns without an error: the removal of the temporary file must not fail either. */
    predicate Succeeds() { Completes() && !remove }
  }

  datatype Description = Description(startTime: Option<string>, command: Option<string>)

  const MAX_SAFE_INTEGER: int := 0x1f_ffff_ffff_ffff

  predicate Replaceable(state: State) { state.Missing? || state.Usable? }

  function Loaded(state: State): Children
    requires Replaceable(state)
  {
    if state.Usable? then state.children else map[]
  }

  /** The file has an entry of this kind, for this process if one is given. */
  predicate HasRecord(state: State, kind: string, pid: Option<int>): (r: bool)
    ensures r ==> Replaceable(state)
  {
    Replaceable(state) && kind in Loaded(state) && (pid.None? || Loaded(state)[kind].pid == pid.value)
  }

  function NewRecord(kind: string, pid: int, port: Option<int>, d: Option<Description>, now: int): Record {
    var startTime := if d.Some? then d.value.startTime else None;
    Record(kind, pid, port, startTime, if d.Some? then d.value.command else None, !Given(startTime), now)
  }

  /** The file after a record call wrote: the entry of its kind says which process and port it is for and
      when, with the start time and command of its description, and is verified only by a start time; the
      entries of all other kinds are as before. */
  ghost predicate Entered(before: Children, after: Children, kind: string, pid: int, port: Option<int>,
                          d: Option<Description>, now: int) {
    && kind in after
    && (var x := after[kind];
        && x.kind == kind && x.pid == pid && x.port == port && x.recordedAt == now
        && (d.Some? ==> x.startTime == d.value.startTime && x.command == d.value.command)
        && (d.None? ==> x.startTime.None? && x.command.None?)
        && (x.unverified <==> d.None? || d.value.startTime.None? || d.value.startTime.value == ""))
    && (forall other :: other != kind ==> (other in after <==> other in before))
    && (forall other :: other != kind && other in before ==> after[other] == before[other])
  }

  /** The file after a remove call: without this kind if it was recorded for this process, or as before. */
  ghost predicate Taken(before: Children, after: Children, kind: string, pid: Option<int>) {
    && (kind in after <==> kind in before && pid.Some? && before[kind].pid != pid.value)
    && (forall other :: other in after ==> other in before && after[other] == before[other])
    && (forall other :: other != kind && other in before ==> other in after)
  }

  /** The file names, for each kind, the process that the calls so far leave it with. */
  ghost predicate Tracks(fs: Fs<Text>, path: string, events: seq<Event>) {
    && Answers(events) && !Blocked(fs, path)
    && Stored(fs, path).Keys == Recorded(events).Keys
    && forall kind :: kind in Recorded(events) ==> Stored(fs, path)[kind].pid == Recorded(events)[kind]
  }

  class Store {
    const path: string
    var fs: Fs<Text>
    var generations: map<string, nat>
    ghost var versions: set<State>
    ghost var past: seq<Fs<Text>>
    ghost var events: seq<Event>

    ghost predicate Valid()
      reads this
    {
      Sound(fs, path, versions) && generations == Generations(events)
    }

    constructor (path: string, fs: Fs<Text>, ghost versions: set<State>)
      requires Sound(fs, path, versions)
      ensures Valid() && this.path == path && this.fs == fs && this.versions == versions
      ensures generations == map[] && past == [fs] && events == []
    {
      this.path, this.fs, this.versions := path, fs, versions;
      generations, past, events := map[], [fs], [];
    }

    ghost predicate CutSafe(from: nat, allowed: set<State>)
      reads this
    {
      forall k :: from <= k < |past| ==> Covered(past[k], path, allowed)
    }

    method Become(next: Fs<Text>)
      modifies this`fs, this`past
      ensures fs == next && past == old(past) + [next]
    {
      fs := next;
      past := past + [next];
    }

    /** Best-effort removal of the temporary file, as the code does on every way out. */
    method RemoveTemporary(temporary: string, fails: bool)
      requires Valid() && temporary != path
      modifies this`fs, this`past
      ensures Valid() && old(past) <= past && CutSafe(|old(past)|, versions)
      ensures Current(fs, path) == old(Current(fs, path))
      ensures fs == if fails then old(fs) else Remove(old(fs), temporary)
    {
      hide Covered, Whole, Current;
      if !fails && temporary in fs.names {
        SoundDrop(fs, path, temporary, versions);
        Become(Remove(fs, temporary));
      }
    }

    /** Creates the temporary file, writes it and flushes it to disk. */
    method Prepare(text: Text, temporary: string, f: Faults) returns (ok: bool)
      requires Valid() && temporary != path && temporary !in fs.names
      modifies this`fs, this`past
      ensures Valid() && old(past) <= past && CutSafe(|old(past)|, versions)
      ensures Current(fs, path) == old(Current(fs, path))
      ensures ok <==> !f.open && f.write.None? && !f.flush
      ensures ok ==> Ready(fs, path, temporary, text) && fs.names[temporary] in fs.flushed
      ensures !ok && temporary in fs.names ==> !f.open
    {
      hide Covered, Whole, Current, Create, Write, Flush;
      if f.open { return false; }
      SoundCreate(fs, path, temporary, versions);
      Become(Create(fs, temporary, NOTHING));
      var written := if f.write.Some? then Unusable(f.write.value) else text;
      SoundWrite(fs, path, temporary, written, versions);
      Become(Write(fs, fs.names[temporary], written));
      if f.write.Some? || f.flush { return false; }
      SoundFlush(fs, path, temporary, text, versions);
      Become(Flush(fs, fs.names[temporary]));
      return true;
    }

    /** Moves the finished temporary file to the record's name, and flushes the folder if it can. */
    method Publish(children: Children, temporary: string, folderFlushed: bool)
      requires Valid() && temporary != path && Ready(fs, path, temporary, Readable(children))
      requires fs.names[temporary] in fs.flushed
      modifies this`fs, this`past, this`versions
      ensures Valid() && old(past) <= past && CutSafe(|old(past)|, old(versions) + {Usable(children)})
      ensures Current(fs, path) == Usable(children) && temporary !in fs.names
      ensures versions == if folderFlushed then {Usable(children)} else old(versions) + {Usable(children)}
    {
      hide Whole, Current, Judge, CanBe;
      SoundRename(fs, path, temporary, children, versions);
      versions := versions + {Usable(children)};
      Become(Rename(fs, temporary, path));
      if folderFlushed {
        SoundFlushFolder(fs, path, versions);
        CoveredMore(FlushFolder(fs), path, {Usable(children)}, versions);
        versions := {Usable(children)};
        Become(FlushFolder(fs));
      }
    }

    /** Replaces the whole record. Whatever fails and wherever the power is cut, only complete versions
        can be found afterwards. The record is the new one exactly when every call up to the rename
        succeeds; a removal that fails after that is still reported as an error. */
    method WriteAll(children: Children, temporary: string, f: Faults) returns (ok: bool)
      requires Valid() && temporary != path && temporary !in fs.names
      modifies this`fs, this`past, this`versions
      ensures Valid() && old(past) <= past
      ensures CutSafe(|old(past)|, old(versions) + {Usable(children)})
      ensures ok <==> f.Succeeds()
      ensures Current(fs, path) == if f.Completes() then Usable(children) else old(Current(fs, path))
      ensures !f.Completes() ==> versions == old(versions)
      ensures f.Completes() ==>
                versions == if f.folderFlushed then {Usable(children)} else old(versions) + {Usable(children)}
      ensures !f.remove ==> temporary !in fs.names
    {
      hide Whole, Current, CanBe, Judge;
      if f.folder { return false; }
      var prepared := Prepare(Readable(children), temporary, f);
      SafeMore(|old(past)|, versions, versions + {Usable(children)});
      if prepared && !f.close && !f.rename {
        Publish(children, temporary, f.folderFlushed);
        return !f.remove;
      }
      RemoveTemporary(temporary, f.remove);
      SafeMore(|old(past)|, versions, versions + {Usable(children)});
      return false;
    }

    lemma SafeMore(from: nat, fewer: set<State>, more: set<State>)
      requires CutSafe(from, fewer) && fewer <= more
      ensures CutSafe(from, more)
    {
      hide CanBe, Whole;
      forall k | from <= k < |past| ensures Covered(past[k], path, more) {
        CoveredMore(past[k], path, fewer, more);
      }
    }

    /** The first answer that describe gives within the allowed attempts. */
    static method Describe(answers: nat -> Option<Description>, attempts: nat) returns (d: Option<Description>)
      ensures d.None? ==> forall k :: 0 <= k < attempts ==> answers(k).None?
      ensures d.Some? ==>
                exists k :: 0 <= k < attempts && answers(k) == d && forall j :: 0 <= j < k ==> answers(j).None?
    {
      d := None;
      var attempt := 0;
      while attempt < attempts && d.None?
        invariant attempt <= attempts
        invariant d.None? ==> forall k :: 0 <= k < attempt ==> answers(k).None?
        invariant d.Some? ==>
                    exists k :: 0 <= k < attempt && answers(k) == d && forall j :: 0 <= j < k ==> answers(j).None?
      {
        d := answers(attempt);
        attempt := attempt + 1;
      }
    }

    /** record() up to its first await: takes the next generation of the kind. */
    method BeginRecord(kind: string, pid: int) returns (generation: Option<nat>)
      requires Valid()
      modifies this`generations, this`events
      ensures Valid()
      ensures generation.None? <==> kind == "" || !(0 < pid <= MAX_SAFE_INTEGER)
      ensures generation.None? ==> generations == old(generations) && events == old(events)
      ensures generation.Some? ==> events == old(events) + [Begun(kind, pid)]
                                   && generation.value == Generation(old(generations), kind) + 1
                                   && generations == old(generations)[kind := generation.value]
    {
      hide Sound;
      if kind == "" || !(0 < pid <= MAX_SAFE_INTEGER) { return None; }
      generations := generations[kind := Generation(generations, kind) + 1];
      events := events + [Begun(kind, pid)];
      assert events[..|events| - 1] == old(events);
      return Some(generations[kind]);
    }

    /** record() after the process of its call was described: writes only if its generation is still the
        latest and the file is missing or reads as a record. A call that a remove or a newer record of
        its kind has overtaken changes nothing. */
    method FinishRecord(kind: string, pid: int, port: Option<int>, generation: nat, ghost call: nat,
                        d: Option<Description>, now: int, readable: bool, temporary: string, f: Faults)
      returns (r: Option<Record>)
      requires Valid() && temporary != path && temporary !in fs.names
      requires call < |events| && events[call] == Begun(kind, pid)
      requires generation == Generation(Generations(events[..call]), kind) + 1
      modifies this`fs, this`past, this`versions, this`events
      ensures Valid() && old(past) <= past && events == old(events) + [Answered(call)]
      ensures r == if Overtaken(old(events), call, |old(events)|) then None
                else Some(NewRecord(kind, pid, port, d, now))
      ensures r.None? || !readable || !Replaceable(old(Current(fs, path))) ==>
                fs == old(fs) && past == old(past) && versions == old(versions)
      ensures Replaceable(old(Current(fs, path))) ==>
        var after := Usable(Loaded(old(Current(fs, path)))[kind := NewRecord(kind, pid, port, d, now)]);
        && CutSafe(|old(past)|, old(versions) + {after})
        && Current(fs, path) == if r.Some? && readable && f.Completes() then after else old(Current(fs, path))
      ensures Blocked(old(fs), path) ==> fs == old(fs)
      ensures if r.Some? && readable && f.Completes() && !Blocked(old(fs), path)
              then Entered(Stored(old(fs), path), Stored(fs, path), kind, pid, port, d, now)
              else Stored(fs, path) == Stored(old(fs), path)
      ensures Blocked(fs, path) <==> Blocked(old(fs), path)
      ensures Tracks(old(fs), path, old(events)) && readable && f.Completes() ==> Tracks(fs, path, events)
    {
      hide Sound, Covered, Current, Generations, Stored, Blocked, Recorded, Answers, Tracks, Entered;
      ghost var was, before := fs, events;
      AsRead(fs);
      assert events[..|events|] == events;
      NoResurrection(events, call, |events|);
      AnswerKeepsGenerations(events, call);
      events := events + [Answered(call)];
      if Generation(generations, kind) != generation {
        AnswerOnDisk(was, fs, before, call, port, d, now);
        return None;
      }
      r := Some(NewRecord(kind, pid, port, d, now));
      var state := if readable then Current(fs, path) else Unreadable;
      if Replaceable(state) {
        var _ := WriteAll(Loaded(state)[kind := r.value], temporary, f);
        AsRead(fs);
      }
      if readable && (f.Completes() || !Replaceable(state)) {
        AnswerOnDisk(was, fs, before, call, port, d, now);
      }
    }

    /** What a change of the file means for Stored and Blocked, whose definitions read the disk itself. */
    lemma AsRead(before: Fs<Text>)
      ensures Blocked(before, path) <==> !Replaceable(Current(before, path))
      ensures !Blocked(before, path) ==> Stored(before, path) == Loaded(Current(before, path))
      ensures Blocked(before, path) ==> Stored(before, path) == map[]
    {
    }

    /** An answered record call, read off the disk. */
    lemma AnswerOnDisk(was: Fs<Text>, after: Fs<Text>, events: seq<Event>, call: nat, port: Option<int>,
                       d: Option<Description>, now: int)
      requires call < |events| && events[call].Begun?
      requires if Overtaken(events, call, |events|) || !Replaceable(Current(was, path)) then after == was
               else
                 var e := events[call];
                 var record := NewRecord(e.kind, e.pid, port, d, now);
                 Current(after, path) == Usable(Loaded(Current(was, path))[e.kind := record])
      ensures Blocked(after, path) <==> Blocked(was, path)
      ensures !Overtaken(events, call, |events|) && !Blocked(was, path) ==>
                Entered(Stored(was, path), Stored(after, path), events[call].kind, events[call].pid, port, d, now)
      ensures Tracks(was, path, events) ==> Tracks(after, path, events + [Answered(call)])
    {
      hide Recorded, MayWrite, Current, Stored, Blocked;
      var t := events + [Answered(call)];
      AsRead(was);
      AsRead(after);
      if Tracks(was, path, events) {
        assert Answers(t);
        RecordedNext(events, Answered(call));
        NoResurrection(t, call, |events|);
        assert Overtaken(t, call, |events|) <==> Overtaken(events, call, |events|) by {
          assert forall k :: 0 <= k < |events| ==> t[k] == events[k];
        }
        assert t[call] == events[call];
      }
    }

    /** A remove call, read off the disk: done when the file could be read and no call failed. */
    lemma RemovalOnDisk(was: Fs<Text>, after: Fs<Text>, events: seq<Event>, kind: string, pid: Option<int>, done: bool)
      requires
        var state := Current(was, path);
        if HasRecord(state, kind, pid)
        then Current(after, path) == if done then Usable(Loaded(state) - {kind}) else state
        else after == was
      ensures Blocked(was, path) ==> after == was
      ensures HasRecord(Current(was, path), kind, pid) ==> kind in Stored(was, path)
      ensures if done && !Blocked(was, path) then Taken(Stored(was, path), Stored(after, path), kind, pid)
              else Stored(after, path) == Stored(was, path)
      ensures Blocked(after, path) <==> Blocked(was, path)
      ensures Tracks(was, path, events) && done ==> Tracks(after, path, events + [Removed(kind, pid)])
    {
      hide Recorded, Current, Stored, Blocked;
      var t := events + [Removed(kind, pid)];
      AsRead(was);
      AsRead(after);
      if Tracks(was, path, events) {
        assert Answers(t);
        RecordedNext(events, Removed(kind, pid));
      }
    }

    static lemma RemoveTakesGeneration(events: seq<Event>, kind: string, pid: Option<int>)
      ensures var g := Generations(events);
        Generations(events + [Removed(kind, pid)]) == g[kind := Generation(g, kind) + 1]
    {
      assert (events + [Removed(kind, pid)])[..|events|] == events;
    }

    static lemma AnswerKeepsGenerations(events: seq<Event>, call: nat)
      ensures Generations(events + [Answered(call)]) == Generations(events)
    {
      assert (events + [Answered(call)])[..|events|] == events;
    }

    /** The part of remove() that may throw: deletes the record of that kind and process. */
    method Delete(kind: string, pid: Option<int>, readable: bool, temporary: string, f: Faults) returns (removed: bool)
      requires Valid() && temporary != path && temporary !in fs.names
      modifies this`fs, this`past, this`versions
      ensures Valid() && old(past) <= past
      ensures var state := old(Current(fs, path));
        if readable && HasRecord(state, kind, pid) then
          CutSafe(|old(past)|, old(versions) + {Usable(Loaded(state) - {kind})})
          && Current(fs, path) == (if f.Completes() then Usable(Loaded(state) - {kind}) else state)
          && (removed <==> f.Succeeds())
        else !removed && fs == old(fs) && past == old(past) && versions == old(versions)
    {
      hide Sound, Covered, Current, HasRecord;
      var state := if readable then Current(fs, path) else Unreadable;
      removed := false;
      if HasRecord(state, kind, pid) {
        removed := WriteAll(Loaded(state) - {kind}, temporary, f);
      }
    }

    /** remove(): takes a generation in any case, and deletes the record of that kind and process. It
        answers true exactly when it did and no call failed. */
    method RemoveRecord(kind: string, pid: Option<int>, readable: bool, temporary: string, f: Faults)
      returns (removed: bool)
      requires Valid() && temporary != path && temporary !in fs.names
      modifies this
      ensures Valid() && old(past) <= past && events == old(events) + [Removed(kind, pid)]
      ensures generations == old(generations)[kind := Generation(old(generations), kind) + 1]
      ensures removed ==> readable && f.Succeeds() && kind in Stored(old(fs), path)
      ensures var state := old(Current(fs, path));
        if readable && HasRecord(state, kind, pid) then
          CutSafe(|old(past)|, old(versions) + {Usable(Loaded(state) - {kind})})
          && Current(fs, path) == (if f.Completes() then Usable(Loaded(state) - {kind}) else state)
          && (removed <==> f.Succeeds())
        else !removed && fs == old(fs) && past == old(past) && versions == old(versions)
      ensures Blocked(old(fs), path) ==> fs == old(fs)
      ensures if readable && f.Completes() && !Blocked(old(fs), path)
              then Taken(Stored(old(fs), path), Stored(fs, path), kind, pid)
              else Stored(fs, path) == Stored(old(fs), path)
      ensures Blocked(fs, path) <==> Blocked(old(fs), path)
      ensures Tracks(old(fs), path, old(events)) && readable && f.Completes() ==> Tracks(fs, path, events)
    {
      hide Sound, Current, Stored, Blocked, Taken, Tracks, HasRecord, Loaded, CutSafe, Generations, Generation;
      RemoveTakesGeneration(events, kind, pid);
      generations := generations[kind := Generation(generations, kind) + 1];
      events := events + [Removed(kind, pid)];
      removed := Delete(kind, pid, readable, temporary, f);
      RemovalOnDisk(old(fs), fs, old(events), kind, pid, readable && f.Completes());
    }

    /** The power goes at the k-th moment of this store's life, in the middle of a write or not, and the
        app starts again on what is left: the record is one of the versions allowed at that moment, and
        from then on the only one. */
    method RestartAfterCut(left: Fs<Text>, ghost k: nat, ghost allowed: set<State>)
      requires k < |past| && Covered(past[k], path, allowed) && CutLeaves(past[k], left)
      modifies this
      ensures Valid() && fs == left && Current(fs, path) in allowed && versions == {Current(fs, path)}
      ensures generations == map[] && events == [] && past == [left]
    {
      CutKeepsSound(past[k], left, path, allowed);
      fs, past, versions := left, [left], {Current(left, path)};
      generations, events := map[], [];
    }
  }
}

/** A small file system with a power switch: what programs see, and what the disk still holds after the
    power goes. A file's content survives only if it was flushed after its last write; of the folder
    changes since the last folder flush, any subset may survive. */
module DurableFiles {
  import opened Common

  datatype Node<T> = File(text: T) | Folder

  datatype Change = Link(name: string, inode: nat) | Move(from: string, to: string, inode: nat) | Drop(name: string)

  datatype Fs<T> = Fs(
    nodes: map<nat, Node<T>>, flushed: set<nat>,
    names: map<string, nat>, disk: map<string, nat>, pending: seq<Change>, next: nat)

  // ---------- What programs do ----------

  function Effect(names: map<string, nat>, c: Change): map<string, nat> {
    match c
    case Link(n, i) => names[n := i]
    case Move(a, b, i) => (names - {a})[b := i]
    case Drop(n) => names - {n}
  }

  function Alter<T>(fs: Fs<T>, c: Change): Fs<T> {
    fs.(names := Effect(fs.names, c), pending := fs.pending + [c])
  }

  function Create<T>(fs: Fs<T>, name: string, empty: T): Fs<T> {
    Alter(fs.(nodes := fs.nodes[fs.next := File(empty)], next := fs.next + 1), Link(name, fs.next))
  }

  function Write<T>(fs: Fs<T>, inode: nat, text: T): Fs<T> {
    fs.(nodes := fs.nodes[inode := File(text)], flushed := fs.flushed - {inode})
  }

  function Flush<T>(fs: Fs<T>, inode: nat): Fs<T> {
    fs.(flushed := fs.flushed + {inode})
  }

  function Rename<T>(fs: Fs<T>, from: string, to: string): Fs<T>
    requires from in fs.names
  {
    Alter(fs, Move(from, to, fs.names[from]))
  }

  function Remove<T>(fs: Fs<T>, name: string): Fs<T> {
    if name in fs.names then Alter(fs, Drop(name)) else fs
  }

  function FlushFolder<T>(fs: Fs<T>): Fs<T> {
    fs.(disk := fs.names, pending := [])
  }

  // ---------- What the power cut leaves ----------

  /** The folder on disk when exactly the marked changes made it. */
  function Survivors(disk: map<string, nat>, pending: seq<Change>, keep: seq<bool>): map<string, nat>
    requires |keep| == |pending|
  {
    if pending == [] then disk
    else
      var n := |pending| - 1;
      var before := Survivors(disk, pending[..n], keep[..n]);
      if keep[n] then Effect(before, pending[n]) else before
  }

  function Find(names: map<string, nat>, name: string): Option<nat> {
    if name in names then Some(names[name]) else None
  }

  /** After a power cut the name may lead to this inode, or to nothing. */
  ghost predicate MayLeadTo<T>(fs: Fs<T>, name: string, found: Option<nat>) {
    exists keep: seq<bool> :: |keep| == |fs.pending| && Find(Survivors(fs.disk, fs.pending, keep), name) == found
  }

  // ---------- Reachable inodes, by cases on the last change ----------

  predicate Touches(c: Change, name: string) {
    match c
    case Link(n, _) => n == name
    case Move(a, b, _) => a == name || b == name
    case Drop(n) => n == name
  }

  function Outcome(c: Change, name: string): Option<nat> {
    match c
    case Link(_, i) => Some(i)
    case Move(_, b, i) => if b == name then Some(i) else None
    case Drop(_) => None
  }

  ghost predicate CanBe(disk: map<string, nat>, pending: seq<Change>, name: string, found: Option<nat>) {
    if pending == [] then found == Find(disk, name)
    else
      var n := |pending| - 1;
      CanBe(disk, pending[..n], name, found) || (Touches(pending[n], name) && found == Outcome(pending[n], name))
  }

  lemma {:induction false} SurvivorsCanBe(disk: map<string, nat>, pending: seq<Change>, keep: seq<bool>, name: string)
    requires |keep| == |pending|
    ensures CanBe(disk, pending, name, Find(Survivors(disk, pending, keep), name))
  {
    if pending != [] {
      var n := |pending| - 1;
      SurvivorsCanBe(disk, pending[..n], keep[..n], name);
    }
  }

  lemma MayLeadToCanBe<T>(fs: Fs<T>, name: string, found: Option<nat>)
    requires MayLeadTo(fs, name, found)
    ensures CanBe(fs.disk, fs.pending, name, found)
  {
    var keep: seq<bool> :| |keep| == |fs.pending| && Find(Survivors(fs.disk, fs.pending, keep), name) == found;
    SurvivorsCanBe(fs.disk, fs.pending, keep, name);
  }

  lemma AfterAlter<T>(fs: Fs<T>, c: Change, name: string, found: Option<nat>)
    ensures CanBe(Alter(fs, c).disk, Alter(fs, c).pending, name, found)
      <==> CanBe(fs.disk, fs.pending, name, found) || (Touches(c, name) && found == Outcome(c, name))
  {
    assert (fs.pending + [c])[..|fs.pending|] == fs.pending;
  }
}

/** The append-only audit trail of system/server/src/auditLog.js: one JSON object a line, a last line
    that may be torn by a crash, and the repair when the log is opened again. */
module AuditLog {
  import opened Common
  import opened Json
  import JsonTorn

  datatype Entry = Entry(id: Text, at: Text, operator: Option<Text>, kind: Text, deviceId: Option<Text>, detail: Json)

  const ID: Text := [105, 100]
  const AT: Text := [97, 116]
  const OPERATOR: Text := [111, 112, 101, 114, 97, 116, 111, 114]
  const TYPE: Text := [116, 121, 112, 101]
  const DEVICE_ID: Text := [100, 101, 118, 105, 99, 101, 73, 100]
  const DETAIL: Text := [100, 101, 116, 97, 105, 108]

  function OrNull(t: Option<Text>): Json { if t.Some? then Str(t.value) else Null }

  function EntryMembers(e: Entry): Members {
    Member(ID, Str(e.id), Member(AT, Str(e.at), Member(OPERATOR, OrNull(e.operator),
      Member(TYPE, Str(e.kind), Member(DEVICE_ID, OrNull(e.deviceId), Member(DETAIL, e.detail, NoMembers))))))
  }

  function EntryJson(e: Entry): Json { Obj(EntryMembers(e)) }

  function EntryText(e: Entry): Text { Print(EntryJson(e)) }

  function Line(e: Entry): Text { EntryText(e) + [NEWLINE] }

  // ---------- Reading the file ----------

  /** text.split("\n") */
  function Split(t: Text): (r: seq<Text>)
    ensures |r| >= 1
  {
    if t == [] then [[]]
    else
      var rest := Split(t[1..]);
      if t[0] == NEWLINE then [[]] + rest else [[t[0]] + rest[0]] + rest[1..]
  }

  /** Whether JavaScript's Boolean() of the value is true. */
  predicate Truthy(v: Json) {
    match v
    case Null => false
    case Bool(b) => b
    case Number(t) => exists k :: 0 <= k < |t| && 49 <= t[k] <= 57 && forall j :: 0 <= j < k ==> t[j] !in {69, 101}
    case Str(s) => s != []
    case _ => true
  }

  ghost predicate HasExponent(t: Text) { exists k :: 0 <= k < |t| && t[k] in {69, 101} }

  /** A digit other than zero, before any exponent. */
  ghost predicate HasDigit(t: Text) {
    exists k :: 0 <= k < |t| && 49 <= t[k] <= 57 && !HasExponent(t[..k])
  }

  /** The number written by the digits before the exponent, its sign and point left out. */
  ghost function Mantissa(t: Text): nat
    decreases |t|
  {
    if t == [] then 0
    else
      var n := |t| - 1;
      if HasExponent(t) || !(48 <= t[n] <= 57) then Mantissa(t[..n])
      else 10 * Mantissa(t[..n]) + (t[n] as int - 48)
  }

  /** Exactly null, false, zero and the empty text are not true. */
  lemma FalsyIs(v: Json)
    ensures !Truthy(v) <==> v == Null || v == Bool(false) || v == Str([]) || (v.Number? && Mantissa(v.token) == 0)
  {
    if v.Number? {
      NotZeroIff(v.token);
      DigitIff(v.token);
    }
  }

  lemma {:induction false} NotZeroIff(t: Text)
    ensures Mantissa(t) != 0 <==> HasDigit(t)
    decreases |t|
  {
    hide HasExponent;
    if t != [] {
      var n := |t| - 1;
      NotZeroIff(t[..n]);
      forall k | 0 <= k < n ensures t[..n][..k] == t[..k] {}
      assert HasDigit(t) <==> HasDigit(t[..n]) || (49 <= t[n] <= 57 && !HasExponent(t[..n])) by {
        if HasDigit(t[..n]) {
          var k :| 0 <= k < n && 49 <= t[..n][k] <= 57 && !HasExponent(t[..n][..k]);
          assert t[k] == t[..n][k];
        }
        if HasDigit(t) {
          var k :| 0 <= k < |t| && 49 <= t[k] <= 57 && !HasExponent(t[..k]);
          if k < n { assert t[..n][k] == t[k]; }
        }
      }
      LastExponent(t);
    }
  }

  lemma LastExponent(t: Text)
    requires t != []
    ensures HasExponent(t) <==> HasExponent(t[..|t| - 1]) || t[|t| - 1] in {69, 101}
  {
    var n := |t| - 1;
    if HasExponent(t[..n]) {
      var k :| 0 <= k < n && t[..n][k] in {69, 101};
      assert t[k] in {69, 101};
    }
    if HasExponent(t) {
      var k :| 0 <= k < |t| && t[k] in {69, 101};
      if k < n { assert t[..n][k] in {69, 101}; }
    }
  }

  lemma DigitIff(t: Text)
    ensures HasDigit(t) <==>
      exists k :: 0 <= k < |t| && 49 <= t[k] <= 57 && forall j :: 0 <= j < k ==> t[j] !in {69, 101}
  {
    forall k | 0 <= k < |t| ensures !HasExponent(t[..k]) <==> forall j :: 0 <= j < k ==> t[j] !in {69, 101} {
      if !HasExponent(t[..k]) {
        forall j | 0 <= j < k ensures t[j] !in {69, 101} { assert t[..k][j] == t[j]; }
      }
    }
  }

  /** What one line contributes: nothing when it is empty, does not parse, or is a falsy value. */
  function LineEvents(line: Text): seq<Json> {
    if line == [] then []
    else
      var v := Parse(line);
      if v.Some? && Truthy(v.value) then [v.value] else []
  }

  /** A line counts exactly when it parses to a value that is not null, false, zero or the empty text. */
  lemma LineCounts(line: Text)
    ensures var v := Parse(line);
      LineEvents(line) == if line == [] || v.None? || v.value in {Null, Bool(false), Str([])}
                             || (v.value.Number? && Mantissa(v.value.token) == 0) then [] else [v.value]
  {
    if line != [] && Parse(line).Some? { FalsyIs(Parse(line).value); }
  }

  function AllEvents(lines: seq<Text>): seq<Json> {
    if lines == [] then [] else LineEvents(lines[0]) + AllEvents(lines[1..])
  }

  /** The member a property access finds: the last one with that name. */
  function Field(m: Members, key: Text): Option<Json> {
    if m.NoMembers? then None
    else
      var later := Field(m.others, key);
      if later.Some? then later else if m.key == key then Some(m.value) else None
  }

  predicate Wanted(v: Json, key: Text, wanted: Option<Text>) {
    wanted.None? || wanted.value == [] || (v.Obj? && Field(v.members, key) == Some(Str(wanted.value)))
  }

  ghost function Ascii(s: string): Text {
    seq(|s|, i requires 0 <= i < |s| => if s[i] as int < 128 then s[i] as int else 0)
  }

  ghost predicate HasFields(m: Members, e: Entry) {
    && Field(m, Ascii("id")) == Some(Str(e.id)) && Field(m, Ascii("at")) == Some(Str(e.at))
    && Field(m, Ascii("operator")) == Some(if e.operator.Some? then Str(e.operator.value) else Null)
    && Field(m, Ascii("type")) == Some(Str(e.kind))
    && Field(m, Ascii("deviceId")) == Some(if e.deviceId.Some? then Str(e.deviceId.value) else Null)
    && Field(m, Ascii("detail")) == Some(e.detail)
  }

  lemma KeysSpelled()
    ensures ID == Ascii("id") && AT == Ascii("at") && OPERATOR == Ascii("operator") && TYPE == Ascii("type")
    ensures DEVICE_ID == Ascii("deviceId") && DETAIL == Ascii("detail")
  {
  }

  /** Whoever reads a line back finds each part of the entry under its name, and a missing operator or
      device as null. */
  lemma EntryReadsBack(e: Entry)
    requires Printable(e.detail)
    ensures var v := Parse(EntryText(e)); v.Some? && v.value.Obj? && HasFields(v.value.members, e)
  {
    hide Ascii, Parse, Print, Field, ID, AT, OPERATOR, TYPE, DEVICE_ID, DETAIL;
    KeysSpelled();
    KeysDiffer();
    EntryPrintable(e);
    ParseUndoesPrint(EntryJson(e));
    var m6 := Member(DETAIL, e.detail, NoMembers);
    var m5 := Member(DEVICE_ID, OrNull(e.deviceId), m6);
    var m4 := Member(TYPE, Str(e.kind), m5);
    var m3 := Member(OPERATOR, OrNull(e.operator), m4);
    var m2 := Member(AT, Str(e.at), m3);
    assert EntryMembers(e) == Member(ID, Str(e.id), m2);
    FieldOf(DETAIL, e.detail, NoMembers);
    FieldOf(DEVICE_ID, OrNull(e.deviceId), m6);
    FieldOf(TYPE, Str(e.kind), m5);
    FieldOf(OPERATOR, OrNull(e.operator), m4);
    FieldOf(AT, Str(e.at), m3);
    FieldOf(ID, Str(e.id), m2);
  }

  lemma FieldOf(key: Text, value: Json, others: Members)
    ensures forall k :: Field(Member(key, value, others), k)
              == if Field(others, k).Some? then Field(others, k) else if key == k then Some(value) else None
    ensures others.NoMembers? ==> forall k :: Field(others, k) == None
  {
  }

  lemma KeysDiffer()
    ensures ID !in {AT, OPERATOR, TYPE, DEVICE_ID, DETAIL} && AT !in {OPERATOR, TYPE, DEVICE_ID, DETAIL}
    ensures OPERATOR !in {TYPE, DEVICE_ID, DETAIL} && TYPE !in {DEVICE_ID, DETAIL} && DEVICE_ID != DETAIL
  {
    assert |ID| == 2 && |AT| == 2 && ID[0] != AT[0];
    assert |OPERATOR| == 8 && |DEVICE_ID| == 8 && OPERATOR[0] != DEVICE_ID[0];
    assert |TYPE| == 4 && |DETAIL| == 6;
  }

  function Filter(events: seq<Json>, operator: Option<Text>, deviceId: Option<Text>): seq<Json> {
    if events == [] then []
    else
      var rest := Filter(events[1..], operator, deviceId);
      if Wanted(events[0], OPERATOR, operator) && Wanted(events[0], DEVICE_ID, deviceId)
      then [events[0]] + rest else rest
  }

  function Reverse<T>(s: seq<T>): (r: seq<T>)
    ensures |r| == |s|
    ensures forall k :: 0 <= k < |s| ==> r[k] == s[|s| - 1 - k]
  {
    if s == [] then [] else Reverse(s[1..]) + [s[0]]
  }

  /** events.slice(0, limit): a negative limit counts from the end. */
  function Slice<T>(s: seq<T>, limit: int): seq<T> {
    if limit >= |s| then s
    else if limit >= 0 then s[..limit]
    else if |s| + limit > 0 then s[..|s| + limit]
    else []
  }

  /** The first 'limit', or all but the last '-limit'. */
  lemma SliceIs<T>(s: seq<T>, limit: int)
    ensures Slice(s, limit) <= s
    ensures limit >= 0 ==> |Slice(s, limit)| == if limit < |s| then limit else |s|
    ensures limit < 0 ==> |Slice(s, limit)| == if -limit < |s| then |s| - -limit else 0
  {
  }

  function Events(file: Option<Text>): seq<Json> {
    if file.None? then [] else AllEvents(Split(file.value))
  }

  function List(file: Option<Text>, operator: Option<Text>, deviceId: Option<Text>, limit: int): seq<Json> {
    Slice(Reverse(Filter(Events(file), operator, deviceId)), limit)
  }

  // ---------- Writing the file ----------

  function Append(file: Option<Text>, t: Text): Option<Text> {
    Some((if file.Some? then file.value else []) + t)
  }

  /** Opening closes a torn last line. */
  function Repair(file: Option<Text>): Option<Text> {
    if file.Some? && file.value != [] && file.value[|file.value| - 1] != NEWLINE then Append(file, [NEWLINE]) else file
  }

  class Log {
    var file: Option<Text>

    constructor (existing: Option<Text>)
      ensures file == Repair(existing)
    {
      file := existing;
      new;
      if file.Some? {
        var size := |file.value|;
        if size > 0 && file.value[size - 1] != 10 {
          file := Some(file.value + [10]);
        }
      }
    }

    method LogEvent(id: Text, at: Text, operator: Option<Text>, kind: Text, deviceId: Option<Text>, detail: Json)
      returns (entry: Entry)
      modifies this
      ensures entry == Entry(id, at, operator, kind, deviceId, detail)
      ensures file == Append(old(file), Line(entry))
    {
      entry := Entry(id, at, operator, kind, deviceId, detail);
      file := Some((if file.Some? then file.value else []) + (Print(EntryJson(entry)) + [10]));
    }

    /** The filtered events, reversed in place to put the newest first, and cut to the limit. */
    method ListEvents(operator: Option<Text>, deviceId: Option<Text>, limit: int) returns (r: seq<Json>)
      ensures r == List(file, operator, deviceId, limit)
    {
      hide Filter, Events, Slice, Reverse;
      var kept := Filter(Events(file), operator, deviceId);
      var a := new Json[|kept|](i requires 0 <= i < |kept| => kept[i]);
      assert a[..] == kept;
      ReverseInPlace(a);
      r := Slice(a[..], limit);
    }
  }

  method ReverseInPlace(a: array<Json>)
    modifies a
    ensures a[..] == Reverse(old(a[..]))
  {
    var n, i := a.Length, 0;
    while i < n / 2
      invariant 0 <= i <= n / 2
      invariant forall k :: 0 <= k < i || n - i <= k < n ==> a[k] == old(a[n - 1 - k])
      invariant forall k :: i <= k < n - i ==> a[k] == old(a[k])
    {
      a[i], a[n - 1 - i] := a[n - 1 - i], a[i];
      i := i + 1;
    }
  }

  // ---------- Any history of processes and crashes ----------

  /** One process: the events it logged, and possibly a last append of which only some bytes arrived. */
  datatype Life = Life(logged: seq<Entry>, cut: Option<(Entry, nat)>)

  predicate LifeOk(l: Life) {
    && (forall e :: e in l.logged ==> Printable(e.detail))
    && (l.cut.Some? ==> Printable(l.cut.value.0.detail) && l.cut.value.1 <= |Line(l.cut.value.0)|)
  }

  function AppendAll(file: Option<Text>, es: seq<Entry>): Option<Text>
    decreases |es|
  {
    if es == [] then file else AppendAll(Append(file, Line(es[0])), es[1..])
  }

  function LiveOnce(file: Option<Text>, l: Life): Option<Text>
    requires LifeOk(l)
  {
    var whole := AppendAll(Repair(file), l.logged);
    if l.cut.None? then whole else Append(whole, Line(l.cut.value.0)[..l.cut.value.1])
  }

  function FileAfter(lives: seq<Life>): Option<Text>
    requires forall l :: l in lives ==> LifeOk(l)
  {
    if lives == [] then None
    else LiveOnce(FileAfter(lives[..|lives| - 1]), lives[|lives| - 1])
  }

  /** What must be found again: every event written in full, and a cut one when its whole JSON text
      had reached the file. */
  function Kept(l: Life): seq<Entry>
    requires LifeOk(l)
  {
    l.logged + if l.cut.Some? && l.cut.value.1 >= |EntryText(l.cut.value.0)| then [l.cut.value.0] else []
  }

  function AllKept(lives: seq<Life>): seq<Entry>
    requires forall l :: l in lives ==> LifeOk(l)
  {
    if lives == [] then [] else AllKept(lives[..|lives| - 1]) + Kept(lives[|lives| - 1])
  }

  function Jsons(es: seq<Entry>): seq<Json> {
    if es == [] then [] else [EntryJson(es[0])] + Jsons(es[1..])
  }

  // ---------- Lines ----------

  lemma {:induction false} SplitAtNewline(a: Text, b: Text)
    ensures Split(a + [NEWLINE] + b) == Split(a) + Split(b)
  {
    var t := a + [NEWLINE] + b;
    if a == [] {
      assert t[1..] == b;
    } else {
      assert t[1..] == a[1..] + [NEWLINE] + b;
      SplitAtNewline(a[1..], b);
    }
  }

  lemma {:induction false} SplitOneLine(t: Text)
    requires OneLine(t)
    ensures Split(t) == [t]
  {
    if t != [] {
      SplitOneLine(t[1..]);
      assert [t[0]] + t[1..] == t;
    }
  }

  lemma {:induction false} AllEventsAppend(x: seq<Text>, y: seq<Text>)
    ensures AllEvents(x + y) == AllEvents(x) + AllEvents(y)
  {
    hide LineEvents;
    if x == [] {
      assert x + y == y;
    } else {
      assert (x + y)[1..] == x[1..] + y;
      AllEventsAppend(x[1..], y);
    }
  }

  ghost predicate Closed(t: Text) { t == [] || t[|t| - 1] == NEWLINE }

  /** Appending to a closed file adds exactly what the new line contributes. */
  lemma AppendToClosed(t: Text, line: Text)
    requires Closed(t) && OneLine(line)
    ensures AllEvents(Split(t + line)) == AllEvents(Split(t)) + LineEvents(line)
  {
    hide LineEvents, Split;
    SplitOneLine(line);
    OneLineEvents(line);
    if t == [] {
      assert t + line == line;
      SplitOneLine([]);
      OneLineEvents([]);
      EmptyLine();
    } else {
      var a := t[..|t| - 1];
      assert t + line == a + [NEWLINE] + line && t == a + [NEWLINE] + [];
      SplitAtNewline(a, line);
      SplitAtNewline(a, []);
      SplitOneLine([]);
      OneLineEvents([]);
      EmptyLine();
      AllEventsAppend(Split(a), [line]);
      AllEventsAppend(Split(a), [[]]);
    }
  }

  lemma EmptyLine()
    ensures LineEvents([]) == []
  {
  }

  lemma OneLineEvents(line: Text)
    ensures AllEvents([line]) == LineEvents(line)
  {
    assert [line][1..] == [];
  }

  /** A newline at the end of the file contributes nothing. */
  lemma NewlineAddsNothing(t: Text)
    ensures AllEvents(Split(t + [NEWLINE])) == AllEvents(Split(t))
  {
    hide LineEvents, Split;
    assert t + [NEWLINE] == t + [NEWLINE] + [];
    SplitAtNewline(t, []);
    SplitOneLine([]);
    OneLineEvents([]);
    EmptyLine();
    AllEventsAppend(Split(t), [[]]);
  }

  // ---------- Entries ----------

  lemma EntryPrintable(e: Entry)
    requires Printable(e.detail)
    ensures Printable(EntryJson(e)) && PrintableMembers(EntryMembers(e))
  {
    var m6 := Member(DETAIL, e.detail, NoMembers);
    var m5 := Member(DEVICE_ID, OrNull(e.deviceId), m6);
    var m4 := Member(TYPE, Str(e.kind), m5);
    var m3 := Member(OPERATOR, OrNull(e.operator), m4);
    assert PrintableMembers(m6);
    assert PrintableMembers(m5);
    assert PrintableMembers(m4);
    assert PrintableMembers(m3);
    assert PrintableMembers(Member(AT, Str(e.at), m3));
  }

  lemma EntryTextFacts(e: Entry)
    requires Printable(e.detail)
    ensures OneLine(EntryText(e)) && EntryText(e) != []
    ensures LineEvents(EntryText(e)) == [EntryJson(e)]
  {
    hide Print, Parse, Printable;
    EntryPrintable(e);
    PrintIsOneLine(EntryJson(e));
    ParseUndoesPrint(EntryJson(e));
    ReadsBack(EntryJson(e), []);
  }

  /** A torn entry contributes nothing unless its whole text arrived. */
  lemma TornEntry(e: Entry, n: nat)
    requires Printable(e.detail) && n < |EntryText(e)|
    ensures LineEvents(EntryText(e)[..n]) == []
  {
    hide Print, Parse, Printable, EntryMembers;
    EntryPrintable(e);
    NoProperPrefixParses(EntryMembers(e), n);
  }

  // ---------- Whole histories ----------

  ghost predicate ClosedFile(file: Option<Text>) { file.None? || Closed(file.value) }

  lemma EmptyFile()
    ensures AllEvents(Split([])) == []
  {
    assert Split([])[1..] == [];
  }

  lemma AppendEvents(file: Option<Text>, line: Text)
    requires ClosedFile(file) && OneLine(line)
    ensures Events(Append(file, line)) == Events(file) + LineEvents(line)
  {
    hide LineEvents, Split, AllEvents;
    AppendToClosed(if file.Some? then file.value else [], line);
    EmptyFile();
  }

  lemma RepairEvents(file: Option<Text>)
    ensures ClosedFile(Repair(file)) && Events(Repair(file)) == Events(file)
  {
    hide LineEvents, Split, AllEvents;
    if file.Some? {
      NewlineAddsNothing(file.value);
    }
  }

  lemma LineKept(file: Option<Text>, e: Entry)
    requires ClosedFile(file) && Printable(e.detail)
    ensures ClosedFile(Append(file, Line(e))) && Events(Append(file, Line(e))) == Events(file) + [EntryJson(e)]
  {
    hide LineEvents, Split, AllEvents, EntryText, Printable;
    var t := Append(file, EntryText(e)).value;
    assert Append(file, Line(e)).value == t + [NEWLINE];
    EntryTextFacts(e);
    AppendEvents(file, EntryText(e));
    NewlineAddsNothing(t);
  }

  lemma {:induction false} AllLinesKept(file: Option<Text>, es: seq<Entry>)
    requires ClosedFile(file) && forall e :: e in es ==> Printable(e.detail)
    ensures ClosedFile(AppendAll(file, es)) && Events(AppendAll(file, es)) == Events(file) + Jsons(es)
    decreases |es|
  {
    hide Events, Printable, ClosedFile, Append;
    if es != [] {
      LineKept(file, es[0]);
      AllLinesKept(Append(file, Line(es[0])), es[1..]);
      assert Events(file) + Jsons(es) == Events(file) + [EntryJson(es[0])] + Jsons(es[1..]);
    }
  }

  lemma CutLine(file: Option<Text>, e: Entry, n: nat)
    requires ClosedFile(file) && Printable(e.detail) && n <= |Line(e)|
    ensures Events(Append(file, Line(e)[..n]))
         == Events(file) + if n >= |EntryText(e)| then [EntryJson(e)] else []
  {
    hide LineEvents, Split, AllEvents, EntryText, Printable, Events, Append, ClosedFile;
    EntryTextFacts(e);
    if n == |Line(e)| {
      assert Line(e)[..n] == Line(e);
      LineKept(file, e);
    } else {
      assert Line(e)[..n] == EntryText(e)[..n];
      AppendEvents(file, EntryText(e)[..n]);
      if n == |EntryText(e)| {
        assert EntryText(e)[..n] == EntryText(e);
      } else {
        TornEntry(e, n);
      }
    }
  }

  lemma {:induction false} JsonsAppend(x: seq<Entry>, y: seq<Entry>)
    ensures Jsons(x + y) == Jsons(x) + Jsons(y)
  {
    hide EntryJson;
    if x == [] {
      assert x + y == y;
    } else {
      assert (x + y)[1..] == x[1..] + y;
      JsonsAppend(x[1..], y);
    }
  }

  lemma OneJson(e: Entry)
    ensures Jsons([e]) == [EntryJson(e)]
  {
    assert [e][1..] == [];
  }

  lemma LifeKeeps(file: Option<Text>, l: Life)
    requires LifeOk(l)
    ensures Events(LiveOnce(file, l)) == Events(file) + Jsons(Kept(l))
  {
    hide Events, Printable, ClosedFile, Append, Repair, EntryText, Jsons;
    RepairEvents(file);
    AllLinesKept(Repair(file), l.logged);
    var whole := AppendAll(Repair(file), l.logged);
    if l.cut.Some? {
      var e, n := l.cut.value.0, l.cut.value.1;
      CutLine(whole, e, n);
      if n >= |EntryText(e)| {
        JsonsAppend(l.logged, [e]);
        OneJson(e);
      }
    }
    assert l.logged + [] == l.logged;
  }

  /** Main result: whatever sequence of processes, events and torn appends produced the file, it yields
      exactly the fully written events and the cut ones whose whole text had arrived, in order, before
      and after the next repair. */
  lemma {:induction false} HistoryIsKept(lives: seq<Life>)
    requires forall l :: l in lives ==> LifeOk(l)
    ensures Events(FileAfter(lives)) == Jsons(AllKept(lives))
    ensures Events(Repair(FileAfter(lives))) == Jsons(AllKept(lives))
    decreases |lives|
  {
    hide Events, LiveOnce, Kept, LifeOk, Repair;
    RepairEvents(FileAfter(lives));
    if lives == [] {
      NoFile();
    } else {
      var before, l := lives[..|lives| - 1], lives[|lives| - 1];
      HistoryIsKept(before);
      LifeKeeps(FileAfter(before), l);
      JsonsAppend(AllKept(before), Kept(l));
    }
  }

  lemma NoFile()
    ensures Events(None) == []
  {
  }

  // ---------- Listing ----------

  predicate EntryWanted(e: Entry, operator: Option<Text>, deviceId: Option<Text>) {
    && (operator.None? || operator.value == [] || e.operator == operator)
    && (deviceId.None? || deviceId.value == [] || e.deviceId == deviceId)
  }

  function Select(es: seq<Entry>, operator: Option<Text>, deviceId: Option<Text>): seq<Entry> {
    if es == [] then []
    else
      var rest := Select(es[1..], operator, deviceId);
      if EntryWanted(es[0], operator, deviceId) then [es[0]] + rest else rest
  }

  lemma EntryFields(e: Entry)
    ensures Field(EntryMembers(e), OPERATOR) == Some(OrNull(e.operator))
    ensures Field(EntryMembers(e), DEVICE_ID) == Some(OrNull(e.deviceId))
  {
    var m6 := Member(DETAIL, e.detail, NoMembers);
    var m5 := Member(DEVICE_ID, OrNull(e.deviceId), m6);
    var m4 := Member(TYPE, Str(e.kind), m5);
    var m3 := Member(OPERATOR, OrNull(e.operator), m4);
    assert DEVICE_ID[0] != OPERATOR[0] && |DETAIL| == 6 && |TYPE| == 4 && |AT| == 2;
    assert Field(m6, OPERATOR) == None && Field(m6, DEVICE_ID) == None;
    assert Field(m5, OPERATOR) == None && Field(m5, DEVICE_ID) == Some(OrNull(e.deviceId));
    assert Field(m4, OPERATOR) == None && Field(m4, DEVICE_ID) == Some(OrNull(e.deviceId));
    assert Field(m3, OPERATOR) == Some(OrNull(e.operator)) && Field(m3, DEVICE_ID) == Some(OrNull(e.deviceId));
  }

  lemma {:induction false} FilterIsSelect(es: seq<Entry>, operator: Option<Text>, deviceId: Option<Text>)
    ensures Filter(Jsons(es), operator, deviceId) == Jsons(Select(es, operator, deviceId))
  {
    if es != [] {
      hide EntryMembers, Field;
      EntryFields(es[0]);
      FilterIsSelect(es[1..], operator, deviceId);
      assert Jsons(es)[1..] == Jsons(es[1..]);
      assert ([es[0]] + Select(es[1..], operator, deviceId))[1..] == Select(es[1..], operator, deviceId);
    }
  }

  lemma {:induction false} JsonsReverse(es: seq<Entry>)
    ensures Reverse(Jsons(es)) == Jsons(Reverse(es))
  {
    hide EntryJson;
    if es != [] {
      assert Jsons(es)[1..] == Jsons(es[1..]);
      JsonsReverse(es[1..]);
      JsonsAppend(Reverse(es[1..]), [es[0]]);
      OneJson(es[0]);
    }
  }

  /** What a caller of listEvents gets: the kept events that match, newest first, cut to the limit. */
  lemma ListingIsKept(lives: seq<Life>, operator: Option<Text>, deviceId: Option<Text>, limit: int)
    requires forall l :: l in lives ==> LifeOk(l)
    ensures List(FileAfter(lives), operator, deviceId, limit)
         == Slice(Jsons(Reverse(Select(AllKept(lives), operator, deviceId))), limit)
  {
    hide Events, LifeOk, AllKept, FileAfter, Select, Filter, Jsons, Reverse, Slice;
    HistoryIsKept(lives);
    FilterIsSelect(AllKept(lives), operator, deviceId);
    JsonsReverse(Select(AllKept(lives), operator, deviceId));
  }

  // ---------- A torn append in a process that goes on ----------

  lemma EntryOpens(e: Entry)
    requires Printable(e.detail)
    ensures JsonTorn.Opener(EntryText(e))
  {
    hide ReadValue;
    EntryPrintable(e);
    var text := EntryText(e);
    ReadsBack(EntryJson(e), []);
    assert text + [] == text;
    FirstBytes(e);
  }

  lemma FirstBytes(e: Entry)
    ensures var t := EntryText(e); |t| >= 3 && t[0] == OPEN_BRACE && t[1] == QUOTE && t[2] == 105
  {
    var m := EntryMembers(e);
    var escaped := Escape(ID);
    assert ID[0] == 105 && EscapeByte(105) == [105] && escaped[0] == 105;
    assert Quote(ID)[0] == QUOTE && Quote(ID)[1] == 105;
    assert PrintMembers(m)[0] == QUOTE && PrintMembers(m)[1] == 105;
  }

  /** The fragment of an entry and the next entry glued to it are one line that contributes nothing. */
  lemma GluedLine(torn: Entry, n: nat, next: Entry)
    requires Printable(torn.detail) && Printable(next.detail) && 0 < n <= |EntryText(torn)|
    ensures LineEvents(EntryText(torn)[..n] + EntryText(next)) == []
  {
    hide Print, Parse, Printable;
    EntryPrintable(torn);
    EntryOpens(next);
    JsonTorn.GluedDoesNotParse(EntryMembers(torn), n, EntryText(next));
  }

  /** The file after an append of which n bytes arrived, and after a reopening if there was one. */
  function Torn(file: Option<Text>, e: Entry, n: nat, reopened: bool): Option<Text>
    requires n <= |Line(e)|
  {
    var cut := Append(file, Line(e)[..n]);
    if reopened then Repair(cut) else cut
  }

  lemma CutIsOneLine(torn: Entry, n: nat, next: Entry)
    requires Printable(torn.detail) && Printable(next.detail) && n <= |EntryText(torn)|
    ensures OneLine(EntryText(torn)[..n] + EntryText(next))
  {
    EntryTextFacts(torn);
    EntryTextFacts(next);
  }

  /** Appending to an unclosed fragment: the whole glued line, and its newline. */
  lemma AppendToFragment(file: Option<Text>, torn: Entry, n: nat, next: Entry)
    requires ClosedFile(file) && Printable(torn.detail) && Printable(next.detail) && 0 < n <= |EntryText(torn)|
    ensures Events(Append(Append(file, Line(torn)[..n]), Line(next))) == Events(file)
  {
    hide Print, Parse, Printable, LineEvents, AllEvents, Split;
    var glued := EntryText(torn)[..n] + EntryText(next);
    CutIsOneLine(torn, n, next);
    GluedLine(torn, n, next);
    AppendEvents(file, glued);
    var text := Append(file, glued).value;
    assert Line(torn)[..n] == EntryText(torn)[..n];
    assert Append(Append(file, Line(torn)[..n]), Line(next)).value == text + [NEWLINE];
    NewlineAddsNothing(text);
  }

  /** Main result on processes that go on after a torn append (a full disk, say): the next event is lost if
      and only if a non-empty part of the line arrived without its newline and the log was not reopened
      in between. Then the torn event is lost as well, even when its whole text had arrived. */
  lemma NextEventLostIff(file: Option<Text>, torn: Entry, n: nat, reopened: bool, next: Entry)
    requires ClosedFile(file) && Printable(torn.detail) && Printable(next.detail) && n <= |Line(torn)|
    ensures var before := Torn(file, torn, n, reopened);
            var after := Append(before, Line(next));
            var lost := 0 < n < |Line(torn)| && !reopened;
            (Events(after) != Events(before) + [EntryJson(next)] <==> lost) && (lost ==> Events(after) == Events(file))
  {
    hide Print, Parse, Printable, LineEvents, AllEvents, Split, Events;
    var cut := Append(file, Line(torn)[..n]);
    if reopened {
      RepairEvents(cut);
      LineKept(Repair(cut), next);
    } else if 0 < n < |Line(torn)| {
      AppendToFragment(file, torn, n, next);
      CutLine(file, torn, n);
      LongerDiffers(Events(file), if n >= |EntryText(torn)| then [EntryJson(torn)] else [], EntryJson(next));
    } else {
      ClosedCut(file, torn, n);
      LineKept(cut, next);
    }
  }

  lemma LongerDiffers(a: seq<Json>, b: seq<Json>, c: Json)
    ensures a != a + b + [c]
  {
    assert |a + b + [c]| > |a|;
  }

  lemma ClosedCut(file: Option<Text>, torn: Entry, n: nat)
    requires ClosedFile(file) && (n == 0 || n == |Line(torn)|)
    ensures ClosedFile(Append(file, Line(torn)[..n]))
  {
    var t := Append(file, Line(torn)[..n]).value;
    if n > 0 { assert Line(torn)[..n][n - 1] == NEWLINE; }
  }
}

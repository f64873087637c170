/** JSON text as bytes (UTF-8): the compact printer of JSON.stringify and the reader of JSON.parse.
    Section numbers are those of RFC 8259. */
module Json {
  import opened Common

  type Text = seq<Byte>

  /** Strings and keys hold their UTF-8 bytes; a number holds its text. Members keep their order. */
  datatype Json = Null | Bool(value: bool) | Number(token: Text) | Str(text: Text)
                | Arr(items: Items) | Obj(members: Members)
  datatype Items = NoItems | Item(head: Json, more: Items)
  datatype Members = NoMembers | Member(key: Text, value: Json, others: Members)

  const QUOTE: Byte := 34
  const COMMA: Byte := 44
  const COLON: Byte := 58
  const BACKSLASH: Byte := 92
  const OPEN_BRACKET: Byte := 91
  const CLOSE_BRACKET: Byte := 93
  const OPEN_BRACE: Byte := 123
  const CLOSE_BRACE: Byte := 125
  const NEWLINE: Byte := 10
  const NULL_TEXT: Text := [110, 117, 108, 108]
  const TRUE_TEXT: Text := [116, 114, 117, 101]
  const FALSE_TEXT: Text := [102, 97, 108, 115, 101]

  // ---------- Numbers (section 6) ----------

  predicate IsDigit(c: Byte) { 48 <= c <= 57 }

  predicate NumberChar(c: Byte) { IsDigit(c) || c in {43, 45, 46, 69, 101} }

  function Leading(t: Text, p: Byte -> bool): (n: nat)
    ensures n <= |t| && (forall k :: 0 <= k < n ==> p(t[k])) && (n < |t| ==> !p(t[n]))
  {
    if t == [] || !p(t[0]) then 0 else 1 + Leading(t[1..], p)
  }

  function Digits(t: Text): (n: nat)
    ensures n <= |t|
  {
    Leading(t, (c: Byte) => IsDigit(c))
  }

  predicate ExponentOk(t: Text) {
    t == [] ||
    (t[0] in {69, 101} &&
     var u := if |t| > 1 && t[1] in {43, 45} then t[2..] else t[1..];
     u != [] && Digits(u) == |u|)
  }

  predicate FractionOk(t: Text) {
    if t != [] && t[0] == 46 then Digits(t[1..]) >= 1 && ExponentOk(t[1 + Digits(t[1..])..])
    else ExponentOk(t)
  }

  predicate NumberOk(t: Text) {
    var u := if t != [] && t[0] == 45 then t[1..] else t;
    Digits(u) >= 1 && (u[0] == 48 ==> Digits(u) == 1) && FractionOk(u[Digits(u)..])
  }

  // ---------- Printer ----------

  function HexDigit(n: nat): Byte
    requires n < 16
  {
    if n < 10 then 48 + n else 87 + n
  }

  function EscapeByte(c: Byte): Text {
    if c == QUOTE then [BACKSLASH, QUOTE]
    else if c == BACKSLASH then [BACKSLASH, BACKSLASH]
    else if c == 8 then [BACKSLASH, 98]
    else if c == 9 then [BACKSLASH, 116]
    else if c == 10 then [BACKSLASH, 110]
    else if c == 12 then [BACKSLASH, 102]
    else if c == 13 then [BACKSLASH, 114]
    else if c < 32 then [BACKSLASH, 117, 48, 48, HexDigit(c / 16), HexDigit(c % 16)]
    else [c]
  }

  function Escape(s: Text): Text {
    if s == [] then [] else EscapeByte(s[0]) + Escape(s[1..])
  }

  function Quote(s: Text): Text { [QUOTE] + (Escape(s) + [QUOTE]) }

  function Print(v: Json): Text {
    match v
    case Null => NULL_TEXT
    case Bool(b) => if b then TRUE_TEXT else FALSE_TEXT
    case Number(t) => t
    case Str(s) => Quote(s)
    case Arr(items) => [OPEN_BRACKET] + PrintItems(items)
    case Obj(members) => [OPEN_BRACE] + PrintMembers(members)
  }

  /** The rest of an array after its opening bracket. */
  function PrintItems(items: Items): Text {
    match items
    case NoItems => [CLOSE_BRACKET]
    case Item(v, NoItems) => Print(v) + [CLOSE_BRACKET]
    case Item(v, more) => Print(v) + ([COMMA] + PrintItems(more))
  }

  function PrintMembers(members: Members): Text {
    match members
    case NoMembers => [CLOSE_BRACE]
    case Member(k, v, NoMembers) => Quote(k) + ([COLON] + (Print(v) + [CLOSE_BRACE]))
    case Member(k, v, others) => Quote(k) + ([COLON] + (Print(v) + ([COMMA] + PrintMembers(others))))
  }

  // ---------- Reader ----------

  predicate Space(c: Byte) { c in {32, 9, 10, 13} }

  function Skip(t: Text): (r: Text)
    ensures |r| <= |t| && (r != [] ==> !Space(r[0]))
  {
    if t != [] && Space(t[0]) then Skip(t[1..]) else t
  }

  function HexValue(c: Byte): Option<nat> {
    if IsDigit(c) then Some(c - 48)
    else if 97 <= c <= 102 then Some(c - 87)
    else if 65 <= c <= 70 then Some(c - 55)
    else None
  }

  /** One UTF-16 code unit as bytes. */
  function Utf8(code: nat): Text
    requires code < 0x1_0000
  {
    if code < 0x80 then [code]
    else if code < 0x800 then [192 + code / 64, 128 + code % 64]
    else [224 + code / 4096, 128 + code / 64 % 64, 128 + code % 64]
  }

  /** What a backslash starts: the bytes it stands for and how many bytes it takes (section 7). */
  function Unescape(t: Text): (r: Option<(Text, nat)>)
    ensures r.Some? ==> 2 <= r.value.1 <= |t| && r.value.1 <= 6
  {
    if |t| < 2 then None
    else if t[1] in {QUOTE, BACKSLASH, 47} then Some(([t[1]], 2))
    else if t[1] == 98 then Some(([8], 2))
    else if t[1] == 102 then Some(([12], 2))
    else if t[1] == 110 then Some(([10], 2))
    else if t[1] == 114 then Some(([13], 2))
    else if t[1] == 116 then Some(([9], 2))
    else if t[1] != 117 || |t| < 6 then None
    else
      var a, b, c, d := HexValue(t[2]), HexValue(t[3]), HexValue(t[4]), HexValue(t[5]);
      if a.None? || b.None? || c.None? || d.None? then None
      else
        var code := ((a.value * 16 + b.value) * 16 + c.value) * 16 + d.value;
        if code < 0x1_0000 then Some((Utf8(code), 6)) else None
  }

  /** The rest of a string after its opening quote. */
  function ReadString(t: Text): (r: Option<(Text, Text)>)
    ensures r.Some? ==> |r.value.1| < |t|
    decreases |t|
  {
    if t == [] || t[0] < 32 then None
    else if t[0] == QUOTE then Some(([], t[1..]))
    else
      var part := if t[0] == BACKSLASH then Unescape(t) else Some(([t[0]], 1));
      if part.None? then None else
      var rest := ReadString(t[part.value.1..]);
      if rest.None? then None else Some((part.value.0 + rest.value.0, rest.value.1))
  }

  function ReadNumber(t: Text): (r: Option<(Json, Text)>)
    ensures r.Some? ==> |r.value.1| < |t| && r.value.0.Number?
  {
    var n := Leading(t, (c: Byte) => NumberChar(c));
    if n > 0 && NumberOk(t[..n]) then Some((Number(t[..n]), t[n..])) else None
  }

  function ReadWord(t: Text, word: Text, v: Json): (r: Option<(Json, Text)>)
    requires word != []
    ensures r.Some? ==> |r.value.1| < |t| && r.value.0 == v
  {
    if word <= t then Some((v, t[|word|..])) else None
  }

  function ReadValue(t: Text): (r: Option<(Json, Text)>)
    ensures r.Some? ==> |r.value.1| < |t|
    decreases |t|, 1
  {
    var s := Skip(t);
    if s == [] then None
    else if s[0] == 110 then ReadWord(s, NULL_TEXT, Null)
    else if s[0] == 116 then ReadWord(s, TRUE_TEXT, Bool(true))
    else if s[0] == 102 then ReadWord(s, FALSE_TEXT, Bool(false))
    else if s[0] == QUOTE then
      var q := ReadString(s[1..]);
      if q.None? then None else Some((Str(q.value.0), q.value.1))
    else if s[0] == OPEN_BRACKET then ReadArray(s[1..])
    else if s[0] == OPEN_BRACE then ReadObject(s[1..])
    else ReadNumber(s)
  }

  /** The rest of an array after its opening bracket (section 5). */
  function ReadArray(t: Text): (r: Option<(Json, Text)>)
    ensures r.Some? ==> |r.value.1| < |t|
    decreases |t|, 3
  {
    var u := Skip(t);
    if u != [] && u[0] == CLOSE_BRACKET then Some((Arr(NoItems), u[1..]))
    else
      var q := ReadItems(t);
      if q.None? then None else Some((Arr(q.value.0), q.value.1))
  }

  /** The rest of an object after its opening brace (section 4). */
  function ReadObject(t: Text): (r: Option<(Json, Text)>)
    ensures r.Some? ==> |r.value.1| < |t|
    decreases |t|, 3
  {
    var u := Skip(t);
    if u != [] && u[0] == CLOSE_BRACE then Some((Obj(NoMembers), u[1..]))
    else
      var q := ReadMembers(t);
      if q.None? then None else Some((Obj(q.value.0), q.value.1))
  }

  /** One or more items up to the closing bracket. */
  function ReadItems(t: Text): (r: Option<(Items, Text)>)
    ensures r.Some? ==> |r.value.1| < |t|
    decreases |t|, 2
  {
    var first := ReadValue(t);
    if first.None? then None else
    var s := Skip(first.value.1);
    if s == [] then None
    else if s[0] == CLOSE_BRACKET then Some((Item(first.value.0, NoItems), s[1..]))
    else if s[0] == COMMA then
      var rest := ReadItems(s[1..]);
      if rest.None? then None else Some((Item(first.value.0, rest.value.0), rest.value.1))
    else None
  }

  /** One or more members up to the closing brace. */
  function ReadMembers(t: Text): (r: Option<(Members, Text)>)
    ensures r.Some? ==> |r.value.1| < |t|
    decreases |t|, 2
  {
    var s := Skip(t);
    if s == [] || s[0] != QUOTE then None else
    var key := ReadString(s[1..]);
    if key.None? then None else
    var colon := Skip(key.value.1);
    if colon == [] || colon[0] != COLON then None else
    var v := ReadValue(colon[1..]);
    if v.None? then None else
    var u := Skip(v.value.1);
    if u == [] then None
    else if u[0] == CLOSE_BRACE then Some((Member(key.value.0, v.value.0, NoMembers), u[1..]))
    else if u[0] == COMMA then
      var rest := ReadMembers(u[1..]);
      if rest.None? then None else Some((Member(key.value.0, v.value.0, rest.value.0), rest.value.1))
    else None
  }

  /** JSON.parse: one value and nothing but white space around it. */
  function Parse(t: Text): Option<Json> {
    var r := ReadValue(t);
    if r.Some? && Skip(r.value.1) == [] then Some(r.value.0) else None
  }

  // ---------- Values that JSON.stringify can print ----------

  predicate Printable(v: Json) {
    match v
    case Number(t) => NumberOk(t) && forall k :: 0 <= k < |t| ==> NumberChar(t[k])
    case Arr(items) => PrintableItems(items)
    case Obj(members) => PrintableMembers(members)
    case _ => true
  }

  predicate PrintableItems(items: Items) { items.NoItems? || (Printable(items.head) && PrintableItems(items.more)) }

  predicate PrintableMembers(m: Members) { m.NoMembers? || (Printable(m.value) && PrintableMembers(m.others)) }

  // ---------- Reading back ----------

  lemma {:induction false} LeadingExact(t: Text, rest: Text, p: Byte -> bool)
    requires forall k :: 0 <= k < |t| ==> p(t[k])
    requires rest == [] || !p(rest[0])
    ensures Leading(t + rest, p) == |t|
  {
    if t == [] {
      assert t + rest == rest;
    } else {
      assert (t + rest)[1..] == t[1..] + rest;
      LeadingExact(t[1..], rest, p);
    }
  }

  lemma NoSkip(t: Text)
    requires t != [] && !Space(t[0])
    ensures Skip(t) == t
  {
  }

  lemma EscapedByteReads(c: Byte, rest: Text)
    ensures var t := EscapeByte(c) + rest;
      && t[0] >= 32 && t[0] != QUOTE
      && (t[0] == BACKSLASH ==> Unescape(t) == Some(([c], |EscapeByte(c)|)))
      && (t[0] != BACKSLASH ==> t[0] == c && |EscapeByte(c)| == 1)
      && t[|EscapeByte(c)|..] == rest
  {
    var t := EscapeByte(c) + rest;
    assert t[|EscapeByte(c)|..] == rest;
    if c < 32 && c !in {8, 9, 10, 12, 13} {
      assert t[2] == 48 && t[3] == 48 && t[4] == HexDigit(c / 16) && t[5] == HexDigit(c % 16);
      assert HexValue(t[4]) == Some(c / 16) && HexValue(t[5]) == Some(c % 16);
    }
  }

  lemma {:induction false} StringReadsBack(s: Text, rest: Text)
    ensures ReadString(Escape(s) + ([QUOTE] + rest)) == Some((s, rest))
  {
    var t := Escape(s) + ([QUOTE] + rest);
    if s == [] {
      assert t == [QUOTE] + rest;
    } else {
      var tail := Escape(s[1..]) + ([QUOTE] + rest);
      assert t == EscapeByte(s[0]) + tail;
      EscapedByteReads(s[0], tail);
      StringReadsBack(s[1..], rest);
      assert s == [s[0]] + s[1..];
    }
  }

  ghost predicate Delimited(v: Json, rest: Text) {
    v.Number? ==> rest == [] || !NumberChar(rest[0])
  }

  lemma NumberReadsBack(t: Text, rest: Text)
    requires NumberOk(t) && (forall k :: 0 <= k < |t| ==> NumberChar(t[k]))
    requires rest == [] || !NumberChar(rest[0])
    ensures t != [] && !Space(t[0]) && ReadValue(t + rest) == Some((Number(t), rest))
  {
    hide NumberOk;
    LeadingExact(t, rest, (c: Byte) => NumberChar(c));
    assert t != [] by { NumberNotEmpty(t); }
    var s := t + rest;
    assert s[0] == t[0] && NumberChar(s[0]);
    NoSkip(s);
    assert s[..|t|] == t && s[|t|..] == rest;
  }

  lemma NumberNotEmpty(t: Text)
    requires NumberOk(t)
    ensures t != []
  {
  }

  /** Printing then reading gives the value back and stops exactly after it. */
  lemma {:induction false} ReadsBack(v: Json, rest: Text)
    requires Printable(v) && Delimited(v, rest)
    ensures Print(v) != [] && !Space(Print(v)[0])
    ensures Print(v)[0] !in {CLOSE_BRACKET, CLOSE_BRACE}
    ensures ReadValue(Print(v) + rest) == Some((v, rest))
    decreases v, 1
  {
    hide ReadString, ReadNumber, NumberOk, ReadItems, ReadMembers, Escape;
    var t := Print(v) + rest;
    match v {
      case Null =>
        assert t[|NULL_TEXT|..] == rest;
      case Bool(b) =>
        assert t[|Print(v)|..] == rest;
      case Number(token) =>
        NumberReadsBack(token, rest);
      case Str(s) =>
        assert t[1..] == Escape(s) + ([QUOTE] + rest);
        StringReadsBack(s, rest);
      case Arr(items) =>
        assert t[1..] == PrintItems(items) + rest;
        if items == NoItems {
          assert t[1..] == [CLOSE_BRACKET] + rest;
        } else {
          ItemsReadBack(items, rest);
        }
      case Obj(members) =>
        assert t[1..] == PrintMembers(members) + rest;
        if members == NoMembers {
          assert t[1..] == [CLOSE_BRACE] + rest;
        } else {
          MembersReadBack(members, rest);
        }
    }
  }

  lemma {:induction false} ItemsReadBack(items: Items, rest: Text)
    requires items.Item? && PrintableItems(items)
    ensures var t := PrintItems(items) + rest;
      t != [] && !Space(t[0]) && t[0] != CLOSE_BRACKET && ReadItems(t) == Some((items, rest))
    decreases items, 2
  {
    hide ReadValue, Print;
    var t := PrintItems(items) + rest;
    var v := items.head;
    if items.more == NoItems {
      assert t == Print(v) + ([CLOSE_BRACKET] + rest);
      ReadsBack(v, [CLOSE_BRACKET] + rest);
    } else {
      var tail := PrintItems(items.more) + rest;
      assert t == Print(v) + ([COMMA] + tail);
      ReadsBack(v, [COMMA] + tail);
      ItemsReadBack(items.more, rest);
      assert ([COMMA] + tail)[1..] == tail;
    }
  }

  lemma {:induction false} MembersReadBack(m: Members, rest: Text)
    requires m.Member? && PrintableMembers(m)
    ensures var t := PrintMembers(m) + rest;
      t != [] && t[0] == QUOTE && ReadMembers(t) == Some((m, rest))
    decreases m, 2
  {
    hide ReadValue, ReadString, Quote, Print;
    var t := PrintMembers(m) + rest;
    if m.others == NoMembers {
      var after := [CLOSE_BRACE] + rest;
      ReadsBack(m.value, after);
      assert t == Quote(m.key) + ([COLON] + (Print(m.value) + after));
      OneMember(m.key, m.value, after);
      assert after[1..] == rest;
    } else {
      var tail := PrintMembers(m.others) + rest;
      var after := [COMMA] + tail;
      ReadsBack(m.value, after);
      assert t == Quote(m.key) + ([COLON] + (Print(m.value) + after));
      OneMember(m.key, m.value, after);
      MembersReadBack(m.others, rest);
      assert after[1..] == tail;
    }
  }

  /** The reader takes one key, the colon and one value off the front, and stands before what follows. */
  lemma OneMember(key: Text, v: Json, after: Text)
    requires ReadValue(Print(v) + after) == Some((v, after))
    requires after != [] && after[0] in {CLOSE_BRACE, COMMA}
    ensures var t := Quote(key) + ([COLON] + (Print(v) + after));
      && t[0] == QUOTE
      && ReadMembers(t) ==
         if after[0] == CLOSE_BRACE then Some((Member(key, v, NoMembers), after[1..]))
         else if ReadMembers(after[1..]).None? then None
         else Some((Member(key, v, ReadMembers(after[1..]).value.0), ReadMembers(after[1..]).value.1))
  {
    hide ReadValue, ReadString, Print, Escape;
    var colon := [COLON] + (Print(v) + after);
    var t := Quote(key) + colon;
    assert t[1..] == Escape(key) + ([QUOTE] + colon);
    StringReadsBack(key, colon);
    assert colon[1..] == Print(v) + after;
    NoSkip(t);
    NoSkip(colon);
    NoSkip(after);
  }

  /** Main result on the printer: JSON.parse undoes JSON.stringify on every printable value. */
  lemma ParseUndoesPrint(v: Json)
    requires Printable(v)
    ensures Parse(Print(v)) == Some(v)
  {
    ReadsBack(v, []);
    assert Print(v) + [] == Print(v);
  }

  // ---------- A reader never looks past the end of what it read ----------

  lemma {:induction false} SkipExtends(t: Text, more: Text)
    requires Skip(t) != []
    ensures Skip(t + more) == Skip(t) + more
  {
    if Space(t[0]) {
      assert (t + more)[1..] == t[1..] + more;
      SkipExtends(t[1..], more);
    } else {
      assert (t + more)[0] == t[0];
    }
  }

  lemma {:induction false} LeadingExtends(t: Text, more: Text, p: Byte -> bool)
    requires Leading(t, p) < |t|
    ensures Leading(t + more, p) == Leading(t, p)
  {
    assert (t + more)[0] == t[0];
    if p(t[0]) {
      assert (t + more)[1..] == t[1..] + more;
      LeadingExtends(t[1..], more, p);
    }
  }

  lemma UnescapeExtends(t: Text, more: Text)
    requires Unescape(t).Some?
    ensures Unescape(t + more) == Unescape(t)
  {
    assert forall k :: 0 <= k < |t| ==> (t + more)[k] == t[k];
  }

  lemma {:induction false} StringExtends(t: Text, more: Text)
    requires ReadString(t).Some?
    ensures ReadString(t + more) == Some((ReadString(t).value.0, ReadString(t).value.1 + more))
    decreases |t|
  {
    hide Unescape;
    var s := t + more;
    assert s[0] == t[0];
    if t[0] == QUOTE {
      assert s[1..] == t[1..] + more;
    } else {
      if t[0] == BACKSLASH {
        UnescapeExtends(t, more);
      }
      var part := if t[0] == BACKSLASH then Unescape(t) else Some(([t[0]], 1));
      assert s[part.value.1..] == t[part.value.1..] + more;
      StringExtends(t[part.value.1..], more);
    }
  }

  lemma NumberExtends(t: Text, more: Text)
    requires ReadNumber(t).Some? && ReadNumber(t).value.1 != []
    ensures ReadNumber(t + more) == Some((ReadNumber(t).value.0, ReadNumber(t).value.1 + more))
  {
    hide NumberOk;
    var p := (c: Byte) => NumberChar(c);
    var n := Leading(t, p);
    LeadingExtends(t, more, p);
    assert (t + more)[..n] == t[..n] && (t + more)[n..] == t[n..] + more;
  }

  lemma WordExtends(t: Text, more: Text, word: Text, v: Json)
    requires word != [] && ReadWord(t, word, v).Some?
    ensures ReadWord(t + more, word, v) == Some((v, ReadWord(t, word, v).value.1 + more))
  {
    assert (t + more)[|word|..] == t[|word|..] + more;
  }

  /** A value that was read completely is read the same way when more text follows; only a number at
      the very end could have gone on. */
  lemma {:induction false} ValueExtends(t: Text, more: Text)
    requires ReadValue(t).Some? && (ReadValue(t).value.1 != [] || !ReadValue(t).value.0.Number?)
    ensures ReadValue(t + more) == Some((ReadValue(t).value.0, ReadValue(t).value.1 + more))
    decreases |t|, 1
  {
    hide ReadString, ReadNumber, ReadWord, ReadArray, ReadObject;
    var s := Skip(t);
    SkipExtends(t, more);
    var u := s + more;
    assert u[0] == s[0] && u[1..] == s[1..] + more;
    if s[0] == 110 {
      WordExtends(s, more, NULL_TEXT, Null);
    } else if s[0] == 116 {
      WordExtends(s, more, TRUE_TEXT, Bool(true));
    } else if s[0] == 102 {
      WordExtends(s, more, FALSE_TEXT, Bool(false));
    } else if s[0] == QUOTE {
      StringExtends(s[1..], more);
    } else if s[0] == OPEN_BRACKET {
      ArrayExtends(s[1..], more);
    } else if s[0] == OPEN_BRACE {
      ObjectExtends(s[1..], more);
    } else {
      NumberExtends(s, more);
    }
  }

  lemma {:induction false} ArrayExtends(t: Text, more: Text)
    requires ReadArray(t).Some?
    ensures ReadArray(t + more) == Some((ReadArray(t).value.0, ReadArray(t).value.1 + more))
    decreases |t|, 3
  {
    hide ReadItems;
    var u := Skip(t);
    if u == [] {
      ItemsStart(t);
    }
    SkipExtends(t, more);
    assert (u + more)[0] == u[0] && (u + more)[1..] == u[1..] + more;
    if u[0] != CLOSE_BRACKET {
      ItemsExtend(t, more);
    }
  }

  lemma {:induction false} ObjectExtends(t: Text, more: Text)
    requires ReadObject(t).Some?
    ensures ReadObject(t + more) == Some((ReadObject(t).value.0, ReadObject(t).value.1 + more))
    decreases |t|, 3
  {
    hide ReadMembers;
    var u := Skip(t);
    if u == [] {
      MembersStart(t);
    }
    SkipExtends(t, more);
    assert (u + more)[0] == u[0] && (u + more)[1..] == u[1..] + more;
    if u[0] != CLOSE_BRACE {
      MembersExtend(t, more);
    }
  }

  lemma MembersStart(t: Text)
    requires ReadMembers(t).Some?
    ensures Skip(t) != []
  {
  }

  lemma ItemsStart(t: Text)
    requires ReadItems(t).Some?
    ensures Skip(t) != []
  {
    hide ReadString, ReadNumber, ReadWord, ReadArray, ReadObject;
    assert ReadValue(t).Some?;
  }

  lemma {:induction false} ItemsExtend(t: Text, more: Text)
    requires ReadItems(t).Some?
    ensures ReadItems(t + more) == Some((ReadItems(t).value.0, ReadItems(t).value.1 + more))
    decreases |t|, 2
  {
    hide ReadValue;
    var first := ReadValue(t).value;
    ValueExtends(t, more);
    var s := Skip(first.1);
    SkipExtends(first.1, more);
    assert (s + more)[0] == s[0] && (s + more)[1..] == s[1..] + more;
    if s[0] == COMMA {
      ItemsExtend(s[1..], more);
    }
  }

  lemma {:induction false} MembersExtend(t: Text, more: Text)
    requires ReadMembers(t).Some?
    ensures ReadMembers(t + more) == Some((ReadMembers(t).value.0, ReadMembers(t).value.1 + more))
    decreases |t|, 2
  {
    hide ReadValue, ReadString;
    var s := Skip(t);
    SkipExtends(t, more);
    assert (s + more)[0] == s[0] && (s + more)[1..] == s[1..] + more;
    var key := ReadString(s[1..]).value;
    StringExtends(s[1..], more);
    var colon := Skip(key.1);
    SkipExtends(key.1, more);
    assert (colon + more)[0] == colon[0] && (colon + more)[1..] == colon[1..] + more;
    var v := ReadValue(colon[1..]).value;
    ValueExtends(colon[1..], more);
    var u := Skip(v.1);
    SkipExtends(v.1, more);
    assert (u + more)[0] == u[0] && (u + more)[1..] == u[1..] + more;
    if u[0] == COMMA {
      MembersExtend(u[1..], more);
    }
  }

  /** No proper prefix of a printed object parses: a torn line is never mistaken for an entry. */
  lemma NoProperPrefixParses(m: Members, n: nat)
    requires PrintableMembers(m) && n < |Print(Obj(m))|
    ensures Parse(Print(Obj(m))[..n]).None?
  {
    hide ReadValue, Print;
    var text := Print(Obj(m));
    var part, more := text[..n], text[n..];
    assert part + more == text && text + [] == text;
    ReadsBack(Obj(m), []);
    var r := ReadValue(part);
    if r.Some? {
      ReadsBraceFirst(m, part, more);
      ValueExtends(part, more);
    }
  }

  lemma ReadsBraceFirst(m: Members, part: Text, more: Text)
    requires part + more == Print(Obj(m)) && ReadValue(part).Some?
    ensures !ReadValue(part).value.0.Number?
  {
    assert (part + more)[0] == OPEN_BRACE;
    assert part != [] && part[0] == OPEN_BRACE;
    NoSkip(part);
  }

  // ---------- One line ----------

  ghost predicate OneLine(t: Text) { forall k :: 0 <= k < |t| ==> t[k] != NEWLINE }

  lemma {:induction false} EscapeIsOneLine(s: Text)
    ensures OneLine(Escape(s))
  {
    if s != [] {
      EscapeIsOneLine(s[1..]);
    }
  }

  /** A printed value never contains a raw newline: every control character in a string is escaped
      (section 7). */
  lemma {:induction false} PrintIsOneLine(v: Json)
    requires Printable(v)
    ensures OneLine(Print(v))
    decreases v, 1
  {
    hide NumberOk;
    match v {
      case Str(s) => EscapeIsOneLine(s);
      case Arr(items) => ItemsAreOneLine(items);
      case Obj(members) => MembersAreOneLine(members);
      case _ =>
    }
  }

  lemma {:induction false} ItemsAreOneLine(items: Items)
    requires PrintableItems(items)
    ensures OneLine(PrintItems(items))
    decreases items, 2
  {
    if items.Item? {
      PrintIsOneLine(items.head);
      ItemsAreOneLine(items.more);
    }
  }

  lemma {:induction false} MembersAreOneLine(m: Members)
    requires PrintableMembers(m)
    ensures OneLine(PrintMembers(m))
    decreases m, 2
  {
    if m.Member? {
      EscapeIsOneLine(m.key);
      PrintIsOneLine(m.value);
      MembersAreOneLine(m.others);
    }
  }
}

/** What the reader makes of a torn text with another object glued to it: two texts that begin alike are
    read alike up to where they part, and the glued object cannot be taken for the missing rest. */
module JsonTorn {
  import opened Common
  import opened Json

  /** A text that is one whole object whose first key begins with the letter i. */
  ghost predicate Opener(y: Text) {
    |y| >= 3 && y[0] == OPEN_BRACE && y[1] == QUOTE && y[2] == 105
    && ReadValue(y).Some? && ReadValue(y).value.1 == []
  }

  /** What was read ends before x, and x is all that follows. */
  predicate Outside(r: Text, x: Text) { |r| >= |x| && r[|r| - |x|..] == x }

  /** The same rest with y in place of x. */
  function Swapped(r: Text, x: Text, y: Text): Text
    requires |r| >= |x|
  {
    r[..|r| - |x|] + y
  }

  /** A rest after which neither an array nor an object can go on. */
  predicate Stuck(r: Text, y: Text) { r == [] || r == y || (|y| >= 2 && r == y[2..]) }

  /** What was read of p + x is read of p + y just so, or was cut: then p + y does not read on. */
  ghost predicate CutAt<T>(a: Option<(T, Text)>, b: Option<(T, Text)>, x: Text, y: Text) {
    a.Some? ==>
      if |a.value.1| >= |x| then Outside(a.value.1, x) && b == Some((a.value.0, Swapped(a.value.1, x, y))) else b.None?
  }

  lemma SwapPrefix(p: Text, x: Text, y: Text)
    ensures Outside(p + x, x) && Swapped(p + x, x, y) == p + y
  {
  }

  lemma {:induction false} SkipOver(p: Text, z: Text)
    ensures Skip(p) == [] ==> Skip(p + z) == Skip(z)
    ensures Skip(p) != [] ==> Skip(p + z) == Skip(p) + z
  {
    if p == [] {
      assert p + z == z;
    } else if Space(p[0]) {
      assert (p + z)[1..] == p[1..] + z;
      SkipOver(p[1..], z);
    }
  }

  lemma StuckStops(r: Text, y: Text)
    requires Opener(y) && Stuck(r, y)
    ensures Skip(r) == [] || Skip(r)[0] in {OPEN_BRACE, 105}
  {
  }

  // ---------- Strings, words and numbers ----------

  lemma UnescapeCut(p: Text, x: Text, y: Text)
    requires Opener(y) && p != [] && p[0] == BACKSLASH && Unescape(p + x).Some?
    ensures var k := Unescape(p + x).value.1;
            if k <= |p| then Unescape(p + y) == Unescape(p + x) else Unescape(p + y).None?
  {
    var a, b := p + x, p + y;
    assert forall k :: 0 <= k < |p| ==> a[k] == p[k] && b[k] == p[k];
    assert b[|p|] == y[0];
  }

  lemma {:induction false} StringCut(p: Text, x: Text, y: Text)
    requires Opener(y) && ReadString(p + x).Some?
    ensures var (s, r) := ReadString(p + x).value;
            if |r| >= |x| then Outside(r, x) && ReadString(p + y) == Some((s, Swapped(r, x, y)))
            else ReadString(p + y).None? || ReadString(p + y).value.1 == y[2..]
    decreases |p|
  {
    hide Unescape;
    if p == [] {
      assert p + x == x && p + y == y;
      assert y[1..][0] == QUOTE && y[1..][1..] == y[2..];
      assert ReadString(y[1..]) == Some(([], y[2..]));
    } else if p[0] == QUOTE {
      assert (p + x)[1..] == p[1..] + x && (p + y)[1..] == p[1..] + y;
      SwapPrefix(p[1..], x, y);
    } else {
      if p[0] == BACKSLASH { UnescapeCut(p, x, y); }
      var k := if p[0] == BACKSLASH then Unescape(p + x).value.1 else 1;
      if k <= |p| {
        assert (p + x)[k..] == p[k..] + x && (p + y)[k..] == p[k..] + y;
        StringCut(p[k..], x, y);
      }
    }
  }

  lemma WordCut(p: Text, x: Text, y: Text, word: Text, v: Json)
    requires Opener(y) && p != [] && word in {NULL_TEXT, TRUE_TEXT, FALSE_TEXT} && ReadWord(p + x, word, v).Some?
    ensures var r := ReadWord(p + x, word, v).value.1;
            if |r| >= |x| then Outside(r, x) && ReadWord(p + y, word, v) == Some((v, Swapped(r, x, y)))
            else ReadWord(p + y, word, v).None?
  {
    if |word| <= |p| {
      assert (p + x)[|word|..] == p[|word|..] + x && (p + y)[|word|..] == p[|word|..] + y;
      assert word == (p + x)[..|word|] == (p + y)[..|word|];
      SwapPrefix(p[|word|..], x, y);
    } else {
      assert (p + y)[|p|] == OPEN_BRACE;
      assert forall k :: 0 <= k < |word| ==> word[k] != OPEN_BRACE;
    }
  }

  lemma {:induction false} LeadingAtLeast(p: Text, x: Text, c: Byte -> bool)
    requires Leading(p, c) == |p|
    ensures Leading(p + x, c) >= |p|
  {
    if p != [] {
      assert (p + x)[1..] == p[1..] + x;
      LeadingAtLeast(p[1..], x, c);
    }
  }

  lemma NumberInside(p: Text, x: Text, y: Text)
    requires Leading(p, (c: Byte) => NumberChar(c)) < |p| && ReadNumber(p + x).Some?
    ensures CutAt(ReadNumber(p + x), ReadNumber(p + y), x, y) && |ReadNumber(p + x).value.1| >= |x|
  {
    hide NumberOk;
    var c := (c: Byte) => NumberChar(c);
    var m := Leading(p, c);
    LeadingExtends(p, x, c);
    LeadingExtends(p, y, c);
    assert (p + x)[..m] == p[..m] == (p + y)[..m];
    assert (p + x)[m..] == p[m..] + x && (p + y)[m..] == p[m..] + y;
    SwapPrefix(p[m..], x, y);
  }

  lemma NumberAtEnd(p: Text, x: Text, y: Text)
    requires Opener(y) && p != [] && Leading(p, (c: Byte) => NumberChar(c)) == |p| && ReadNumber(p + x).Some?
    ensures var (v, r) := ReadNumber(p + x).value;
            if |r| >= |x| then Outside(r, x) && ReadNumber(p + y) == Some((v, Swapped(r, x, y)))
            else ReadNumber(p + y).None? || ReadNumber(p + y).value.1 == y
  {
    hide NumberOk, ReadValue;
    var c := (c: Byte) => NumberChar(c);
    LeadingExact(p, y, c);
    assert (p + y)[..|p|] == p && (p + y)[|p|..] == y;
    var n := Leading(p + x, c);
    LeadingAtLeast(p, x, c);
    if n == |p| {
      assert (p + x)[..n] == p && (p + x)[n..] == x;
      assert x[0..] == x && [] + y == y;
    }
  }

  lemma NumberCut(p: Text, x: Text, y: Text)
    requires Opener(y) && p != [] && ReadNumber(p + x).Some?
    ensures var (v, r) := ReadNumber(p + x).value;
            if |r| >= |x| then Outside(r, x) && ReadNumber(p + y) == Some((v, Swapped(r, x, y)))
            else ReadNumber(p + y).None? || ReadNumber(p + y).value.1 == y
  {
    hide ReadNumber;
    if Leading(p, (c: Byte) => NumberChar(c)) < |p| {
      NumberInside(p, x, y);
    } else {
      NumberAtEnd(p, x, y);
    }
  }

  // ---------- Values ----------

  lemma {:induction false} ValueCut(p: Text, x: Text, y: Text)
    requires Opener(y) && ReadValue(p + x).Some?
    ensures var (v, r) := ReadValue(p + x).value;
            if |r| >= |x| then Outside(r, x) && ReadValue(p + y) == Some((v, Swapped(r, x, y)))
            else ReadValue(p + y).None? || Stuck(ReadValue(p + y).value.1, y)
    ensures Skip(p) != [] && Skip(p)[0] in {OPEN_BRACE, OPEN_BRACKET} ==>
              CutAt(ReadValue(p + x), ReadValue(p + y), x, y)
    decreases |p|, 1
  {
    hide ReadString, ReadNumber, ReadWord, ReadArray, ReadObject;
    SkipOver(p, x);
    SkipOver(p, y);
    var q := Skip(p);
    if q == [] {
      assert ReadValue(p + x) == ReadValue(x) && ReadValue(p + y) == ReadValue(y);
    } else {
      assert (q + x)[0] == q[0] == (q + y)[0];
      assert (q + x)[1..] == q[1..] + x && (q + y)[1..] == q[1..] + y;
      if q[0] == 110 {
        WordCut(q, x, y, NULL_TEXT, Null);
      } else if q[0] == 116 {
        WordCut(q, x, y, TRUE_TEXT, Bool(true));
      } else if q[0] == 102 {
        WordCut(q, x, y, FALSE_TEXT, Bool(false));
      } else if q[0] == QUOTE {
        StringCut(q[1..], x, y);
      } else if q[0] == OPEN_BRACKET {
        ArrayCut(q[1..], x, y);
      } else if q[0] == OPEN_BRACE {
        ObjectCut(q[1..], x, y);
      } else {
        NumberCut(q, x, y);
      }
    }
  }

  lemma {:induction false} ArrayCut(p: Text, x: Text, y: Text)
    requires Opener(y) && ReadArray(p + x).Some?
    ensures CutAt(ReadArray(p + x), ReadArray(p + y), x, y)
    decreases |p|, 3
  {
    hide ReadItems;
    SkipOver(p, x);
    SkipOver(p, y);
    var q := Skip(p);
    if q != [] && q[0] == CLOSE_BRACKET {
      assert (q + x)[1..] == q[1..] + x && (q + y)[1..] == q[1..] + y;
      SwapPrefix(q[1..], x, y);
    } else if q == [] && Skip(x) != [] && Skip(x)[0] == CLOSE_BRACKET {
      NothingFollows(p, y);
    } else {
      assert q != [] ==> (q + x)[0] == q[0] == (q + y)[0];
      ItemsCut(p, x, y);
    }
  }

  /** After the opening bracket the whole glued object is read as an item, and then the text is at its end. */
  lemma NothingFollows(p: Text, y: Text)
    requires Opener(y) && Skip(p) == []
    ensures ReadItems(p + y).None? && ReadMembers(p + y).None?
  {
    hide ReadString, ReadNumber, ReadWord, ReadArray, ReadObject;
    SkipOver(p, y);
    assert ReadValue(p + y) == ReadValue(y);
  }

  lemma {:induction false} ObjectCut(p: Text, x: Text, y: Text)
    requires Opener(y) && ReadObject(p + x).Some?
    ensures CutAt(ReadObject(p + x), ReadObject(p + y), x, y)
    decreases |p|, 3
  {
    hide ReadMembers;
    SkipOver(p, x);
    SkipOver(p, y);
    var q := Skip(p);
    if q != [] && q[0] == CLOSE_BRACE {
      assert (q + x)[1..] == q[1..] + x && (q + y)[1..] == q[1..] + y;
      SwapPrefix(q[1..], x, y);
    } else if q == [] && Skip(x) != [] && Skip(x)[0] == CLOSE_BRACE {
      NothingFollows(p, y);
    } else {
      assert q != [] ==> (q + x)[0] == q[0] == (q + y)[0];
      MembersCut(p, x, y);
    }
  }

  lemma {:induction false} ItemsCut(p: Text, x: Text, y: Text)
    requires Opener(y) && ReadItems(p + x).Some?
    ensures CutAt(ReadItems(p + x), ReadItems(p + y), x, y)
    decreases |p|, 2
  {
    hide ReadValue, Opener;
    ValueCut(p, x, y);
    var r := ReadValue(p + x).value.1;
    if |r| >= |x| {
      var p' := r[..|r| - |x|];
      assert r == p' + x && Swapped(r, x, y) == p' + y;
      SkipOver(p', x);
      SkipOver(p', y);
      var q := Skip(p');
      if q == [] {
        StuckStops(y, y);
      } else {
        Part(q, x, y);
        if q[0] == COMMA { ItemsCut(q[1..], x, y); }
      }
    } else if ReadValue(p + y).Some? {
      StuckStops(ReadValue(p + y).value.1, y);
    }
  }

  /** The first byte of a common part, and what follows it. */
  lemma Part(q: Text, x: Text, y: Text)
    requires q != []
    ensures (q + x)[0] == q[0] == (q + y)[0] && (q + x)[1..] == q[1..] + x && (q + y)[1..] == q[1..] + y
    ensures Outside(q[1..] + x, x) && Swapped(q[1..] + x, x, y) == q[1..] + y
  {
    assert (q + x)[1..] == q[1..] + x && (q + y)[1..] == q[1..] + y;
    SwapPrefix(q[1..], x, y);
  }

  /** The rest of the members after a key, and after a value. */
  function AfterKey(key: Text, t: Text): Option<(Members, Text)> {
    var colon := Skip(t);
    if colon == [] || colon[0] != COLON then None else
    var v := ReadValue(colon[1..]);
    if v.None? then None else AfterValue(key, v.value.0, v.value.1)
  }

  function AfterValue(key: Text, v: Json, t: Text): Option<(Members, Text)> {
    var u := Skip(t);
    if u == [] then None
    else if u[0] == CLOSE_BRACE then Some((Member(key, v, NoMembers), u[1..]))
    else if u[0] == COMMA then
      var rest := ReadMembers(u[1..]);
      if rest.None? then None else Some((Member(key, v, rest.value.0), rest.value.1))
    else None
  }

  lemma MembersInParts(t: Text)
    ensures var s := Skip(t);
            ReadMembers(t) == if s == [] || s[0] != QUOTE || ReadString(s[1..]).None? then None
                              else AfterKey(ReadString(s[1..]).value.0, ReadString(s[1..]).value.1)
  {
    hide ReadValue, ReadString;
  }

  lemma {:induction false} AfterValueCut(p: Text, x: Text, y: Text, key: Text, v: Json)
    requires Opener(y)
    ensures CutAt(AfterValue(key, v, p + x), AfterValue(key, v, p + y), x, y)
    decreases |p|, 3
  {
    hide ReadMembers;
    SkipOver(p, x);
    SkipOver(p, y);
    var q := Skip(p);
    if q != [] {
      Part(q, x, y);
      if q[0] == COMMA && ReadMembers(q[1..] + x).Some? { MembersCut(q[1..], x, y); }
    }
  }

  lemma {:induction false} AfterKeyCut(p: Text, x: Text, y: Text, key: Text)
    requires Opener(y)
    ensures CutAt(AfterKey(key, p + x), AfterKey(key, p + y), x, y)
    decreases |p|, 4
  {
    hide ReadValue, AfterValue;
    SkipOver(p, x);
    SkipOver(p, y);
    var q := Skip(p);
    if q != [] {
      Part(q, x, y);
      if q[0] == COLON && ReadValue(q[1..] + x).Some? {
        ValueCut(q[1..], x, y);
        var (v, r) := ReadValue(q[1..] + x).value;
        if |r| >= |x| {
          var p' := r[..|r| - |x|];
          assert r == p' + x && Swapped(r, x, y) == p' + y;
          AfterValueCut(p', x, y, key, v);
        } else {
          AfterValueShrinks(key, v, r);
          if ReadValue(q[1..] + y).Some? { AfterValueStuck(key, ReadValue(q[1..] + y).value, y); }
        }
      }
    } else {
      AfterKeyShrinks(key, p + x, x);
    }
  }

  lemma AfterValueShrinks(key: Text, v: Json, t: Text)
    ensures AfterValue(key, v, t).Some? ==> |AfterValue(key, v, t).value.1| < |t|
  {
  }

  lemma AfterKeyShrinks(key: Text, t: Text, x: Text)
    requires Skip(t) == Skip(x)
    ensures AfterKey(key, t).Some? ==> |AfterKey(key, t).value.1| < |x|
  {
    hide ReadValue, AfterValue;
    var colon := Skip(x);
    if colon != [] && ReadValue(colon[1..]).Some? {
      AfterValueShrinks(key, ReadValue(colon[1..]).value.0, ReadValue(colon[1..]).value.1);
    }
  }

  lemma AfterValueStuck(key: Text, v: (Json, Text), y: Text)
    requires Opener(y) && Stuck(v.1, y)
    ensures AfterValue(key, v.0, v.1).None?
  {
    StuckStops(v.1, y);
  }

  lemma {:induction false} MembersCut(p: Text, x: Text, y: Text)
    requires Opener(y) && ReadMembers(p + x).Some?
    ensures CutAt(ReadMembers(p + x), ReadMembers(p + y), x, y)
    decreases |p|, 2
  {
    hide ReadMembers, ReadString, AfterKey;
    MembersInParts(p + x);
    MembersInParts(p + y);
    SkipOver(p, x);
    SkipOver(p, y);
    var q := Skip(p);
    if q == [] {
      NothingFollows(p, y);
      var s := Skip(x);
      AfterKeyShrinks(ReadString(s[1..]).value.0, ReadString(s[1..]).value.1, ReadString(s[1..]).value.1);
    } else {
      Part(q, x, y);
      StringCut(q[1..], x, y);
      var (key, r) := ReadString(q[1..] + x).value;
      if |r| >= |x| {
        var p' := r[..|r| - |x|];
        assert r == p' + x && Swapped(r, x, y) == p' + y;
        AfterKeyCut(p', x, y, key);
      } else {
        AfterKeyShrinks(key, r, r);
        if ReadString(q[1..] + y).Some? { AfterKeyStuck(ReadString(q[1..] + y).value.0, y); }
      }
    }
  }

  lemma AfterKeyStuck(key: Text, y: Text)
    requires Opener(y)
    ensures AfterKey(key, y[2..]).None?
  {
    assert Skip(y[2..]) == y[2..];
  }

  /** Main result: a torn object, of which at least one byte arrived, with a whole object glued to it does
      not parse, and neither does a complete one. */
  lemma GluedDoesNotParse(m: Members, n: nat, y: Text)
    requires PrintableMembers(m) && 0 < n <= |Print(Obj(m))| && Opener(y)
    ensures Parse(Print(Obj(m))[..n] + y).None?
  {
    hide ReadValue, Print;
    var text := Print(Obj(m));
    var p, x := text[..n], text[n..];
    assert p + x == text && text + [] == text;
    if n == |text| {
      ReadsBack(Obj(m), y);
      assert p == text;
    } else {
      ReadsBack(Obj(m), []);
      StartsWithBrace(m, p, x);
      ValueCut(p, x, y);
    }
  }

  lemma StartsWithBrace(m: Members, p: Text, x: Text)
    requires p != [] && p + x == Print(Obj(m))
    ensures Skip(p) == p && p[0] == OPEN_BRACE
  {
    assert (p + x)[0] == p[0];
  }
}

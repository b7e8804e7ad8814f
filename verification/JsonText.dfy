/**
 What the reader reads: the JSON texts of RFC 8259 whose numbers are integers, with any white space
 between tokens and any spelling of a character. The reader accepts exactly these texts, as exactly the
 values they denote.
 */
module JsonText {
  import opened Texts
  import opened JsonValue
  import opened CanonicalJson
  import Canonical = CanonicalText

  // ---- The grammar --------------------------------------------------------------------------------------------------

  /** White space between tokens (section 2). */
  predicate BlankText(s: string) {
    forall i :: 0 <= i < |s| ==> s[i] in {' ', '\t', '\n', '\r'}
  }

  /** A hexadecimal digit of either case, and its value. */
  predicate HexText(c: char, n: int) {
    0 <= n < 16 && (c == "0123456789abcdef"[n] || c == "0123456789ABCDEF"[n])
  }

  /** Four hexadecimal digits. */
  ghost predicate UnitText(s: string, u: int) {
    |s| == 4 && exists a, b, c, d ::
      && HexText(s[0], a) && HexText(s[1], b) && HexText(s[2], c) && HexText(s[3], d)
      && u == a * 0x1000 + b * 0x100 + c * 0x10 + d
  }

  /** The spellings of a character (section 7): itself, a short escape, a unit, or a surrogate pair. */
  ghost predicate CharText(p: string, c: char) {
    || (p == [c] && ' ' <= c && c != '"' && c != '\\')
    || (|p| == 2 && p[0] == '\\'
        && (p[1], c) in {('"', '"'), ('\\', '\\'), ('/', '/'), ('b', 8 as char), ('f', 12 as char), ('n', '\n'),
                         ('r', '\r'), ('t', '\t')})
    || (|p| == 6 && p[0] == '\\' && p[1] == 'u' && UnitText(p[2..], c as int))
    || (|p| == 12 && p[0] == '\\' && p[1] == 'u' && p[6] == '\\' && p[7] == 'u' && c as int >= 0x1_0000
        && UnitText(p[2..6], 0xd800 + (c as int - 0x1_0000) / 0x400)
        && UnitText(p[8..12], 0xdc00 + (c as int - 0x1_0000) % 0x400))
  }

  ghost predicate StringText(s: string, t: string) {
    exists parts: seq<string> ::
      && |parts| == |t| && s == ['"'] + Canonical.Concat(parts) + ['"']
      && forall i :: 0 <= i < |t| ==> CharText(parts[i], t[i])
  }

  /** An integer (section 6): no leading zeros, but zero may be negative. */
  predicate NumberText(s: string, i: int) {
    || (Canonical.NaturalText(s) && i == NumberOf(s))
    || (s != "" && s[0] == '-' && Canonical.NaturalText(s[1..]) && i == 0 - NumberOf(s[1..]))
  }

  /** A token, or a structure from its first bracket to its last, that denotes a value. A repeated key
      keeps its last value. */
  ghost predicate Core(p: string, v: Json)
    decreases |p|, 1
  {
    match v
    case Null => p == "null"
    case Bool(b) => p == if b then "true" else "false"
    case Int(i) => NumberText(p, i)
    case Str(t) => StringText(p, t)
    case Arr(items) => (items == [] && Hollow(p, '[', ']')) || exists parts: seq<string> :: Elements(p, items, parts)
    case Obj(fields) =>
      || (fields == map[] && Hollow(p, '{', '}'))
      || exists parts: seq<string>, pairs: seq<(string, Json)> ::
           Members(p, pairs, parts) && fields == Collect(pairs)
  }

  /** Two brackets with only white space between them. */
  predicate Hollow(p: string, open: char, close: char) {
    |p| >= 2 && p[0] == open && p[|p| - 1] == close && BlankText(p[1..|p| - 1])
  }

  ghost predicate Elements(p: string, items: seq<Json>, parts: seq<string>)
    decreases |p|, 0
  {
    && |parts| == |items| > 0 && p == ['['] + Canonical.Joined(parts) + [']']
    && forall i :: 0 <= i < |parts| ==> |parts[i]| < |p| && Element(parts[i], items[i])
  }

  ghost predicate Members(p: string, pairs: seq<(string, Json)>, parts: seq<string>)
    decreases |p|, 0
  {
    && |parts| == |pairs| > 0 && p == ['{'] + Canonical.Joined(parts) + ['}']
    && forall i :: 0 <= i < |parts| ==> |parts[i]| < |p| && MemberText(parts[i], pairs[i].0, pairs[i].1)
  }

  /** A value with white space around it. */
  ghost predicate Element(s: string, v: Json)
    decreases |s|, 2
  {
    exists i, j :: 0 <= i <= j <= |s| && BlankText(s[..i]) && BlankText(s[j..]) && Core(s[i..j], v)
  }

  /** A key and its value, with white space around both. */
  ghost predicate MemberText(s: string, k: string, v: Json)
    decreases |s|, 2
  {
    exists i, j, m :: KeyAt(s, k, i, j, m) && Element(s[m + 1..], v)
  }

  /** White space, the key, white space and the colon. */
  ghost predicate KeyAt(s: string, k: string, i: int, j: int, m: int) {
    && 0 <= i <= j <= m < |s| && BlankText(s[..i]) && StringText(s[i..j], k) && BlankText(s[j..m]) && s[m] == ':'
  }

  /** A repeated key keeps its last value. */
  lemma {:induction false} LastValueStays(pairs: seq<(string, Json)>, k: string)
    ensures k in Collect(pairs) <==> exists i :: 0 <= i < |pairs| && pairs[i].0 == k
    ensures forall i :: 0 <= i < |pairs| && pairs[i].0 == k && (forall j :: i < j < |pairs| ==> pairs[j].0 != k) ==>
      Collect(pairs)[k] == pairs[i].1
    decreases |pairs|
  {
    if pairs != [] {
      var n := |pairs| - 1;
      LastValueStays(pairs[..n], k);
      assert forall i :: 0 <= i < n ==> pairs[..n][i] == pairs[i];
      assert pairs[n].0 == k ==> k in Collect(pairs);
    }
  }

  // ---- White space --------------------------------------------------------------------------------------------------

  lemma {:induction false} SkipStops(s: string) returns (n: nat)
    ensures n <= |s| && BlankText(s[..n]) && Skip(s) == s[n..] && (n < |s| ==> !Blank(s[n]))
    decreases |s|
  {
    n := 0;
    if s != "" && Blank(s[0]) {
      var m := SkipStops(s[1..]);
      n := m + 1;
      assert s[..n] == [s[0]] + s[1..][..m];
    }
  }

  lemma {:induction false} SkipBlanks(w: string, s: string)
    requires BlankText(w) && (s == "" || !Blank(s[0]))
    ensures Skip(w + s) == s
    decreases |w|
  {
    if w == "" {
      assert w + s == s;
    } else {
      assert (w + s)[1..] == w[1..] + s;
      SkipBlanks(w[1..], s);
    }
  }

  // ---- Strings ------------------------------------------------------------------------------------------------------

  lemma HexDecided(c: char)
    ensures HexValue(c).Some? ==> HexText(c, HexValue(c).value)
    ensures forall n: int :: HexText(c, n) ==> HexValue(c) == Some(n)
  {
  }

  lemma UnitDecided(s: string)
    requires |s| >= 4
    ensures HexUnit(s).Some? ==> UnitText(s[..4], HexUnit(s).value)
    ensures forall u: int :: UnitText(s[..4], u) ==> HexUnit(s) == Some(u)
  {
    hide HexUnit, UnitText;
    if HexUnit(s).Some? {
      UnitSpells(s);
    }
    forall u: int | UnitText(s[..4], u) ensures HexUnit(s) == Some(u) {
      UnitReads(s, u);
    }
  }

  lemma UnitSpells(s: string)
    requires HexUnit(s).Some?
    ensures UnitText(s[..4], HexUnit(s).value)
  {
    hide HexValue, HexText;
    HexDecided(s[0]);
    HexDecided(s[1]);
    HexDecided(s[2]);
    HexDecided(s[3]);
    var t, a, b, c, d :=
      s[..4], HexValue(s[0]).value, HexValue(s[1]).value, HexValue(s[2]).value, HexValue(s[3]).value;
    assert HexText(t[0], a) && HexText(t[1], b) && HexText(t[2], c) && HexText(t[3], d);
    assert HexUnit(s).value == a * 0x1000 + b * 0x100 + c * 0x10 + d;
  }

  lemma UnitReads(s: string, u: int)
    requires |s| >= 4 && UnitText(s[..4], u)
    ensures HexUnit(s) == Some(u)
  {
    hide HexValue, HexText;
    var t := s[..4];
    var a, b, c, d :|
      && HexText(t[0], a) && HexText(t[1], b) && HexText(t[2], c) && HexText(t[3], d)
      && u == a * 0x1000 + b * 0x100 + c * 0x10 + d;
    HexDecided(s[0]);
    HexDecided(s[1]);
    HexDecided(s[2]);
    HexDecided(s[3]);
  }

  /** A unit, or a surrogate pair, is read, whatever follows it. */
  lemma UnitRead(p: string, c: char, tail: string)
    requires CharText(p, c) && |p| >= 6
    ensures p[0] == '\\' && p[1] == 'u' && UnicodeEscape(p[2..] + tail) == Some((c, tail))
  {
    hide HexUnit, UnitText;
    var t := p[2..] + tail;
    UnitDecided(t);
    if |p| == 6 {
      assert t[..4] == p[2..] && t[4..] == tail;
    } else {
      UnitDecided(t[6..]);
      assert t[..4] == p[2..6] && t[6..][..4] == p[8..12] && t[10..] == tail;
    }
  }

  /** A spelled character is read, whatever follows it. */
  lemma CharRead(p: string, c: char, tail: string, s: string, rest: string)
    requires CharText(p, c) && ReadChars(tail) == Some((s, rest))
    ensures ReadChars(p + tail) == Some(([c] + s, rest))
  {
    hide UnicodeEscape, UnitText;
    var t := p + tail;
    if |p| >= 6 {
      UnitRead(p, c, tail);
      assert t[2..] == p[2..] + tail;
    } else if |p| == 2 {
      assert t[2..] == tail;
    } else {
      assert t[1..] == tail;
    }
  }

  lemma {:induction false} CharsRead(parts: seq<string>, t: string, rest: string)
    requires |parts| == |t| && forall i :: 0 <= i < |t| ==> CharText(parts[i], t[i])
    ensures ReadChars(Canonical.Concat(parts) + ['"'] + rest) == Some((t, rest))
    decreases |parts|
  {
    hide CharText;
    var all := Canonical.Concat(parts) + ['"'] + rest;
    if parts == [] {
      assert all == ['"'] + rest && all[1..] == rest;
    } else {
      CharsRead(parts[1..], t[1..], rest);
      var tail := Canonical.Concat(parts[1..]) + ['"'] + rest;
      CharRead(parts[0], t[0], tail, t[1..], rest);
      assert all == parts[0] + tail && t == [t[0]] + t[1..];
    }
  }

  /** A unit, or a pair of them, spells a character. */
  lemma UnitSpelled(s: string) returns (n: nat)
    requires UnicodeEscape(s).Some?
    ensures var (c, rest) := UnicodeEscape(s).value;
      n <= |s| && s[n..] == rest && CharText("\\u" + s[..n], c)
  {
    hide HexUnit, UnitText;
    UnitDecided(s);
    var u, c := HexUnit(s).value, UnicodeEscape(s).value.0;
    if u < 0xd800 || 0xe000 <= u {
      n := 4;
      assert ("\\u" + s[..4])[2..] == s[..4];
    } else {
      n := 10;
      UnitDecided(s[6..]);
      var p, low := "\\u" + s[..10], HexUnit(s[6..]).value;
      assert p[2..6] == s[..4] && p[8..12] == s[6..][..4];
      assert c as int == 0x1_0000 + (u - 0xd800) * 0x400 + (low - 0xdc00);
    }
  }

  /** One character of a read text, and what follows it. */
  lemma CharSpelled(s: string) returns (n: nat)
    requires ReadChars(s).Some? && s[0] != '"'
    ensures var (t, rest) := ReadChars(s).value;
      && 0 < n <= |s| && t != "" && CharText(s[..n], t[0]) && ReadChars(s[n..]) == Some((t[1..], rest))
  {
    hide UnicodeEscape, HexUnit, UnitText;
    if s[0] != '\\' {
      n := 1;
      assert s[..1] == [s[0]];
    } else if s[1] == 'u' {
      var m := UnitSpelled(s[2..]);
      n := m + 2;
      assert s[..n] == "\\u" + s[2..][..m] && s[n..] == s[2..][m..];
    } else {
      n := 2;
    }
  }

  lemma {:induction false} CharsSpelled(s: string) returns (parts: seq<string>)
    requires ReadChars(s).Some?
    ensures var (t, rest) := ReadChars(s).value;
      && |parts| == |t| && s == Canonical.Concat(parts) + ['"'] + rest
      && forall i :: 0 <= i < |t| ==> CharText(parts[i], t[i])
    decreases |s|
  {
    hide CharText, ReadChars;
    NotEmpty(s);
    if s[0] == '"' {
      Closed(s);
      parts := [];
      assert s == [s[0]] + s[1..];
    } else {
      var n := CharSpelled(s);
      var more := CharsSpelled(s[n..]);
      parts := [s[..n]] + more;
      assert parts[1..] == more;
      assert s == s[..n] + s[n..];
    }
  }

  lemma NotEmpty(s: string)
    requires ReadChars(s).Some?
    ensures s != ""
  {
  }

  lemma Closed(s: string)
    requires s != "" && s[0] == '"'
    ensures ReadChars(s) == Some(("", s[1..]))
  {
  }

  // ---- Numbers ------------------------------------------------------------------------------------------------------

  /** What may follow a value: nothing, white space, or the next token of a structure. */
  predicate Ends(rest: string) {
    rest == "" || rest[0] in {' ', '\t', '\n', '\r', ',', ']', '}'}
  }

  lemma NaturalRead(d: string, rest: string)
    requires Canonical.NaturalText(d) && Ends(rest)
    ensures ReadNat(d + rest) == Some((NumberOf(d), rest))
  {
    hide NumberOf;
    RunStops(d, rest);
    assert (d + rest)[..|d|] == d && (d + rest)[|d|..] == rest;
  }

  lemma NumberRead(p: string, i: int, rest: string)
    requires NumberText(p, i) && Ends(rest)
    ensures Read(p + rest) == Some((Int(i), rest))
  {
    hide ReadItems, ReadFields, ReadChars, ReadNat, NumberOf;
    var t := p + rest;
    assert t[0] == p[0] && Skip(t) == t;
    if p[0] == '-' {
      NaturalRead(p[1..], rest);
      assert t[1..] == p[1..] + rest;
    } else {
      NaturalRead(p, rest);
    }
  }

  lemma NaturalSpelled(s: string) returns (n: nat)
    requires ReadNat(s).Some?
    ensures n <= |s| && Canonical.NaturalText(s[..n]) && ReadNat(s).value == (NumberOf(s[..n]), s[n..])
  {
    hide NumberOf;
    n := DigitRun(s);
  }

  // ---- Reading what the grammar has ---------------------------------------------------------------------------------

  lemma CoreOpens(p: string, v: Json)
    requires Core(p, v)
    ensures p != "" && Opens(p[0]) && (v.Null? || v.Bool? ==> p in {"null", "true", "false"})
  {
    hide Elements, Members, CharText, Collect;
    match v
    case Arr(items) =>
      if !(items == [] && Hollow(p, '[', ']')) {
        var parts :| Elements(p, items, parts);
        StartsWith(p, items, parts);
      }
    case Obj(fields) =>
      if !(fields == map[] && Hollow(p, '{', '}')) {
        var parts: seq<string>, pairs: seq<(string, Json)> :| Members(p, pairs, parts) && fields == Collect(pairs);
        StartsWithKey(p, pairs, parts);
      }
    case _ =>
  }

  lemma StartsWith(p: string, items: seq<Json>, parts: seq<string>)
    requires Elements(p, items, parts)
    ensures p != "" && p[0] == '['
  {
    hide Element;
  }

  lemma StartsWithKey(p: string, pairs: seq<(string, Json)>, parts: seq<string>)
    requires Members(p, pairs, parts)
    ensures p != "" && p[0] == '{'
  {
    hide MemberText;
  }

  lemma StringRead(p: string, t: string, rest: string)
    requires StringText(p, t)
    ensures p != "" && p[0] == '"' && ReadChars((p + rest)[1..]) == Some((t, rest))
  {
    hide CharText, ReadChars;
    var parts: seq<string> :|
      && |parts| == |t| && p == ['"'] + Canonical.Concat(parts) + ['"']
      && forall i :: 0 <= i < |t| ==> CharText(parts[i], t[i]);
    CharsRead(parts, t, rest);
    assert (p + rest)[1..] == Canonical.Concat(parts) + ['"'] + rest;
  }

  lemma WordRead(p: string, v: Json, rest: string)
    requires (v.Null? || v.Bool?) && Core(p, v)
    ensures Read(p + rest) == Some((v, rest))
  {
    assert p == Print(v);
    WordReads(v, rest);
  }

  lemma TextRead(p: string, t: string, rest: string)
    requires StringText(p, t)
    ensures Read(p + rest) == Some((Str(t), rest))
  {
    hide ReadItems, ReadFields, ReadChars, StringText;
    StringRead(p, t, rest);
    SkipOpens(p + rest);
  }

  lemma HollowRead(p: string, rest: string)
    ensures Hollow(p, '[', ']') ==> Read(p + rest) == Some((Arr([]), rest))
    ensures Hollow(p, '{', '}') ==> Read(p + rest) == Some((Obj(map[]), rest))
  {
    hide Read;
    if Hollow(p, '[', ']') {
      HollowSkipped(p, '[', ']', rest);
      ReadsHollow(p + rest, rest);
    }
    if Hollow(p, '{', '}') {
      HollowSkipped(p, '{', '}', rest);
      ReadsHollow(p + rest, rest);
    }
  }

  lemma HollowSkipped(p: string, open: char, close: char, rest: string)
    requires Hollow(p, open, close) && !Blank(close)
    ensures (p + rest)[0] == open && Skip((p + rest)[1..]) == [close] + rest
  {
    hide Skip;
    var w := p[1..|p| - 1];
    SkipBlanks(w, [close] + rest);
    assert (p + rest)[1..] == w + ([close] + rest);
  }

  lemma ReadsHollow(t: string, rest: string)
    requires t != ""
    ensures t[0] == '[' && Skip(t[1..]) == [']'] + rest ==> Read(t) == Some((Arr([]), rest))
    ensures t[0] == '{' && Skip(t[1..]) == ['}'] + rest ==> Read(t) == Some((Obj(map[]), rest))
  {
    hide ReadItems, ReadFields, ReadChars, ReadNat;
    if t[0] == '[' || t[0] == '{' {
      SkipOpens(t);
      hide Skip;
      assert ([']'] + rest)[1..] == rest && (['}'] + rest)[1..] == rest;
    }
  }

  /** A value with white space around it is read up to the white space behind it. */
  lemma ElementRead(s: string, v: Json, rest: string) returns (w: string)
    requires Element(s, v) && Ends(rest)
    ensures BlankText(w) && Read(s + rest) == Some((v, w + rest))
    decreases |s|, 4, 0
  {
    hide Core, Read, Opens;
    var i, j :| 0 <= i <= j <= |s| && BlankText(s[..i]) && BlankText(s[j..]) && Core(s[i..j], v);
    w := s[j..];
    CoreRead(s[i..j], v, w + rest);
    CoreOpens(s[i..j], v);
    var t := s[i..j] + (w + rest);
    assert s + rest == s[..i] + t && t[0] == s[i..j][0];
    ReadSkips(s[..i], t);
  }

  /** White space in front changes nothing. */
  lemma ReadSkips(w: string, t: string)
    requires BlankText(w) && t != "" && Opens(t[0])
    ensures Read(w + t) == Read(t)
  {
    hide ReadItems, ReadFields, ReadChars, ReadNat;
    SkipBlanks(w, t);
    SkipOpens(t);
  }

  lemma CoreToken(p: string, v: Json)
    requires Core(p, v)
    ensures (v.Int? ==> NumberText(p, v.i)) && (v.Str? ==> StringText(p, v.s))
  {
    hide NumberText, StringText;
  }

  lemma {:induction false} CoreRead(p: string, v: Json, rest: string)
    requires Core(p, v) && Ends(rest)
    ensures Read(p + rest) == Some((v, rest))
    decreases |p|, 3, 0
  {
    hide Read, Core, Skip;
    match v
    case Null => WordRead(p, v, rest);
    case Bool(_) => WordRead(p, v, rest);
    case Int(i) =>
      CoreToken(p, v);
      NumberRead(p, i, rest);
    case Str(t) =>
      CoreToken(p, v);
      TextRead(p, t, rest);
    case Arr(items) => ArrayRead(p, items, rest);
    case Obj(fields) => ObjectRead(p, fields, rest);
  }

  lemma {:induction false} ArrayRead(p: string, items: seq<Json>, rest: string)
    requires Core(p, Arr(items)) && Ends(rest)
    ensures Read(p + rest) == Some((Arr(items), rest))
    decreases |p|, 2, 0
  {
    hide Read, ReadItems, Element, Skip, Elements;
    if items == [] && Hollow(p, '[', ']') {
      HollowRead(p, rest);
    } else {
      var parts :| Elements(p, items, parts);
      ElementsAre(p, items, parts);
      var s := Canonical.Joined(parts) + [']'] + rest;
      assert p + rest == ['['] + s;
      ElementsRead(|p|, parts, items, rest);
      JoinedStarts(parts);
      NoBracket(parts[0], items[0], s);
      BracketRead(s, items, rest);
    }
  }

  lemma ElementsAre(p: string, items: seq<Json>, parts: seq<string>)
    requires Elements(p, items, parts)
    ensures |parts| == |items| > 0 && p == ['['] + Canonical.Joined(parts) + [']']
    ensures forall i :: 0 <= i < |parts| ==> |parts[i]| < |p| && Element(parts[i], items[i])
  {
    hide Element;
  }

  lemma MembersAre(p: string, pairs: seq<(string, Json)>, parts: seq<string>)
    requires Members(p, pairs, parts)
    ensures |parts| == |pairs| > 0 && p == ['{'] + Canonical.Joined(parts) + ['}']
    ensures forall i :: 0 <= i < |parts| ==> |parts[i]| < |p| && MemberText(parts[i], pairs[i].0, pairs[i].1)
  {
    hide MemberText;
  }

  lemma BracketRead(s: string, items: seq<Json>, rest: string)
    requires Skip(s) == "" || Skip(s)[0] != ']'
    requires ReadItems(s) == Some((items, rest))
    ensures Read(['['] + s) == Some((Arr(items), rest))
  {
    hide ReadItems, ReadFields, ReadChars;
    var t := ['['] + s;
    SkipOpens(t);
    assert t[1..] == s;
  }

  /** An array with an element does not read as the empty array. */
  lemma NoBracket(part: string, v: Json, s: string)
    requires Element(part, v) && part <= s
    ensures Skip(s) != "" && Opens(Skip(s)[0])
  {
    hide Core, Opens;
    var i, j :| 0 <= i <= j <= |part| && BlankText(part[..i]) && BlankText(part[j..]) && Core(part[i..j], v);
    CoreOpens(part[i..j], v);
    assert s == part[..i] + s[i..] && s[i] == part[i..j][0];
    OpensNotBlank(s[i]);
    SkipBlanks(part[..i], s[i..]);
  }

  lemma OpensNotBlank(c: char)
    requires Opens(c)
    ensures !Blank(c) && c != ']' && c != '}'
  {
  }

  lemma {:induction false} ElementsRead(bound: nat, parts: seq<string>, items: seq<Json>, rest: string)
    requires
      |parts| == |items| > 0 && forall i :: 0 <= i < |parts| ==> |parts[i]| < bound && Element(parts[i], items[i])
    ensures ReadItems(Canonical.Joined(parts) + [']'] + rest) == Some((items, rest))
    decreases bound, 1, |parts|
  {
    hide Read, Element, Skip;
    var s := Canonical.Joined(parts) + [']'] + rest;
    if |parts| == 1 {
      var tail := [']'] + rest;
      var w := ElementRead(parts[0], items[0], tail);
      assert s == parts[0] + tail;
      LastItemRead(s, items[0], w, rest);
      assert items == [items[0]];
    } else {
      var more := Canonical.Joined(parts[1..]) + [']'] + rest;
      ElementsRead(bound, parts[1..], items[1..], rest);
      var w := ElementRead(parts[0], items[0], [','] + more);
      assert s == parts[0] + ([','] + more);
      ItemRead(s, items[0], w, more, items[1..], rest);
      assert items == [items[0]] + items[1..];
    }
  }

  lemma LastItemRead(s: string, v: Json, w: string, rest: string)
    requires BlankText(w) && Read(s) == Some((v, w + ([']'] + rest)))
    ensures ReadItems(s) == Some(([v], rest))
  {
    hide Read;
    SkipBlanks(w, [']'] + rest);
    assert ([']'] + rest)[1..] == rest;
  }

  lemma ItemRead(s: string, v: Json, w: string, more: string, vs: seq<Json>, rest: string)
    requires BlankText(w) && Read(s) == Some((v, w + ([','] + more))) && ReadItems(more) == Some((vs, rest))
    ensures ReadItems(s) == Some(([v] + vs, rest))
  {
    hide Read;
    SkipBlanks(w, [','] + more);
    assert ([','] + more)[1..] == more;
  }

  lemma {:induction false} ObjectRead(p: string, fields: map<string, Json>, rest: string)
    requires Core(p, Obj(fields)) && Ends(rest)
    ensures Read(p + rest) == Some((Obj(fields), rest))
    decreases |p|, 2, 0
  {
    hide Read, ReadFields, MemberText, Skip, Collect, Members, Canonical.Joined;
    if fields == map[] && Hollow(p, '{', '}') {
      HollowRead(p, rest);
    } else {
      var parts: seq<string>, pairs: seq<(string, Json)> :| Members(p, pairs, parts) && fields == Collect(pairs);
      MembersAre(p, pairs, parts);
      var s := Canonical.Joined(parts) + ['}'] + rest;
      assert p + rest == ['{'] + s;
      MembersRead(|p|, parts, pairs, rest);
      JoinedStarts(parts);
      NoBrace(parts[0], pairs[0].0, pairs[0].1, s);
      BraceRead(s, pairs, rest);
    }
  }

  lemma JoinedStarts(parts: seq<string>)
    requires parts != []
    ensures parts[0] <= Canonical.Joined(parts)
  {
  }

  lemma BraceRead(s: string, pairs: seq<(string, Json)>, rest: string)
    requires Skip(s) == "" || Skip(s)[0] != '}'
    requires ReadFields(s) == Some((pairs, rest))
    ensures Read(['{'] + s) == Some((Obj(Collect(pairs)), rest))
  {
    hide ReadItems, ReadFields, ReadChars, Collect;
    var t := ['{'] + s;
    SkipOpens(t);
    assert t[1..] == s;
  }

  lemma NoBrace(part: string, k: string, v: Json, s: string)
    requires MemberText(part, k, v) && part <= s
    ensures Skip(s) != "" && Skip(s)[0] == '"'
  {
    hide Element, StringText, ReadChars, Skip, CharText;
    var i, j, m :| KeyAt(part, k, i, j, m) && Element(part[m + 1..], v);
    StringRead(part[i..j], k, "");
    assert s == part[..i] + s[i..] && s[i] == part[i..j][0];
    SkipBlanks(part[..i], s[i..]);
  }

  lemma {:induction false} MembersRead(bound: nat, parts: seq<string>, pairs: seq<(string, Json)>, rest: string)
    requires |parts| == |pairs| > 0
    requires forall i :: 0 <= i < |parts| ==> |parts[i]| < bound && MemberText(parts[i], pairs[i].0, pairs[i].1)
    ensures ReadFields(Canonical.Joined(parts) + ['}'] + rest) == Some((pairs, rest))
    decreases bound, 1, |parts|
  {
    hide Read, ReadFields, MemberText, Skip;
    var s := Canonical.Joined(parts) + ['}'] + rest;
    if |parts| == 1 {
      assert s == parts[0] + (['}'] + rest);
      MemberRead(parts[0], pairs[0].0, pairs[0].1, ['}'] + rest);
      assert (['}'] + rest)[1..] == rest;
      assert pairs == [pairs[0]] && pairs[0] == (pairs[0].0, pairs[0].1);
    } else {
      var more := Canonical.Joined(parts[1..]) + ['}'] + rest;
      MembersRead(bound, parts[1..], pairs[1..], rest);
      assert s == parts[0] + ([','] + more);
      MemberRead(parts[0], pairs[0].0, pairs[0].1, [','] + more);
      assert ([','] + more)[1..] == more;
      assert pairs == [(pairs[0].0, pairs[0].1)] + pairs[1..];
    }
  }

  /** A member and what follows it: the closing brace, or a comma and more members. */
  lemma {:induction false} MemberRead(part: string, k: string, v: Json, tail: string)
    requires MemberText(part, k, v) && tail != "" && (tail[0] == '}' || tail[0] == ',')
    ensures tail[0] == '}' ==> ReadFields(part + tail) == Some(([(k, v)], tail[1..]))
    ensures tail[0] == ',' && ReadFields(tail[1..]).Some? ==>
      ReadFields(part + tail) == Some(([(k, v)] + ReadFields(tail[1..]).value.0, ReadFields(tail[1..]).value.1))
    decreases |part|, 5, 0
  {
    hide Read, ReadChars, Element, StringText;
    var i, j, m :| KeyAt(part, k, i, j, m) && Element(part[m + 1..], v);
    var value := part[m + 1..] + tail;
    var colon := [':'] + value;
    var key := part[i..j] + (part[j..m] + colon);
    assert part + tail == part[..i] + key;
    StringRead(part[i..j], k, part[j..m] + colon);
    assert key[0] == part[i..j][0];
    SkipBlanks(part[..i], key);
    SkipBlanks(part[j..m], colon);
    var w := ElementRead(part[m + 1..], v, tail);
    assert colon[1..] == value;
    SkipBlanks(w, tail);
  }

  // ---- The grammar has what is read ---------------------------------------------------------------------------------

  /** What reading a value consumes: white space and the text of the value. */
  ghost predicate Consumed(s: string, v: Json, rest: string, i: int, j: int) {
    0 <= i <= j <= |s| && BlankText(s[..i]) && Core(s[i..j], v) && s[j..] == rest
  }

  lemma ReadConsumes(s: string) returns (i: int, j: int)
    requires Read(s).Some?
    ensures Consumed(s, Read(s).value.0, Read(s).value.1, i, j)
    decreases |s|, 4
  {
    hide Core, ReadItems, ReadFields, ReadChars, ReadNat, Collect;
    i := SkipStops(s);
    var t := s[i..];
    var n := TokenConsumes(s, t);
    j := i + n;
    assert s[i..j] == t[..n] && s[j..] == t[n..];
  }

  /** The same for a text without white space in front. */
  lemma TokenConsumes(s: string, t: string) returns (n: nat)
    requires Read(s).Some? && t == Skip(s) && |t| <= |s| && t != ""
    ensures n <= |t| && Core(t[..n], Read(s).value.0) && t[n..] == Read(s).value.1
    decreases |s|, 3
  {
    hide ReadItems, ReadFields, ReadChars, ReadNat, Collect, Skip, StringText, Elements, Members, NumberOf,
      Canonical.NaturalText, Canonical.Joined, Hollow;
    var v, rest := Read(s).value.0, Read(s).value.1;
    if t[0] == '"' {
      n := TextConsumes(t);
    } else if t[0] == '[' {
      n := ArrayConsumes(t, v, rest);
    } else if t[0] == '{' {
      n := ObjectConsumes(t, v, rest);
    } else if t[0] == '-' {
      var m := NaturalSpelled(t[1..]);
      n := m + 1;
      assert t[..n][1..] == t[1..][..m] && t[1..][m..] == t[n..];
    } else if IsDigit(t[0]) {
      n := NaturalSpelled(t);
    } else if "null" <= t {
      n := 4;
    } else if "true" <= t {
      n := 4;
    } else {
      n := 5;
    }
  }

  lemma TextConsumes(t: string) returns (n: nat)
    requires t != "" && t[0] == '"' && ReadChars(t[1..]).Some?
    ensures n <= |t| && StringText(t[..n], ReadChars(t[1..]).value.0) && t[n..] == ReadChars(t[1..]).value.1
  {
    hide ReadChars, CharText;
    var parts := CharsSpelled(t[1..]);
    var text, rest := ReadChars(t[1..]).value.0, ReadChars(t[1..]).value.1;
    n := |t| - |rest|;
    var whole := ['"'] + Canonical.Concat(parts) + ['"'];
    assert t == whole + rest;
    assert t[..n] == whole;
  }

  lemma ArrayConsumes(t: string, v: Json, rest: string) returns (n: nat)
    requires t != "" && t[0] == '['
    requires
      var u := Skip(t[1..]);
      if u != "" && u[0] == ']' then v == Arr([]) && rest == u[1..]
      else ReadItems(t[1..]) == (if v.Arr? then Some((v.items, rest)) else None) && v.Arr?
    ensures n <= |t| && Core(t[..n], v) && t[n..] == rest
    decreases |t|, 2
  {
    hide Read, ReadItems, Element;
    var u := Skip(t[1..]);
    if u != "" && u[0] == ']' {
      n := HollowConsumes(t, '[', ']');
    } else {
      var parts := ItemsConsume(t[1..]);
      n := |t| - |rest|;
      var p := ['['] + Canonical.Joined(parts) + [']'];
      assert t == p + rest;
      assert t[..n] == p && t[n..] == rest;
      forall i | 0 <= i < |parts| ensures |parts[i]| < |p| {
        Canonical.PartIsShorter(parts, i);
      }
      assert Elements(p, v.items, parts);
    }
  }

  lemma HollowConsumes(t: string, open: char, close: char) returns (n: nat)
    requires t != "" && t[0] == open && Skip(t[1..]) != "" && Skip(t[1..])[0] == close
    ensures n <= |t| && Hollow(t[..n], open, close) && t[n..] == Skip(t[1..])[1..]
  {
    var m := SkipStops(t[1..]);
    n := m + 2;
    assert t[..n][1..|t[..n]| - 1] == t[1..][..m];
  }

  /** The first element of an array, up to the token behind it. */
  lemma ItemConsumes(s: string) returns (l: nat)
    requires ReadItems(s).Some?
    ensures var (vs, rest) := ReadItems(s).value;
      && l < |s| && vs != [] && Element(s[..l], vs[0])
      && (if s[l] == ']' then |vs| == 1 && rest == s[l + 1..]
          else s[l] == ',' && ReadItems(s[l + 1..]) == Some((vs[1..], rest)))
    decreases |s|, 5
  {
    hide Read, Core, Skip, BlankText, Element;
    var v, r := Read(s).value.0, Read(s).value.1;
    var i, j := ReadConsumes(s);
    var m := SkipStops(r);
    ElementAt(s, v, r, i, j, m);
    l := j + m;
    assert r == s[j..] && Skip(r) == s[l..] && s[l..][1..] == s[l + 1..];
  }

  /** The elements of an array, each with the white space around it. */
  lemma {:induction false} ItemsConsume(s: string) returns (parts: seq<string>)
    requires ReadItems(s).Some?
    ensures var (vs, rest) := ReadItems(s).value;
      && |parts| == |vs| > 0 && s == Canonical.Joined(parts) + [']'] + rest
      && forall i :: 0 <= i < |parts| ==> Element(parts[i], vs[i])
    decreases |s|, 6
  {
    hide ReadItems, Element;
    var l := ItemConsumes(s);
    var e, t := s[..l], s[l..];
    assert s == e + t && t[1..] == s[l + 1..];
    if t[0] == ']' {
      parts := [e];
      assert s == e + [']'] + t[1..];
    } else {
      var more := ItemsConsume(t[1..]);
      parts := [e] + more;
      assert parts[1..] == more;
      assert s == e + ([','] + t[1..]);
    }
  }

  lemma ObjectConsumes(t: string, v: Json, rest: string) returns (n: nat)
    requires t != "" && t[0] == '{'
    requires
      var u := Skip(t[1..]);
      if u != "" && u[0] == '}' then v == Obj(map[]) && rest == u[1..]
      else ReadFields(t[1..]).Some? && ReadFields(t[1..]).value.1 == rest
           && v == Obj(Collect(ReadFields(t[1..]).value.0))
    ensures n <= |t| && Core(t[..n], v) && t[n..] == rest
    decreases |t|, 2
  {
    hide Read, ReadFields, MemberText, Collect;
    var u := Skip(t[1..]);
    if u != "" && u[0] == '}' {
      n := HollowConsumes(t, '{', '}');
    } else {
      var parts := MembersConsume(t[1..]);
      n := |t| - |rest|;
      var p := ['{'] + Canonical.Joined(parts) + ['}'];
      assert t == p + rest;
      assert t[..n] == p && t[n..] == rest;
      forall i | 0 <= i < |parts| ensures |parts[i]| < |p| {
        Canonical.PartIsShorter(parts, i);
      }
      assert Members(p, ReadFields(t[1..]).value.0, parts);
    }
  }

  /** The members of an object, each with the white space around it. */
  lemma {:induction false} MembersConsume(s: string) returns (parts: seq<string>)
    requires ReadFields(s).Some?
    ensures var (pairs, rest) := ReadFields(s).value;
      && |parts| == |pairs| > 0 && s == Canonical.Joined(parts) + ['}'] + rest
      && forall i :: 0 <= i < |parts| ==> MemberText(parts[i], pairs[i].0, pairs[i].1)
    decreases |s|, 5
  {
    hide ReadFields, MemberText;
    var l := MemberConsumes(s);
    var e, t := s[..l], s[l..];
    assert s == e + t && t[1..] == s[l + 1..];
    if t[0] == '}' {
      parts := [e];
      assert s == e + ['}'] + t[1..];
    } else {
      var more := MembersConsume(t[1..]);
      parts := [e] + more;
      assert parts[1..] == more;
      assert s == e + ([','] + t[1..]);
    }
  }

  /** The key of the first member, and the text from its value on. */
  lemma KeyConsumes(s: string) returns (i: int, j: int, m: int, k: string)
    requires ReadFields(s).Some?
    ensures KeyAt(s, k, i, j, m) && Read(s[m + 1..]).Some?
    ensures var (v, w) := Read(s[m + 1..]).value;
      var (pairs, rest) := ReadFields(s).value;
      && Skip(w) != "" && pairs != [] && pairs[0] == (k, v)
      && (if Skip(w)[0] == '}' then |pairs| == 1 && rest == Skip(w)[1..]
          else Skip(w)[0] == ',' && ReadFields(Skip(w)[1..]) == Some((pairs[1..], rest)))
  {
    hide Read, ReadChars, BlankText, StringText;
    i := SkipStops(s);
    var t := s[i..];
    var n := TextConsumes(t);
    j := i + n;
    k := ReadChars(t[1..]).value.0;
    var r := ReadChars(t[1..]).value.1;
    var a := SkipStops(r);
    m := j + a;
    assert s[i..j] == t[..n] && s[j..m] == r[..a] && s[m + 1..] == r[a..][1..];
  }

  /** The first member of an object, up to the token behind it. */
  lemma MemberConsumes(s: string) returns (l: nat)
    requires ReadFields(s).Some?
    ensures var (pairs, rest) := ReadFields(s).value;
      && l < |s| && pairs != [] && MemberText(s[..l], pairs[0].0, pairs[0].1)
      && (if s[l] == '}' then |pairs| == 1 && rest == s[l + 1..]
          else s[l] == ',' && ReadFields(s[l + 1..]) == Some((pairs[1..], rest)))
    decreases |s|, 4
  {
    hide Read, Core, ReadFields, BlankText, StringText, Skip;
    var i, j, m, k := KeyConsumes(s);
    var value := s[m + 1..];
    var v, w := Read(value).value.0, Read(value).value.1;
    var b, c := ReadConsumes(value);
    var d := SkipStops(w);
    l := m + 1 + c + d;
    assert Skip(w) == s[l..] && s[l..][1..] == s[l + 1..];
    var e := s[..l];
    assert e[..i] == s[..i] && e[i..j] == s[i..j] && e[j..m] == s[j..m];
    assert e[m + 1..] == value[..c + d];
    ElementAt(value, v, w, b, c, d);
    assert KeyAt(e, k, i, j, m);
  }

  lemma ElementAt(value: string, v: Json, w: string, b: int, c: int, d: nat)
    requires Consumed(value, v, w, b, c) && d <= |w| && BlankText(w[..d])
    ensures c + d <= |value| && Element(value[..c + d], v)
  {
    hide Core, BlankText;
    var e := value[..c + d];
    assert e[..b] == value[..b] && e[b..c] == value[b..c] && e[c..] == w[..d];
  }

  // ---- The reader ---------------------------------------------------------------------------------------------------

  /** The reader accepts exactly the JSON texts with integer numbers, as the values they denote. */
  lemma LoadsDecided(s: string, v: Json)
    ensures Loads(s) == Some(v) <==> Element(s, v)
  {
    hide Read, Core;
    if Loads(s) == Some(v) {
      var i, j := ReadConsumes(s);
      var m := SkipStops(s[j..]);
      assert s[j..][..m] == s[j..];
    }
    if Element(s, v) {
      var w := ElementRead(s, v, "");
      assert s + "" == s && w + "" == w;
      SkipBlanks(w, "");
    }
  }
}

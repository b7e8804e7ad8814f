/**
 The canonical text of a JSON value: sorted keys, no white space, and the string escapes of section
 7 of RFC 8259 that the encoder uses. The printer and a reader of JSON texts are proved inverse.
 */
module CanonicalJson {
  import opened Texts
  import opened JsonValue

  // ---- Key order ----------------------------------------------------------------------------------------------------

  ghost predicate IsFirst(k: string, s: set<string>) {
    k in s && forall x :: x in s ==> x == k || Before(k, x)
  }

  lemma {:induction false} HasFirst(s: set<string>) returns (k: string)
    requires s != {}
    ensures IsFirst(k, s)
    decreases |s|
  {
    var x :| x in s;
    if s == {x} {
      k := x;
    } else {
      var rest := HasFirst(s - {x});
      BeforeTotal(x, rest);
      k := if Before(x, rest) then x else rest;
      forall y | y in s ensures y == k || Before(k, y) {
        if y != x && k == x {
          if y != rest {
            BeforeTransitive(x, rest, y);
          }
        }
      }
    }
  }

  lemma FirstExists(s: set<string>)
    requires s != {}
    ensures exists k :: IsFirst(k, s)
  {
    var k := HasFirst(s);
  }

  ghost function First(s: set<string>): (k: string)
    requires s != {}
    ensures IsFirst(k, s)
  {
    FirstExists(s);
    var k :| IsFirst(k, s);
    k
  }

  ghost function SortedKeys(s: set<string>): (keys: seq<string>)
    ensures forall k :: k in keys <==> k in s
    decreases |s|
  {
    if s == {} then [] else [First(s)] + SortedKeys(s - {First(s)})
  }

  predicate Increasing(keys: seq<string>) {
    forall i, j :: 0 <= i < j < |keys| ==> Before(keys[i], keys[j])
  }

  /** The keys come out in strictly increasing order, each once. */
  lemma {:induction false} KeysSorted(s: set<string>)
    ensures Increasing(SortedKeys(s))
    decreases |s|
  {
    hide Before;
    if s != {} {
      var k := First(s);
      var rest := SortedKeys(s - {k});
      KeysSorted(s - {k});
      forall j | 0 <= j < |rest| ensures Before(k, rest[j]) {
        assert rest[j] in s - {k};
      }
      assert SortedKeys(s) == [k] + rest;
    }
  }

  // ---- Printing -----------------------------------------------------------------------------------------------------

  function HexDigit(n: nat): char
    requires n < 16
  {
    if n < 10 then '0' + n as char else 'a' + (n - 10) as char
  }

  function Escape(c: char): string {
    if c == '"' then "\\\"" else if c == '\\' then "\\\\"
    else if c == '\n' then "\\n" else if c == '\r' then "\\r" else if c == '\t' then "\\t"
    else if c == 8 as char then "\\b" else if c == 12 as char then "\\f"
    else if c < ' ' then ['\\', 'u', '0', '0', HexDigit(c as int / 16), HexDigit(c as int % 16)]
    else [c]
  }

  function EscapeAll(s: string): string {
    if s == "" then "" else Escape(s[0]) + EscapeAll(s[1..])
  }

  function PrintString(s: string): string {
    ['"'] + EscapeAll(s) + ['"']
  }

  ghost function Print(v: Json): string
    decreases v, 1, 0
  {
    match v
    case Null => "null"
    case Bool(b) => if b then "true" else "false"
    case Int(i) => Decimal(i)
    case Str(s) => PrintString(s)
    case Arr(items) => if items == [] then "[]" else ['['] + PrintItems(v, 0)
    case Obj(fields) => if fields == map[] then "{}" else ['{'] + PrintFields(v, SortedKeys(fields.Keys))
  }

  /** Elements from index `i` on, with the closing bracket. */
  ghost function PrintItems(v: Json, i: nat): string
    requires v.Arr? && i < |v.items|
    decreases v, 0, |v.items| - i
  {
    Print(v.items[i]) + if i == |v.items| - 1 then [']'] else [','] + PrintItems(v, i + 1)
  }

  /** The members of these keys, with the closing brace. */
  ghost function PrintFields(v: Json, keys: seq<string>): string
    requires v.Obj? && keys != [] && forall k :: k in keys ==> k in v.fields
    decreases v, 0, |keys|
  {
    PrintString(keys[0]) + [':'] + Print(v.fields[keys[0]])
    + if |keys| == 1 then ['}'] else [','] + PrintFields(v, keys[1..])
  }

  // ---- Reading ------------------------------------------------------------------------------------------------------

  predicate Blank(c: char) {
    c == ' ' || c == '\t' || c == '\n' || c == '\r'
  }

  function Skip(s: string): (r: string)
    ensures |r| <= |s|
  {
    if s != "" && Blank(s[0]) then Skip(s[1..]) else s
  }

  function HexValue(c: char): (r: Option<int>)
    ensures r.Some? ==> 0 <= r.value < 16
  {
    if '0' <= c <= '9' then Some(c as int - '0' as int)
    else if 'a' <= c <= 'f' then Some(c as int - 'a' as int + 10)
    else if 'A' <= c <= 'F' then Some(c as int - 'A' as int + 10)
    else None
  }

  /** Four hexadecimal digits. */
  function HexUnit(s: string): (r: Option<int>)
    ensures r.Some? ==> |s| >= 4 && 0 <= r.value < 0x1_0000
  {
    if |s| < 4 then None
    else
      var a :- HexValue(s[0]);
      var b :- HexValue(s[1]);
      var c :- HexValue(s[2]);
      var d :- HexValue(s[3]);
      Some(((a * 16 + b) * 16 + c) * 16 + d)
  }

  /** The character after `\u`, surrogate pairs included, and what follows it. A lone surrogate is no
      character here. */
  function UnicodeEscape(s: string): (r: Option<(char, string)>)
    ensures r.Some? ==> |r.value.1| < |s|
  {
    var u :- HexUnit(s);
    if u < 0xd800 || 0xe000 <= u then Some((u as char, s[4..]))
    else if 0xd800 <= u < 0xdc00 && |s| >= 6 && s[4] == '\\' && s[5] == 'u' then
      var low :- HexUnit(s[6..]);
      if 0xdc00 <= low < 0xe000 then Some(((0x1_0000 + (u - 0xd800) * 0x400 + (low - 0xdc00)) as char, s[10..]))
        else None
    else None
  }

  function SimpleEscape(c: char): Option<char> {
    if c == '"' || c == '\\' || c == '/' then Some(c)
    else if c == 'n' then Some('\n') else if c == 'r' then Some('\r') else if c == 't' then Some('\t')
    else if c == 'b' then Some(8 as char) else if c == 'f' then Some(12 as char)
    else None
  }

  /** The characters up to the closing quote, and what follows it. */
  function ReadChars(s: string): (r: Option<(string, string)>)
    ensures r.Some? ==> |r.value.1| < |s|
    decreases |s|
  {
    if s == "" || s[0] < ' ' then None
    else if s[0] == '"' then Some(("", s[1..]))
    else if s[0] != '\\' then
      var rest :- ReadChars(s[1..]);
      Some(([s[0]] + rest.0, rest.1))
    else if |s| == 1 then None
    else if s[1] == 'u' then
      var u :- UnicodeEscape(s[2..]);
      var rest :- ReadChars(u.1);
      Some(([u.0] + rest.0, rest.1))
    else
      var c :- SimpleEscape(s[1]);
      var rest :- ReadChars(s[2..]);
      Some(([c] + rest.0, rest.1))
  }

  predicate IsDigit(c: char) {
    '0' <= c <= '9'
  }

  /** Length of the leading run of digits. */
  function DigitRun(s: string): (n: nat)
    ensures n <= |s| && forall i :: 0 <= i < n ==> IsDigit(s[i])
  {
    if s != "" && IsDigit(s[0]) then 1 + DigitRun(s[1..]) else 0
  }

  function DigitValue(c: char): nat
    requires IsDigit(c)
  {
    c as int - '0' as int
  }

  function NumberOf(s: string): nat
    requires forall i :: 0 <= i < |s| ==> IsDigit(s[i])
  {
    if s == "" then 0 else NumberOf(s[..|s| - 1]) * 10 + DigitValue(s[|s| - 1])
  }

  /** A natural number without leading zeros that is not the start of a fraction or exponent. */
  function ReadNat(s: string): (r: Option<(nat, string)>)
    ensures r.Some? ==> |r.value.1| < |s|
  {
    var n := DigitRun(s);
    if n == 0 || (n > 1 && s[0] == '0') then None
    else if n < |s| && (s[n] == '.' || s[n] == 'e' || s[n] == 'E') then None
    else Some((NumberOf(s[..n]), s[n..]))
  }

  /** One JSON text, read from the front. Numbers with a fraction or exponent are not integers. */
  function Read(s: string): (r: Option<(Json, string)>)
    ensures r.Some? ==> |r.value.1| < |s|
    decreases |s|, 1
  {
    var t := Skip(s);
    if t == "" then None
    else if t[0] == '"' then
      var p :- ReadChars(t[1..]);
      Some((Str(p.0), p.1))
    else if t[0] == '[' then
      var u := Skip(t[1..]);
      if u != "" && u[0] == ']' then Some((Arr([]), u[1..]))
      else
        var p :- ReadItems(t[1..]);
        Some((Arr(p.0), p.1))
    else if t[0] == '{' then
      var u := Skip(t[1..]);
      if u != "" && u[0] == '}' then Some((Obj(map[]), u[1..]))
      else
        var p :- ReadFields(t[1..]);
        Some((Obj(Collect(p.0)), p.1))
    else if t[0] == '-' then
      var p :- ReadNat(t[1..]);
      Some((Int(0 - p.0), p.1))
    else if IsDigit(t[0]) then
      var p :- ReadNat(t);
      Some((Int(p.0), p.1))
    else if "null" <= t then Some((Null, t[4..]))
    else if "true" <= t then Some((Bool(true), t[4..]))
    else if "false" <= t then Some((Bool(false), t[5..]))
    else None
  }

  function ReadItems(s: string): (r: Option<(seq<Json>, string)>)
    ensures r.Some? ==> |r.value.1| < |s|
    decreases |s|, 2
  {
    var p :- Read(s);
    var t := Skip(p.1);
    if t == "" then None
    else if t[0] == ']' then Some(([p.0], t[1..]))
    else if t[0] != ',' then None
    else
      var q :- ReadItems(t[1..]);
      Some(([p.0] + q.0, q.1))
  }

  function ReadFields(s: string): (r: Option<(seq<(string, Json)>, string)>)
    ensures r.Some? ==> |r.value.1| < |s|
    decreases |s|, 2
  {
    var t := Skip(s);
    if t == "" || t[0] != '"' then None
    else
      var k :- ReadChars(t[1..]);
      var u := Skip(k.1);
      if u == "" || u[0] != ':' then None
      else
        var p :- Read(u[1..]);
        var w := Skip(p.1);
        if w == "" then None
        else if w[0] == '}' then Some(([(k.0, p.0)], w[1..]))
        else if w[0] != ',' then None
        else
          var q :- ReadFields(w[1..]);
          Some(([(k.0, p.0)] + q.0, q.1))
  }

  /** A repeated key keeps its last value. */
  function Collect(fields: seq<(string, Json)>): map<string, Json> {
    if fields == [] then map[] else Collect(fields[..|fields| - 1])[fields[|fields| - 1].0 := fields[|fields| - 1].1]
  }

  /** `json.loads` on texts whose numbers are integers. */
  function Loads(text: string): Option<Json> {
    var p :- Read(text);
    if Skip(p.1) == "" then Some(p.0) else None
  }

  // ---- Reading what was printed -------------------------------------------------------------------------------------

  lemma EscapeReads(c: char, tail: string, s: string, rest: string)
    requires ReadChars(tail) == Some((s, rest))
    ensures ReadChars(Escape(c) + tail) == Some(([c] + s, rest))
  {
    var e := Escape(c);
    var t := e + tail;
    if c == '"' || c == '\\' || c == '\n' || c == '\r' || c == '\t' || c == 8 as char || c == 12 as char {
      assert t[0] == '\\' && t[2..] == tail;
    } else if c < ' ' {
      assert t[0] == '\\' && t[1] == 'u';
      var u := t[2..];
      assert u[4..] == tail && u[0] == '0' && u[1] == '0';
      assert u[2] == HexDigit(c as int / 16) && u[3] == HexDigit(c as int % 16);
      HexReads(c as int / 16);
      HexReads(c as int % 16);
      assert HexUnit(u) == Some(c as int);
    } else {
      assert t[0] == c && t[1..] == tail;
    }
  }

  lemma HexReads(n: nat)
    requires n < 16
    ensures HexValue(HexDigit(n)) == Some(n)
  {
  }

  lemma {:induction false} StringReads(s: string, rest: string)
    ensures ReadChars(EscapeAll(s) + ['"'] + rest) == Some((s, rest))
    decreases |s|
  {
    if s == "" {
      assert EscapeAll(s) + ['"'] + rest == ['"'] + rest;
    } else {
      StringReads(s[1..], rest);
      EscapeReads(s[0], EscapeAll(s[1..]) + ['"'] + rest, s[1..], rest);
      assert EscapeAll(s) + ['"'] + rest == Escape(s[0]) + (EscapeAll(s[1..]) + ['"'] + rest);
      assert s == [s[0]] + s[1..];
    }
  }

  /** What may follow a value inside a text. */
  predicate Delimited(rest: string) {
    rest == "" || rest[0] == ',' || rest[0] == ']' || rest[0] == '}'
  }

  lemma {:induction false} DigitsRead(n: nat)
    ensures var d := Digits(n);
      && d != "" && (forall i :: 0 <= i < |d| ==> IsDigit(d[i])) && NumberOf(d) == n && (|d| > 1 ==> d[0] != '0')
    decreases n
  {
    if n >= 10 {
      DigitsRead(n / 10);
      var d := Digits(n);
      assert d[..|d| - 1] == Digits(n / 10);
      assert n / 10 < 10 ==> Digits(n / 10)[0] != '0';
    } else {
      assert Digits(n)[..0] == "";
    }
  }

  lemma {:induction false} RunStops(d: string, rest: string)
    requires (forall i :: 0 <= i < |d| ==> IsDigit(d[i])) && (rest == "" || !IsDigit(rest[0]))
    ensures DigitRun(d + rest) == |d|
    decreases |d|
  {
    if d == "" {
      assert d + rest == rest;
    } else {
      assert (d + rest)[1..] == d[1..] + rest;
      RunStops(d[1..], rest);
    }
  }

  lemma NatReads(n: nat, rest: string)
    requires Delimited(rest)
    ensures ReadNat(Digits(n) + rest) == Some((n, rest))
  {
    var d := Digits(n);
    DigitsRead(n);
    RunStops(d, rest);
    assert (d + rest)[..|d|] == d && (d + rest)[|d|..] == rest;
  }

  /** How a printed value can begin. */
  predicate Opens(c: char) {
    c == '"' || c == '[' || c == '{' || c == '-' || IsDigit(c) || c == 'n' || c == 't' || c == 'f'
  }

  lemma PrintOpens(v: Json)
    ensures Print(v) != "" && Opens(Print(v)[0])
  {
    if v.Int? {
      DigitsRead(if v.i < 0 then -v.i else v.i);
    }
  }

  lemma PrintItemsOpens(v: Json, i: nat)
    requires v.Arr? && i < |v.items|
    ensures PrintItems(v, i) != "" && Opens(PrintItems(v, i)[0])
  {
    PrintOpens(v.items[i]);
  }

  lemma SkipOpens(s: string)
    requires s != "" && (Opens(s[0]) || s[0] == ',' || s[0] == ':' || s[0] == ']' || s[0] == '}')
    ensures Skip(s) == s
  {
  }

  ghost function Pairs(m: map<string, Json>, keys: seq<string>): seq<(string, Json)>
    requires forall k :: k in keys ==> k in m
  {
    seq(|keys|, i requires 0 <= i < |keys| => (keys[i], m[keys[i]]))
  }

  lemma {:induction false} CollectPairs(m: map<string, Json>, keys: seq<string>)
    requires forall k :: k in keys ==> k in m
    ensures var c := Collect(Pairs(m, keys)); (forall k :: k in c <==> k in keys) && forall k :: k in c ==> c[k] == m[k]
    decreases |keys|
  {
    if keys != [] {
      var n := |keys| - 1;
      assert Pairs(m, keys)[..n] == Pairs(m, keys[..n]);
      CollectPairs(m, keys[..n]);
      assert keys == keys[..n] + [keys[n]];
    }
  }

  lemma NatTextReads(n: nat, rest: string)
    requires Delimited(rest)
    ensures Read(Digits(n) + rest) == Some((Int(n), rest))
  {
    hide ReadItems, ReadFields, ReadChars, ReadNat, NumberOf, Digits, Skip;
    DigitsRead(n);
    NatReads(n, rest);
    var t := Digits(n) + rest;
    assert t[0] == Digits(n)[0];
    SkipOpens(t);
  }

  lemma IntReads(i: int, rest: string)
    requires Delimited(rest)
    ensures Read(Decimal(i) + rest) == Some((Int(i), rest))
  {
    hide ReadItems, ReadFields, ReadChars, ReadNat, NumberOf, Digits, Skip;
    if i < 0 {
      NatReads(-i, rest);
      var t := Decimal(i) + rest;
      assert t[0] == '-' && t[1..] == Digits(-i) + rest;
      SkipOpens(t);
    } else {
      NatTextReads(i, rest);
    }
  }

  lemma TextReads(s: string, rest: string)
    ensures Read(PrintString(s) + rest) == Some((Str(s), rest))
  {
    var t := PrintString(s) + rest;
    StringReads(s, rest);
    SkipOpens(t);
    assert t[1..] == EscapeAll(s) + ['"'] + rest;
  }

  lemma WordReads(v: Json, rest: string)
    requires v.Null? || v.Bool?
    ensures Read(Print(v) + rest) == Some((v, rest))
  {
    var w := Print(v);
    var t := w + rest;
    SkipOpens(t);
    assert t[..|w|] == w && t[|w|..] == rest;
    assert w <= t;
    assert t[0] == w[0];
  }

  // One step of each reader.

  lemma ReadsArray(s: string, items: seq<Json>, rest: string)
    requires s != "" && Opens(s[0]) && ReadItems(s) == Some((items, rest))
    ensures Read(['['] + s) == Some((Arr(items), rest))
  {
    var t := ['['] + s;
    assert t[1..] == s;
    SkipOpens(t);
    SkipOpens(s);
  }

  lemma ReadsObject(s: string, fields: seq<(string, Json)>, rest: string)
    requires s != "" && s[0] == '"' && ReadFields(s) == Some((fields, rest))
    ensures Read(['{'] + s) == Some((Obj(Collect(fields)), rest))
  {
    hide ReadFields, ReadItems, ReadChars, Collect;
    var t := ['{'] + s;
    assert t[1..] == s;
    SkipOpens(t);
    SkipOpens(s);
  }

  lemma ReadsEmpty(rest: string)
    ensures Read("[]" + rest) == Some((Arr([]), rest)) && Read("{}" + rest) == Some((Obj(map[]), rest))
  {
    hide ReadFields, ReadItems, ReadChars;
    var t, u := "[]" + rest, "{}" + rest;
    SkipOpens(t);
    SkipOpens(u);
    assert t[1..] == "]" + rest && u[1..] == "}" + rest;
    SkipOpens(t[1..]);
    SkipOpens(u[1..]);
  }

  lemma ReadsLastItem(s: string, v: Json, rest: string)
    requires Read(s) == Some((v, [']'] + rest))
    ensures ReadItems(s) == Some(([v], rest))
  {
    hide Read;
    SkipOpens([']'] + rest);
    assert ([']'] + rest)[1..] == rest;
  }

  lemma ReadsItem(s: string, v: Json, more: string, vs: seq<Json>, rest: string)
    requires Read(s) == Some((v, [','] + more)) && ReadItems(more) == Some((vs, rest))
    ensures ReadItems(s) == Some(([v] + vs, rest))
  {
    hide Read;
    SkipOpens([','] + more);
    assert ([','] + more)[1..] == more;
  }

  /** A member and what follows it: the closing brace, or a comma and more members. */
  lemma ReadsField(k: string, text: string, v: Json, tail: string)
    requires tail != "" && (tail[0] == '}' || tail[0] == ',') && Read(text) == Some((v, tail))
    ensures var t := PrintString(k) + [':'] + text;
      && (tail[0] == '}' ==> ReadFields(t) == Some(([(k, v)], tail[1..])))
      && (tail[0] == ',' && ReadFields(tail[1..]).Some? ==>
            ReadFields(t) == Some(([(k, v)] + ReadFields(tail[1..]).value.0, ReadFields(tail[1..]).value.1)))
  {
    hide Read, ReadChars;
    var member := [':'] + text;
    var t := PrintString(k) + [':'] + text;
    assert t[1..] == EscapeAll(k) + ['"'] + member;
    StringReads(k, member);
    SkipOpens(t);
    SkipOpens(member);
    assert member[1..] == text;
    SkipOpens(tail);
  }

  /** Reading a printed value gives it back, and leaves what follows it alone. */
  lemma {:induction false} ValueReads(v: Json, rest: string)
    requires Delimited(rest)
    ensures Read(Print(v) + rest) == Some((v, rest))
    decreases v, 1, 0
  {
    hide Read, ReadItems, ReadFields, Skip, Collect, PrintItems, PrintFields, Opens, Decimal;
    match v
    case Null => WordReads(v, rest);
    case Bool(_) => WordReads(v, rest);
    case Int(i) => IntReads(i, rest);
    case Str(s) => TextReads(s, rest);
    case Arr(items) =>
      if items == [] {
        ReadsEmpty(rest);
      } else {
        ItemsRead(v, 0, rest);
        PrintItemsOpens(v, 0);
        ReadsArray(PrintItems(v, 0) + rest, items[0..], rest);
        assert Print(v) + rest == ['['] + (PrintItems(v, 0) + rest);
        assert items[0..] == items;
      }
    case Obj(fields) =>
      if fields == map[] {
        ReadsEmpty(rest);
      } else {
        var keys := SortedKeys(fields.Keys);
        KeysNotEmpty(fields);
        FieldsRead(v, keys, rest);
        FieldsOpen(v, keys);
        ReadsObject(PrintFields(v, keys) + rest, Pairs(fields, keys), rest);
        assert Print(v) + rest == ['{'] + (PrintFields(v, keys) + rest);
        CollectPairs(fields, keys);
        assert Collect(Pairs(fields, keys)) == fields;
      }
  }

  lemma KeysNotEmpty(fields: map<string, Json>)
    requires fields != map[]
    ensures SortedKeys(fields.Keys) != []
  {
    var k :| k in fields;
    assert k in SortedKeys(fields.Keys);
  }

  lemma FieldsOpen(v: Json, keys: seq<string>)
    requires v.Obj? && keys != [] && forall k :: k in keys ==> k in v.fields
    ensures PrintFields(v, keys) != "" && PrintFields(v, keys)[0] == '"'
  {
  }

  lemma {:induction false} ItemsRead(v: Json, i: nat, rest: string)
    requires v.Arr? && i < |v.items|
    ensures ReadItems(PrintItems(v, i) + rest) == Some((v.items[i..], rest))
    decreases v, 0, |v.items| - i
  {
    hide Read, ReadItems, Print;
    var x := Print(v.items[i]);
    if i == |v.items| - 1 {
      ValueReads(v.items[i], [']'] + rest);
      assert PrintItems(v, i) + rest == x + ([']'] + rest);
      ReadsLastItem(x + ([']'] + rest), v.items[i], rest);
      assert v.items[i..] == [v.items[i]];
    } else {
      var more := PrintItems(v, i + 1) + rest;
      ItemsRead(v, i + 1, rest);
      ValueReads(v.items[i], [','] + more);
      assert PrintItems(v, i) + rest == x + ([','] + more);
      ReadsItem(x + ([','] + more), v.items[i], more, v.items[i + 1..], rest);
      assert v.items[i..] == [v.items[i]] + v.items[i + 1..];
    }
  }

  lemma {:induction false} FieldsRead(v: Json, keys: seq<string>, rest: string)
    requires v.Obj? && keys != [] && forall k :: k in keys ==> k in v.fields
    ensures ReadFields(PrintFields(v, keys) + rest) == Some((Pairs(v.fields, keys), rest))
    decreases v, 0, |keys|
  {
    hide Read, ReadFields, Print, PrintString;
    var k, x := keys[0], Print(v.fields[keys[0]]);
    if |keys| == 1 {
      var tail := ['}'] + rest;
      ValueReads(v.fields[k], tail);
      assert PrintFields(v, keys) + rest == PrintString(k) + [':'] + (x + tail);
      ReadsField(k, x + tail, v.fields[k], tail);
      assert tail[1..] == rest;
      assert Pairs(v.fields, keys) == [(k, v.fields[k])];
    } else {
      var tail := [','] + (PrintFields(v, keys[1..]) + rest);
      FieldsRead(v, keys[1..], rest);
      ValueReads(v.fields[k], tail);
      assert PrintFields(v, keys) + rest == PrintString(k) + [':'] + (x + tail);
      ReadsField(k, x + tail, v.fields[k], tail);
      assert tail[1..] == PrintFields(v, keys[1..]) + rest;
      assert Pairs(v.fields, keys) == [(k, v.fields[k])] + Pairs(v.fields, keys[1..]);
    }
  }

  /** Reading back: `json.loads` inverts the printer on every value. */
  lemma LoadsPrint(v: Json)
    ensures Loads(Print(v)) == Some(v)
  {
    ValueReads(v, "");
    assert Print(v) + "" == Print(v);
  }

  /** Two values print equally exactly when they are equal as JSON, where objects are unordered. */
  lemma PrintInjective(a: Json, b: Json)
    ensures Print(a) == Print(b) <==> a == b
  {
    LoadsPrint(a);
    LoadsPrint(b);
  }
}

/**
 Which texts are canonical, by grammar: no white space, one spelling for every character, keys in
 strictly increasing order, integers without leading zeros. The printed texts are exactly these, so a
 canonical text is the one text of the value it reads as.
 */
module CanonicalText {
  import opened Texts
  import opened JsonValue
  import opened CanonicalJson

  // ---- The grammar --------------------------------------------------------------------------------------------------

  /** The one spelling of one character: a short escape for the quote, the backslash and five controls, a
      `\u00` escape with two lower-case digits for the other controls, and the character itself
      otherwise. */
  predicate Spelling(p: string) {
    || (|p| == 1 && ' ' <= p[0] && p[0] != '"' && p[0] != '\\')
    || (|p| == 2 && p[0] == '\\' && p[1] in {'"', '\\', 'b', 'f', 'n', 'r', 't'})
    || (|p| == 6 && p[..4] == "\\u00" && p[4] in {'0', '1'} && p[5] in "0123456789abcdef"
        && !(p[4] == '0' && p[5] in {'8', '9', 'a', 'c', 'd'}))
  }

  function Concat(parts: seq<string>): string {
    if parts == [] then "" else parts[0] + Concat(parts[1..])
  }

  /** Parts with commas between them. */
  function Joined(parts: seq<string>): string {
    if parts == [] then "" else if |parts| == 1 then parts[0] else parts[0] + [','] + Joined(parts[1..])
  }

  ghost predicate StringText(s: string) {
    exists parts: seq<string> :: s == ['"'] + Concat(parts) + ['"'] && forall p :: p in parts ==> Spelling(p)
  }

  /** Decimal digits without a leading zero, but for zero itself. */
  predicate NaturalText(s: string) {
    s != "" && (forall i :: 0 <= i < |s| ==> '0' <= s[i] <= '9') && (s[0] == '0' ==> |s| == 1)
  }

  predicate IntegerText(s: string) {
    NaturalText(s) || (s != "" && s[0] == '-' && NaturalText(s[1..]) && s[1..] != "0")
  }

  ghost predicate ArrayText(s: string)
    decreases |s|, 0
  {
    exists items: seq<string> ::
      s == ['['] + Joined(items) + [']'] && forall i :: 0 <= i < |items| ==> |items[i]| < |s| && ValueText(items[i])
  }

  function Member(k: string, v: string): string {
    k + [':'] + v
  }

  function Members(keys: seq<string>, values: seq<string>): seq<string>
    requires |keys| == |values|
  {
    seq(|keys|, i requires 0 <= i < |keys| => Member(keys[i], values[i]))
  }

  /** What the text of a key reads as. */
  function KeyOf(k: string): Option<Json> {
    Loads(k)
  }

  /** The keys are texts of strings that increase strictly. */
  ghost predicate KeyTexts(keys: seq<string>) {
    && (forall i :: 0 <= i < |keys| ==> StringText(keys[i]))
    && (forall i, j :: 0 <= i < j < |keys| ==>
          match (KeyOf(keys[i]), KeyOf(keys[j])) case (Some(Str(a)), Some(Str(b))) => Before(a, b) case _ => false)
  }

  ghost predicate ObjectText(s: string)
    decreases |s|, 0
  {
    exists keys: seq<string>, values: seq<string> ::
      && |keys| == |values| && s == ['{'] + Joined(Members(keys, values)) + ['}'] && KeyTexts(keys)
      && forall i :: 0 <= i < |values| ==> |values[i]| < |s| && ValueText(values[i])
  }

  /** A canonical text. */
  ghost predicate ValueText(s: string)
    decreases |s|, 1
  {
    s == "null" || s == "true" || s == "false" || IntegerText(s) || StringText(s) || ArrayText(s) || ObjectText(s)
  }

  // ---- What is printed is canonical ---------------------------------------------------------------------------------

  lemma EscapeSpells(c: char)
    ensures Spelling(Escape(c))
  {
    if c < ' ' && |Escape(c)| == 6 {
      var e := Escape(c);
      assert e[..4] == "\\u00";
      assert c as int / 16 <= 1;
      HexIsLower(c as int / 16);
      HexIsLower(c as int % 16);
    }
  }

  lemma HexIsLower(n: nat)
    requires n < 16
    ensures HexDigit(n) == "0123456789abcdef"[n]
  {
  }

  lemma {:induction false} EscapesSpell(s: string)
    ensures exists parts: seq<string> :: EscapeAll(s) == Concat(parts) && forall p :: p in parts ==> Spelling(p)
    decreases |s|
  {
    hide Spelling, Escape;
    if s == "" {
      assert EscapeAll(s) == Concat([]);
    } else {
      EscapesSpell(s[1..]);
      var rest: seq<string> :| EscapeAll(s[1..]) == Concat(rest) && forall p :: p in rest ==> Spelling(p);
      EscapeSpells(s[0]);
      var parts := [Escape(s[0])] + rest;
      assert parts[1..] == rest;
      assert EscapeAll(s) == Concat(parts);
    }
  }

  lemma StringIsText(s: string)
    ensures StringText(PrintString(s))
  {
    EscapesSpell(s);
    var parts: seq<string> :| EscapeAll(s) == Concat(parts) && forall p :: p in parts ==> Spelling(p);
    assert PrintString(s) == ['"'] + Concat(parts) + ['"'];
  }

  lemma IntegerIsText(i: int)
    ensures IntegerText(Decimal(i))
  {
    hide Digits, NumberOf;
    DigitsRead(if i < 0 then -i else i);
    if i < 0 {
      assert Decimal(i)[1..] == Digits(-i);
      ZeroNumber();
    }
  }

  lemma ZeroNumber()
    ensures (forall i :: 0 <= i < |"0"| ==> IsDigit("0"[i])) && NumberOf("0") == 0
  {
    assert "0"[..0] == "";
  }

  /** The texts of the elements from index `i` on. */
  ghost function ItemTexts(v: Json, i: nat): seq<string>
    requires v.Arr? && i <= |v.items|
  {
    seq(|v.items| - i, n requires 0 <= n < |v.items| - i => Print(v.items[i + n]))
  }

  lemma {:induction false} ItemsJoined(v: Json, i: nat)
    requires v.Arr? && i < |v.items|
    ensures PrintItems(v, i) == Joined(ItemTexts(v, i)) + [']']
    decreases |v.items| - i
  {
    hide Print;
    var texts := ItemTexts(v, i);
    if i + 1 < |v.items| {
      ItemsJoined(v, i + 1);
      assert texts[1..] == ItemTexts(v, i + 1);
      assert PrintItems(v, i) == Print(v.items[i]) + ([','] + (Joined(texts[1..]) + [']']));
    }
  }

  ghost function KeyTextsOf(keys: seq<string>): seq<string> {
    seq(|keys|, i requires 0 <= i < |keys| => PrintString(keys[i]))
  }

  ghost function ValueTextsOf(v: Json, keys: seq<string>): seq<string>
    requires v.Obj? && forall k :: k in keys ==> k in v.fields
  {
    seq(|keys|, i requires 0 <= i < |keys| => Print(v.fields[keys[i]]))
  }

  lemma {:induction false} FieldsJoined(v: Json, keys: seq<string>)
    requires v.Obj? && keys != [] && forall k :: k in keys ==> k in v.fields
    ensures PrintFields(v, keys) == Joined(Members(KeyTextsOf(keys), ValueTextsOf(v, keys))) + ['}']
    decreases |keys|
  {
    hide Print, PrintString;
    var texts := Members(KeyTextsOf(keys), ValueTextsOf(v, keys));
    if |keys| > 1 {
      FieldsJoined(v, keys[1..]);
      assert texts[1..] == Members(KeyTextsOf(keys[1..]), ValueTextsOf(v, keys[1..]));
      assert PrintFields(v, keys) == Member(PrintString(keys[0]), Print(v.fields[keys[0]]))
                                     + ([','] + (Joined(texts[1..]) + ['}']));
    }
  }

  /** A part is no longer than what it is joined into. */
  lemma {:induction false} PartIsShorter(parts: seq<string>, i: nat)
    requires i < |parts|
    ensures |parts[i]| <= |Joined(parts)|
    decreases |parts|
  {
    if i > 0 {
      PartIsShorter(parts[1..], i - 1);
    }
  }

  lemma KeyRead(k: string)
    ensures KeyOf(PrintString(k)) == Some(Str(k))
  {
    LoadsPrint(Str(k));
  }

  lemma KeysAreTexts(keys: seq<string>)
    requires Increasing(keys)
    ensures KeyTexts(KeyTextsOf(keys))
  {
    hide Before, KeyOf, PrintString, StringText;
    forall i | 0 <= i < |keys| ensures StringText(KeyTextsOf(keys)[i])
      && KeyOf(KeyTextsOf(keys)[i]) == Some(Str(keys[i])) {
      StringIsText(keys[i]);
      KeyRead(keys[i]);
    }
  }

  /** Every printed text is canonical. */
  lemma {:induction false} PrintIsCanonical(v: Json)
    ensures ValueText(Print(v))
    decreases v
  {
    hide StringText, KeyTexts, IntegerText, Decimal;
    match v
    case Null =>
    case Bool(_) =>
    case Int(i) => IntegerIsText(i);
    case Str(s) => StringIsText(s);
    case Arr(items) => ArrayIsText(v);
    case Obj(fields) => ObjectIsText(v);
  }

  lemma {:induction false} ArrayIsText(v: Json)
    requires v.Arr?
    ensures ArrayText(Print(v))
    decreases v, 0
  {
    hide ValueText;
    var texts := ItemTexts(v, 0);
    if v.items == [] {
      assert Print(v) == ['['] + Joined(texts) + [']'];
    } else {
      ItemsJoined(v, 0);
      assert Print(v) == ['['] + Joined(texts) + [']'];
      forall i | 0 <= i < |texts| ensures |texts[i]| < |Print(v)| && ValueText(texts[i]) {
        PartIsShorter(texts, i);
        PrintIsCanonical(v.items[i]);
      }
    }
  }

  lemma {:induction false} ObjectIsText(v: Json)
    requires v.Obj?
    ensures ObjectText(Print(v))
    decreases v, 0
  {
    hide ValueText, KeyTexts, PrintString;
    var keys := SortedKeys(v.fields.Keys);
    var names, values := KeyTextsOf(keys), ValueTextsOf(v, keys);
    KeysSorted(v.fields.Keys);
    KeysAreTexts(keys);
    if v.fields == map[] {
      assert Print(v) == ['{'] + Joined(Members(names, values)) + ['}'];
    } else {
      KeysNotEmpty(v.fields);
      FieldsJoined(v, keys);
      assert Print(v) == ['{'] + Joined(Members(names, values)) + ['}'];
      forall i | 0 <= i < |values| ensures |values[i]| < |Print(v)| && ValueText(values[i]) {
        PartIsShorter(Members(names, values), i);
        assert keys[i] in keys;
        PrintIsCanonical(v.fields[keys[i]]);
      }
    }
  }

  // ---- What is canonical is printed ---------------------------------------------------------------------------------

  /** Some value is printed as this text. */
  ghost predicate Printed(s: string) {
    exists v :: Print(v) == s
  }

  lemma SpellingIsEscape(p: string) returns (c: char)
    requires Spelling(p)
    ensures Escape(c) == p
  {
    if |p| == 1 {
      c := p[0];
    } else if |p| == 2 {
      c := match p[1] case 'b' => 8 as char case 'f' => 12 as char case 'n' => '\n' case 'r' => '\r'
                      case 't' => '\t' case other => other;
      assert p == ['\\', p[1]];
    } else {
      var high := if p[4] == '0' then 0 else 1;
      var low := LowerHex(p[5]);
      c := (high * 16 + low) as char;
      assert p == p[..4] + [p[4], p[5]];
      assert Escape(c) == ['\\', 'u', '0', '0', HexDigit(high), HexDigit(low)];
    }
  }

  lemma LowerHex(c: char) returns (n: nat)
    requires c in "0123456789abcdef"
    ensures n < 16 && HexDigit(n) == c
    ensures n == 8 <==> c == '8'
    ensures n == 9 <==> c == '9'
    ensures n == 10 <==> c == 'a'
    ensures n == 12 <==> c == 'c'
    ensures n == 13 <==> c == 'd'
  {
    n := if c <= '9' then c as int - '0' as int else c as int - 'a' as int + 10;
  }

  lemma {:induction false} SpellingsAreEscapes(parts: seq<string>) returns (s: string)
    requires forall p :: p in parts ==> Spelling(p)
    ensures EscapeAll(s) == Concat(parts)
    decreases |parts|
  {
    hide Spelling, Escape;
    if parts == [] {
      s := "";
    } else {
      var rest := SpellingsAreEscapes(parts[1..]);
      var c := SpellingIsEscape(parts[0]);
      s := [c] + rest;
      assert s[1..] == rest;
    }
  }

  lemma TextIsString(t: string) returns (s: string)
    requires StringText(t)
    ensures PrintString(s) == t
  {
    var parts: seq<string> :| t == ['"'] + Concat(parts) + ['"'] && forall p :: p in parts ==> Spelling(p);
    s := SpellingsAreEscapes(parts);
  }

  lemma {:induction false} NaturalIsDigits(s: string)
    requires NaturalText(s)
    ensures (forall i :: 0 <= i < |s| ==> IsDigit(s[i])) && Digits(NumberOf(s)) == s && (NumberOf(s) == 0 <==> s == "0")
    decreases |s|
  {
    var n := |s| - 1;
    assert s == s[..n] + [s[n]];
    if n == 0 {
      assert s[..0] == "";
    } else {
      NaturalIsDigits(s[..n]);
    }
  }

  lemma TextIsInteger(s: string)
    requires IntegerText(s)
    ensures Printed(s)
  {
    if NaturalText(s) {
      NaturalIsDigits(s);
      assert Print(Int(NumberOf(s))) == s;
    } else {
      NaturalIsDigits(s[1..]);
      assert s == ['-'] + s[1..];
      assert Print(Int(0 - NumberOf(s[1..]))) == s;
    }
  }

  /** The values that are printed as these texts. */
  lemma {:induction false} ValuesOf(texts: seq<string>) returns (vs: seq<Json>)
    requires forall i :: 0 <= i < |texts| ==> Printed(texts[i])
    ensures |vs| == |texts| && forall i :: 0 <= i < |texts| ==> Print(vs[i]) == texts[i]
    decreases |texts|
  {
    hide Print;
    if texts == [] {
      vs := [];
    } else {
      var n := |texts| - 1;
      var rest := ValuesOf(texts[..n]);
      assert Printed(texts[n]);
      var v :| Print(v) == texts[n];
      vs := rest + [v];
    }
  }

  lemma {:induction false} StringsOf(texts: seq<string>) returns (keys: seq<string>)
    requires forall i :: 0 <= i < |texts| ==> StringText(texts[i])
    ensures KeyTextsOf(keys) == texts
    decreases |texts|
  {
    hide StringText, PrintString;
    if texts == [] {
      keys := [];
    } else {
      var n := |texts| - 1;
      var rest := StringsOf(texts[..n]);
      var k := TextIsString(texts[n]);
      keys := rest + [k];
      assert KeyTextsOf(keys) == KeyTextsOf(rest) + [PrintString(k)];
    }
  }

  lemma ArrayIsPrinted(s: string, items: seq<string>)
    requires s == ['['] + Joined(items) + [']'] && forall i :: 0 <= i < |items| ==> Printed(items[i])
    ensures Printed(s)
  {
    hide Printed;
    var vs := ValuesOf(items);
    var v := Arr(vs);
    assert ItemTexts(v, 0) == items;
    if items != [] {
      ItemsJoined(v, 0);
    }
    assert Print(v) == s;
    Exhibit(v);
  }

  lemma Exhibit(v: Json)
    ensures Printed(Print(v))
  {
  }

  lemma HeadIsIn(a: seq<string>)
    ensures a != [] ==> a[0] in a
  {
  }

  /** Strictly increasing lists of the same keys are the same. */
  lemma {:induction false} SortedOnce(a: seq<string>, b: seq<string>)
    requires Increasing(a) && Increasing(b) && forall k :: k in a <==> k in b
    ensures a == b
    decreases |a|
  {
    hide Before;
    if a == [] {
      HeadIsIn(b);
    } else {
      assert a[0] in b;
      FirstIsLeast(a, b);
      FirstIsLeast(b, a);
      BeforeTotal(a[0], b[0]);
      forall k | k in a[1..] ensures k in b[1..] {
        NotFirst(a, k);
        assert k in b;
      }
      forall k | k in b[1..] ensures k in a[1..] {
        NotFirst(b, k);
        assert k in a;
      }
      SortedOnce(a[1..], b[1..]);
      assert a == [a[0]] + a[1..] && b == [b[0]] + b[1..];
    }
  }

  lemma FirstIsLeast(a: seq<string>, b: seq<string>)
    requires Increasing(a) && a != [] && b != [] && b[0] in a
    ensures a[0] == b[0] || Before(a[0], b[0])
  {
    hide Before;
  }

  lemma NotFirst(a: seq<string>, k: string)
    requires Increasing(a) && a != [] && k in a[1..]
    ensures k in a && k != a[0]
  {
    hide Before;
    var i :| 0 <= i < |a[1..]| && a[1..][i] == k;
    BeforeTotal(a[0], a[i + 1]);
  }

  lemma KeysIncrease(keys: seq<string>)
    requires KeyTexts(KeyTextsOf(keys))
    ensures Increasing(keys)
  {
    hide Before, KeyOf, PrintString, StringText;
    var texts := KeyTextsOf(keys);
    forall i, j | 0 <= i < j < |keys| ensures Before(keys[i], keys[j]) {
      KeyRead(keys[i]);
      KeyRead(keys[j]);
      assert texts[i] == PrintString(keys[i]) && texts[j] == PrintString(keys[j]);
    }
  }

  lemma ObjectIsPrinted(s: string, names: seq<string>, values: seq<string>)
    requires |names| == |values| && s == ['{'] + Joined(Members(names, values)) + ['}'] && KeyTexts(names)
    requires forall i :: 0 <= i < |values| ==> Printed(values[i])
    ensures Printed(s)
  {
    hide Printed, KeyTexts, Before, StringText, PrintString;
    var vs := ValuesOf(values);
    KeysAreStrings(names);
    var keys := StringsOf(names);
    KeysIncrease(keys);
    var v := Obj(Collect(seq(|keys|, i requires 0 <= i < |keys| => (keys[i], vs[i]))));
    FieldsOf(keys, vs);
    assert ValueTextsOf(v, keys) == values;
    ObjectPrints(v, keys);
    Exhibit(v);
  }

  lemma ObjectPrints(v: Json, keys: seq<string>)
    requires v.Obj? && Increasing(keys) && forall k :: k in v.fields <==> k in keys
    ensures Print(v) == ['{'] + Joined(Members(KeyTextsOf(keys), ValueTextsOf(v, keys))) + ['}']
  {
    hide Before, PrintString;
    KeysSorted(v.fields.Keys);
    SortedOnce(SortedKeys(v.fields.Keys), keys);
    if keys == [] {
      assert v.fields == map[];
    } else {
      HeadIsIn(keys);
      FieldsJoined(v, keys);
    }
  }

  lemma KeysAreStrings(names: seq<string>)
    requires KeyTexts(names)
    ensures forall i :: 0 <= i < |names| ==> StringText(names[i])
  {
    hide StringText;
  }

  /** Distinct keys each keep their value. */
  lemma {:induction false} FieldsOf(keys: seq<string>, vs: seq<Json>)
    requires Increasing(keys) && |vs| == |keys|
    ensures var m := Collect(seq(|keys|, i requires 0 <= i < |keys| => (keys[i], vs[i])));
      (forall k :: k in m <==> k in keys) && forall i :: 0 <= i < |keys| ==> m[keys[i]] == vs[i]
    decreases |keys|
  {
    hide Before;
    if keys != [] {
      var n := |keys| - 1;
      var pairs := seq(|keys|, i requires 0 <= i < |keys| => (keys[i], vs[i]));
      var front, some := keys[..n], vs[..n];
      FieldsOf(front, some);
      assert pairs[..n] == seq(|front|, i requires 0 <= i < |front| => (front[i], some[i]));
      assert keys == front + [keys[n]];
      forall i | 0 <= i < n ensures keys[i] != keys[n] {
        BeforeTotal(keys[i], keys[n]);
      }
    }
  }

  /** Every canonical text is the printed text of a value. */
  lemma {:induction false} CanonicalIsPrinted(s: string)
    requires ValueText(s)
    ensures Printed(s)
    decreases |s|
  {
    hide Print, StringText, KeyTexts, IntegerText, Printed;
    if IntegerText(s) {
      TextIsInteger(s);
    } else if StringText(s) {
      var t := TextIsString(s);
      StringPrinted(t);
    } else if ArrayText(s) {
      var items: seq<string> :|
        s == ['['] + Joined(items) + [']'] && forall i :: 0 <= i < |items| ==> |items[i]| < |s| && ValueText(items[i]);
      forall i | 0 <= i < |items| ensures Printed(items[i]) {
        CanonicalIsPrinted(items[i]);
      }
      ArrayIsPrinted(s, items);
    } else if ObjectText(s) {
      var keys: seq<string>, values: seq<string> :|
        && |keys| == |values| && s == ['{'] + Joined(Members(keys, values)) + ['}'] && KeyTexts(keys)
        && forall i :: 0 <= i < |values| ==> |values[i]| < |s| && ValueText(values[i]);
      forall i | 0 <= i < |values| ensures Printed(values[i]) {
        CanonicalIsPrinted(values[i]);
      }
      ObjectIsPrinted(s, keys, values);
    } else {
      WordsPrinted();
    }
  }

  lemma StringPrinted(t: string)
    ensures Printed(PrintString(t))
  {
    Exhibit(Str(t));
  }

  lemma WordsPrinted()
    ensures Printed("null") && Printed("true") && Printed("false")
  {
    Exhibit(Null);
    Exhibit(Bool(true));
    Exhibit(Bool(false));
  }

  // ---- The canonical text of a value --------------------------------------------------------------------------------

  /** The printed text of a value is canonical and reads as the value, and no other text does both: what
      is canonical is read, and what it is read as is printed as it. */
  lemma OneCanonicalText(v: Json, s: string)
    ensures ValueText(s) && Loads(s) == Some(v) <==> s == Print(v)
    ensures ValueText(s) ==> Loads(s).Some?
  {
    hide ValueText, Print, Loads;
    PrintIsCanonical(v);
    LoadsPrint(v);
    if ValueText(s) {
      CanonicalIsPrinted(s);
      var u :| Print(u) == s;
      LoadsPrint(u);
    }
  }
}

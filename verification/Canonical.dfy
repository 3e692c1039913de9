/** The bytes that are hashed: guardian.<name>.v<version>, a NUL, and the canonical JSON of RFC 8785. */
module Canonical {
  import opened Records

  /** A sequence of UTF-16 code units. */
  type Text = seq<nat>

  const QUOTE: nat := 34
  const COMMA: nat := 44
  const DOT: nat := 46
  const COLON: nat := 58
  const OPEN_ARRAY: nat := 91
  const BACKSLASH: nat := 92
  const CLOSE_ARRAY: nat := 93
  const OPEN_OBJECT: nat := 123
  const CLOSE_OBJECT: nat := 125

  function Ascii(s: string): Text { seq(|s|, i requires 0 <= i < |s| => s[i] as nat) }

  /** A JSON value. An object is a map: the order its keys were inserted in is not part of the value. */
  datatype Json =
    | JNull
    | JBool(value: bool)
    | JNumber(numeral: Text)
    | JString(text: Text)
    | JArray(items: seq<Json>)
    | JObject(members: map<Text, Json>)

  // ---- which strings, numbers and values are accepted

  predicate Hidden(unit: nat) {
    || unit <= 0x1f || 0x7f <= unit <= 0x9f || 0x200b <= unit <= 0x200f || 0x202a <= unit <= 0x202e
    || unit == 0x2060 || 0x2066 <= unit <= 0x2069 || unit == 0xfeff
  }

  /** Code units below 0x10000, as in every JavaScript string, none of them hidden or a control. */
  predicate Shown(text: Text) { forall i :: 0 <= i < |text| ==> text[i] < 0x1_0000 && !Hidden(text[i]) }

  predicate NumeralUnit(unit: nat) { 48 <= unit <= 57 || unit == 43 || unit == 45 || unit == 46 || unit == 101 }

  /** The shape of an ECMAScript number-to-string result; it starts with a digit or a minus sign. */
  predicate Numeral(text: Text) {
    && |text| > 0 && (48 <= text[0] <= 57 || text[0] == 45)
    && forall i :: 0 <= i < |text| ==> NumeralUnit(text[i])
  }

  /** C0 and C1 controls, zero-width characters, bidirectional marks, embeddings and isolates, and the byte order mark. */
  lemma HiddenUnits(unit: nat)
    ensures Hidden(unit) <==>
              || unit < 32 || 127 <= unit < 160
              || unit in {0x200b, 0x200c, 0x200d, 0x2060, 0xfeff}
              || unit in {0x200e, 0x200f, 0x202a, 0x202b, 0x202c, 0x202d, 0x202e}
              || unit in {0x2066, 0x2067, 0x2068, 0x2069}
  {
  }

  predicate AllDigits(text: Text) { |text| > 0 && forall i :: 0 <= i < |text| ==> 48 <= text[i] && text[i] <= 57 }

  /** What ECMAScript writes for a finite number: digits, with a sign, a fraction and an exponent where it has them. */
  predicate Written(whole: Text, fraction: Text, exponent: Text) {
    && AllDigits(whole)
    && (|fraction| > 0 ==> fraction[0] == 46 && AllDigits(fraction[1..]))
    && (|exponent| > 0 ==>
          && exponent[0] == 101 && |exponent| >= 3 && (exponent[1] == 43 || exponent[1] == 45)
          && AllDigits(exponent[2..]))
  }

  lemma WrittenIsNumeral(whole: Text, fraction: Text, exponent: Text)
    requires Written(whole, fraction, exponent)
    ensures Numeral(whole + (fraction + exponent)) && Numeral([45] + (whole + (fraction + exponent)))
  {
    forall i | 0 <= i < |whole| ensures NumeralUnit(whole[i]) {}
    forall i | 0 <= i < |fraction| ensures NumeralUnit(fraction[i]) { if i > 0 { assert fraction[i] == fraction[1..][i - 1]; } }
    forall i | 0 <= i < |exponent| ensures NumeralUnit(exponent[i]) { if i > 1 { assert exponent[i] == exponent[2..][i - 2]; } }
  }

  predicate Accepted(v: Json) {
    match v
    case JNumber(numeral) => Numeral(numeral)
    case JString(text) => Shown(text)
    case JArray(items) => forall i :: 0 <= i < |items| ==> Accepted(items[i])
    case JObject(members) => forall key :: key in members ==> Shown(key) && Accepted(members[key])
    case _ => true
  }

  // ---- printing

  predicate HighSurrogate(unit: nat) { 0xd800 <= unit <= 0xdbff }
  predicate LowSurrogate(unit: nat) { 0xdc00 <= unit <= 0xdfff }
  predicate Paired(text: Text) { |text| >= 2 && HighSurrogate(text[0]) && LowSurrogate(text[1]) }

  function HexDigit(n: nat): nat { if n < 10 then 48 + n else 87 + n }

  function Hex(n: nat, width: nat): (s: Text)
    ensures |s| == width
  {
    if width == 0 then [] else Hex(n / 16, width - 1) + [HexDigit(n % 16)]
  }

  /** One unit inside a JSON string; a surrogate without its partner is escaped. */
  function Escape(unit: nat): Text {
    if unit == QUOTE || unit == BACKSLASH then [BACKSLASH, unit]
    else if HighSurrogate(unit) || LowSurrogate(unit) then [BACKSLASH, 117] + Hex(unit, 4)
    else [unit]
  }

  /** What a non-empty string prints first: a surrogate pair, or one unit. */
  function Token(text: Text): (token: Text)
    requires |text| > 0
    ensures |token| > 0 && token[0] != QUOTE
  {
    if Paired(text) then [text[0], text[1]] else Escape(text[0])
  }

  function Rest(text: Text): Text
    requires |text| > 0
  {
    if Paired(text) then text[2..] else text[1..]
  }

  /** The string after its opening quote. */
  function Body(text: Text): (body: Text)
    ensures |body| > 0 && (body[0] == QUOTE <==> |text| == 0)
  {
    if |text| == 0 then [QUOTE] else Token(text) + Body(Rest(text))
  }

  function Quoted(text: Text): Text { [QUOTE] + Body(text) }

  /** The order of UTF-16 code units. */
  predicate Before(s: Text, t: Text) {
    |t| > 0 && (|s| == 0 || s[0] < t[0] || (s[0] == t[0] && Before(s[1..], t[1..])))
  }

  /** The first k units agree, and there one text ends or has the smaller unit. */
  predicate SplitsAt(s: Text, t: Text, k: nat) {
    && k <= |s| && k <= |t| && s[..k] == t[..k]
    && ((k == |s| && k < |t|) || (k < |s| && k < |t| && s[k] < t[k]))
  }

  /** Section 3.2.3 of RFC 8785: ascending by UTF-16 code units, a prefix before what it begins. */
  predicate Ascending(s: Text, t: Text) { exists k :: 0 <= k <= |s| && SplitsAt(s, t, k) }

  /** Unit by unit from the front, the order is the lexicographic one. */
  lemma {:induction false} BeforeIsAscending(s: Text, t: Text)
    ensures Before(s, t) <==> Ascending(s, t)
  {
    if |s| > 0 && |t| > 0 && s[0] == t[0] {
      BeforeIsAscending(s[1..], t[1..]);
      if k :| 0 <= k <= |s| && SplitsAt(s, t, k) {
        assert s[..k] == [s[0]] + s[1..][..k - 1] && t[..k] == [t[0]] + t[1..][..k - 1];
        assert SplitsAt(s[1..], t[1..], k - 1);
      }
      if k :| 0 <= k <= |s[1..]| && SplitsAt(s[1..], t[1..], k) {
        assert s[..k + 1] == [s[0]] + s[1..][..k] && t[..k + 1] == [t[0]] + t[1..][..k];
        assert SplitsAt(s, t, k + 1);
      }
    } else if |t| > 0 {
      if |s| == 0 || s[0] < t[0] { assert SplitsAt(s, t, 0); }
      else if k :| 0 <= k <= |s| && SplitsAt(s, t, k) { SameStart(s, t, k); }
    }
  }

  lemma SameStart(s: Text, t: Text, k: nat)
    requires k <= |s| && k <= |t| && s[..k] == t[..k]
    ensures k > 0 ==> s[0] == t[0]
  {
    if k > 0 { assert s[0] == s[..k][0] && t[0] == t[..k][0]; }
  }

  lemma {:induction false} BeforeTotal(s: Text, t: Text)
    ensures Before(s, t) || s == t || Before(t, s)
  {
    if |s| > 0 && |t| > 0 && s[0] == t[0] {
      BeforeTotal(s[1..], t[1..]);
      assert s == [s[0]] + s[1..] && t == [t[0]] + t[1..];
    }
  }

  lemma {:induction false} BeforeTransitive(s: Text, t: Text, u: Text)
    requires Before(s, t) && Before(t, u)
    ensures Before(s, u)
  {
    if |s| > 0 && s[0] == t[0] && t[0] == u[0] { BeforeTransitive(s[1..], t[1..], u[1..]); }
  }

  predicate First(key: Text, keys: set<Text>) {
    key in keys && forall other :: other in keys && other != key ==> Before(key, other)
  }

  lemma {:induction false} FirstExists(keys: set<Text>) returns (key: Text)
    requires keys != {}
    ensures First(key, keys)
    decreases |keys|
  {
    var some :| some in keys;
    if keys == {some} {
      key := some;
    } else {
      var rest := keys - {some};
      assert rest + {some} == keys;
      assert rest != {};
      var best := FirstExists(rest);
      BeforeTotal(some, best);
      if Before(some, best) {
        key := some;
        forall other | other in keys && other != some ensures Before(some, other) {
          if other != best { BeforeTransitive(some, best, other); }
        }
      } else {
        key := best;
      }
    }
  }

  /** The keys of an object in the order section 3.2.3 of RFC 8785 prints them. */
  ghost function Sorted(keys: set<Text>): (order: seq<Text>)
    ensures forall key :: key in order <==> key in keys
    ensures forall i, j :: 0 <= i < j < |order| ==> Before(order[i], order[j])
    decreases |keys|
  {
    if keys == {} then []
    else
      assert exists key :: First(key, keys) by { var key := FirstExists(keys); }
      var key :| First(key, keys);
      [key] + Sorted(keys - {key})
  }

  /** An object's keys are printed each once, ascending by UTF-16 code units. */
  lemma SortedAscending(keys: set<Text>)
    ensures forall key :: key in Sorted(keys) <==> key in keys
    ensures forall i, j :: 0 <= i < j < |Sorted(keys)| ==>
              Sorted(keys)[i] != Sorted(keys)[j] && Ascending(Sorted(keys)[i], Sorted(keys)[j])
  {
    hide Ascending, Before;
    var order := Sorted(keys);
    forall i, j | 0 <= i < j < |order| ensures order[i] != order[j] && Ascending(order[i], order[j]) {
      BeforeIsAscending(order[i], order[j]);
      NotBeforeItself(order[i]);
    }
  }

  lemma {:induction false} NotBeforeItself(s: Text)
    ensures !Before(s, s)
  {
    if |s| > 0 { NotBeforeItself(s[1..]); }
  }

  /** The canonical text of a value. */
  ghost function Print(v: Json): Text
    decreases v, 1, 0
  {
    match v
    case JNull => Ascii("null")
    case JBool(value) => if value then Ascii("true") else Ascii("false")
    case JNumber(numeral) => numeral
    case JString(text) => Quoted(text)
    case JArray(_) => [OPEN_ARRAY] + Items(v, 0)
    case JObject(members) => [OPEN_OBJECT] + Members(v, Sorted(members.Keys), 0)
  }

  function Comma(i: nat): Text { if i == 0 then [] else [COMMA] }

  /** The items of an array from the given one on, with the commas before them and the closing bracket. */
  ghost function Items(v: Json, i: nat): (text: Text)
    requires v.JArray? && i <= |v.items|
    ensures |text| > 0
    decreases v, 0, |v.items| - i
  {
    if i == |v.items| then [CLOSE_ARRAY] else Comma(i) + Print(v.items[i]) + Items(v, i + 1)
  }

  /** The members of an object from the given key on. */
  ghost function Members(v: Json, keys: seq<Text>, i: nat): (text: Text)
    requires v.JObject? && i <= |keys| && forall key :: key in keys ==> key in v.members
    ensures |text| > 0
    decreases v, 0, |keys| - i
  {
    if i == |keys| then [CLOSE_OBJECT]
    else Comma(i) + Quoted(keys[i]) + [COLON] + Print(v.members[keys[i]]) + Members(v, keys, i + 1)
  }

  // ---- unique reading

  function HexPower(width: nat): nat { if width == 0 then 1 else 16 * HexPower(width - 1) }

  lemma {:induction false} HexInjective(m: nat, n: nat, width: nat)
    requires m < HexPower(width) && n < HexPower(width) && Hex(m, width) == Hex(n, width)
    ensures m == n
  {
    if width > 0 {
      var s, t := Hex(m, width), Hex(n, width);
      assert s[..width - 1] == Hex(m / 16, width - 1) && t[..width - 1] == Hex(n / 16, width - 1);
      assert s[width - 1] == HexDigit(m % 16) && t[width - 1] == HexDigit(n % 16);
      HexInjective(m / 16, n / 16, width - 1);
    }
  }

  /** Cutting the same length off two equal texts. */
  lemma Cut(a: Text, x: Text, b: Text, y: Text)
    requires |a| == |b| && a + x == b + y
    ensures a == b && x == y
  {
    assert a == (a + x)[..|a|] && b == (b + y)[..|b|];
    assert x == (a + x)[|a|..] && y == (b + y)[|b|..];
  }

  lemma EscapeInjective(m: nat, n: nat, x: Text, y: Text)
    requires Escape(m) + x == Escape(n) + y
    ensures m == n && x == y
  {
    assert HexPower(4) == 0x1_0000;
    hide Hex, HexPower;
    var s, t := Escape(m) + x, Escape(n) + y;
    assert s[0] == Escape(m)[0] && t[0] == Escape(n)[0];
    if s[0] == BACKSLASH {
      assert s[1] == Escape(m)[1] && t[1] == Escape(n)[1];
      Cut(Escape(m), x, Escape(n), y);
      if s[1] == 117 {
        assert Escape(m)[2..] == Hex(m, 4) && Escape(n)[2..] == Hex(n, 4);
        HexInjective(m, n, 4);
      }
    } else {
      Cut(Escape(m), x, Escape(n), y);
    }
  }

  lemma TokenUnique(s: Text, t: Text, x: Text, y: Text)
    requires |s| > 0 && |t| > 0 && Token(s) + x == Token(t) + y
    ensures Paired(s) == Paired(t) && s[0] == t[0] && (Paired(s) ==> s[1] == t[1]) && x == y
  {
    hide Hex;
    assert (Token(s) + x)[0] == Token(s)[0] && (Token(t) + y)[0] == Token(t)[0];
    if Paired(s) {
      Cut(Token(s), x, Token(t), y);
      assert Token(s)[1] == Token(t)[1];
    } else {
      EscapeInjective(s[0], t[0], x, y);
    }
  }

  /** A quoted string ends where it ends, whatever follows. */
  lemma {:induction false} BodyUnique(s: Text, t: Text, x: Text, y: Text)
    requires Body(s) + x == Body(t) + y
    ensures s == t && x == y
    decreases |s|
  {
    hide Token;
    assert (Body(s) + x)[0] == Body(s)[0] && (Body(t) + y)[0] == Body(t)[0];
    if |s| == 0 {
      Cut([QUOTE], x, [QUOTE], y);
    } else {
      assert Body(s) + x == Token(s) + (Body(Rest(s)) + x) && Body(t) + y == Token(t) + (Body(Rest(t)) + y);
      TokenUnique(s, t, Body(Rest(s)) + x, Body(Rest(t)) + y);
      BodyUnique(Rest(s), Rest(t), x, y);
      SameFromRest(s, t);
    }
  }

  lemma SameFromRest(s: Text, t: Text)
    requires |s| > 0 && |t| > 0 && Paired(s) == Paired(t) && s[0] == t[0] && (Paired(s) ==> s[1] == t[1])
    requires Rest(s) == Rest(t)
    ensures s == t
  {
    if Paired(s) {
      assert s == [s[0], s[1]] + s[2..] && t == [t[0], t[1]] + t[2..];
    } else {
      assert s == [s[0]] + s[1..] && t == [t[0]] + t[1..];
    }
  }

  lemma QuotedUnique(s: Text, t: Text, x: Text, y: Text)
    requires Quoted(s) + x == Quoted(t) + y
    ensures s == t && x == y
  {
    hide Body;
    assert Quoted(s) + x == [QUOTE] + (Body(s) + x) && Quoted(t) + y == [QUOTE] + (Body(t) + y);
    Cut([QUOTE], Body(s) + x, [QUOTE], Body(t) + y);
    BodyUnique(s, t, x, y);
  }

  /** What may follow a printed value: nothing, a comma, or a closing bracket. */
  predicate Delimited(x: Text) {
    |x| == 0 || x[0] == COMMA || x[0] == CLOSE_ARRAY || x[0] == CLOSE_OBJECT
  }

  lemma NumeralUnique(s: Text, t: Text, x: Text, y: Text)
    requires Numeral(s) && Numeral(t) && Delimited(x) && Delimited(y) && s + x == t + y
    ensures s == t && x == y
  {
    var whole := s + x;
    assert forall i :: 0 <= i < |s| ==> whole[i] == s[i];
    assert forall i :: 0 <= i < |t| ==> whole[i] == t[i];
    assert |x| > 0 ==> whole[|s|] == x[0];
    assert |y| > 0 ==> whole[|t|] == y[0];
    Cut(s, x, t, y);
  }

  /** The kind of a value can be read off its first unit. */
  function Lead(v: Json): nat {
    match v
    case JNull => 110
    case JBool(value) => if value then 116 else 102
    case JNumber(_) => 48
    case JString(_) => QUOTE
    case JArray(_) => OPEN_ARRAY
    case JObject(_) => OPEN_OBJECT
  }

  lemma LeadPrinted(v: Json, x: Text)
    requires Accepted(v)
    ensures var first := (Print(v) + x)[0];
            if v.JNumber? then 48 <= first <= 57 || first == 45 else first == Lead(v)
  {
    hide Sorted, Body;
  }

  /** A printed value can be read in only one way, whatever delimiter follows it. */
  lemma {:induction false} PrintUnique(v: Json, w: Json, x: Text, y: Text)
    requires Accepted(v) && Accepted(w) && Delimited(x) && Delimited(y)
    requires Print(v) + x == Print(w) + y
    ensures v == w && x == y
    decreases v, 2, 0
  {
    hide Sorted, Body, Members, Items;
    LeadPrinted(v, x);
    LeadPrinted(w, y);
    match v
    case JNull => Cut(Print(v), x, Print(w), y);
    case JBool(_) => Cut(Print(v), x, Print(w), y);
    case JNumber(numeral) => NumeralUnique(numeral, w.numeral, x, y);
    case JString(text) => QuotedUnique(text, w.text, x, y);
    case JArray(_) =>
      assert Print(v) + x == [OPEN_ARRAY] + (Items(v, 0) + x) && Print(w) + y == [OPEN_ARRAY] + (Items(w, 0) + y);
      Cut([OPEN_ARRAY], Items(v, 0) + x, [OPEN_ARRAY], Items(w, 0) + y);
      ItemsUnique(v, w, 0, x, y);
    case JObject(members) =>
      var keys, others := Sorted(members.Keys), Sorted(w.members.Keys);
      assert Print(v) + x == [OPEN_OBJECT] + (Members(v, keys, 0) + x);
      assert Print(w) + y == [OPEN_OBJECT] + (Members(w, others, 0) + y);
      Cut([OPEN_OBJECT], Members(v, keys, 0) + x, [OPEN_OBJECT], Members(w, others, 0) + y);
      MembersUnique(v, keys, w, others, 0, x, y);
      SameMembers(v, keys, w, others);
  }

  lemma SameMembers(v: Json, keys: seq<Text>, w: Json, others: seq<Text>)
    requires v.JObject? && w.JObject? && keys == others
    requires forall key :: key in keys <==> key in v.members
    requires forall key :: key in others <==> key in w.members
    requires forall i :: 0 <= i < |keys| ==> v.members[keys[i]] == w.members[keys[i]]
    ensures v == w
  {
    assert v.members.Keys == w.members.Keys;
  }

  /** Whether the list goes on shows in the first unit. */
  lemma ItemsStart(v: Json, i: nat, x: Text)
    requires v.JArray? && Accepted(v) && i <= |v.items|
    ensures (Items(v, i) + x)[0] == CLOSE_ARRAY <==> i == |v.items|
    ensures i < |v.items| ==> Items(v, i) + x == Comma(i) + (Print(v.items[i]) + (Items(v, i + 1) + x))
    ensures i > 0 ==> Delimited(Items(v, i) + x)
  {
    hide Print;
    if i < |v.items| {
      LeadPrinted(v.items[i], Items(v, i + 1) + x);
      assert Items(v, i) + x == Comma(i) + (Print(v.items[i]) + (Items(v, i + 1) + x));
    }
  }

  lemma ItemsEnd(v: Json)
    requires v.JArray?
    ensures Items(v, |v.items|) == [CLOSE_ARRAY]
  {
  }

  lemma AcceptedItems(v: Json)
    requires v.JArray? && Accepted(v)
    ensures forall k :: 0 <= k < |v.items| ==> Accepted(v.items[k])
  {
  }

  lemma {:induction false} ItemsUnique(v: Json, w: Json, i: nat, x: Text, y: Text)
    requires v.JArray? && w.JArray? && Accepted(v) && Accepted(w) && i <= |v.items| && i <= |w.items|
    requires Items(v, i) + x == Items(w, i) + y
    ensures v.items[i..] == w.items[i..] && x == y
    decreases v, 1, |v.items| - i
  {
    hide Print, Items, Accepted;
    assert forall k :: 0 <= k < |v.items| ==> Accepted(v.items[k]) by { AcceptedItems(v); }
    assert forall k :: 0 <= k < |w.items| ==> Accepted(w.items[k]) by { AcceptedItems(w); }
    ItemsStart(v, i, x);
    ItemsStart(w, i, y);
    if i == |v.items| {
      ItemsEnd(v);
      ItemsEnd(w);
      Cut([CLOSE_ARRAY], x, [CLOSE_ARRAY], y);
    } else {
      ItemsStart(v, i + 1, x);
      ItemsStart(w, i + 1, y);
      Cut(Comma(i), Print(v.items[i]) + (Items(v, i + 1) + x), Comma(i), Print(w.items[i]) + (Items(w, i + 1) + y));
      PrintUnique(v.items[i], w.items[i], Items(v, i + 1) + x, Items(w, i + 1) + y);
      ItemsUnique(v, w, i + 1, x, y);
      assert v.items[i..] == [v.items[i]] + v.items[i + 1..] && w.items[i..] == [w.items[i]] + w.items[i + 1..];
    }
  }

  lemma MembersEnd(v: Json, keys: seq<Text>)
    requires v.JObject? && forall key :: key in keys ==> key in v.members
    ensures Members(v, keys, |keys|) == [CLOSE_OBJECT]
  {
  }

  lemma MembersSplit(v: Json, keys: seq<Text>, i: nat, x: Text)
    requires v.JObject? && i < |keys| && forall key :: key in keys ==> key in v.members
    ensures Members(v, keys, i) + x
         == Comma(i) + (Quoted(keys[i]) + ([COLON] + (Print(v.members[keys[i]]) + (Members(v, keys, i + 1) + x))))
  {
    hide Print, Quoted, Comma;
    var key, value, rest := Quoted(keys[i]), Print(v.members[keys[i]]), Members(v, keys, i + 1);
    assert Members(v, keys, i) == Comma(i) + key + [COLON] + value + rest;
    Regroup(Comma(i), key, value, rest, x);
  }

  lemma Regroup(comma: Text, key: Text, value: Text, rest: Text, x: Text)
    ensures comma + key + [COLON] + value + rest + x == comma + (key + ([COLON] + (value + (rest + x))))
  {
  }

  /** A member begins with a comma, or with the quote of its key. */
  lemma MemberStarts(i: nat, key: Text, rest: Text)
    ensures (Comma(i) + (Quoted(key) + rest))[0] != CLOSE_OBJECT
    ensures i > 0 ==> Delimited(Comma(i) + (Quoted(key) + rest))
  {
    hide Body;
  }

  lemma MembersStart(v: Json, keys: seq<Text>, i: nat, x: Text)
    requires v.JObject? && i <= |keys| && forall key :: key in keys ==> key in v.members
    ensures (Members(v, keys, i) + x)[0] == CLOSE_OBJECT <==> i == |keys|
    ensures i < |keys| ==>
              Members(v, keys, i) + x
              == Comma(i) + (Quoted(keys[i]) + ([COLON] + (Print(v.members[keys[i]]) + (Members(v, keys, i + 1) + x))))
    ensures i > 0 ==> Delimited(Members(v, keys, i) + x)
  {
    hide Members, Print, Quoted, Comma;
    if i < |keys| {
      MembersSplit(v, keys, i, x);
      MemberStarts(i, keys[i], [COLON] + (Print(v.members[keys[i]]) + (Members(v, keys, i + 1) + x)));
    } else {
      MembersEnd(v, keys);
      assert ([CLOSE_OBJECT] + x)[0] == CLOSE_OBJECT;
    }
  }

  lemma AcceptedMembers(v: Json)
    requires v.JObject? && Accepted(v)
    ensures forall key :: key in v.members ==> Accepted(v.members[key])
  {
  }

  lemma MemberCut(key: Text, other: Text, x: Text, y: Text)
    requires Quoted(key) + ([COLON] + x) == Quoted(other) + ([COLON] + y)
    ensures key == other && x == y
  {
    QuotedUnique(key, other, [COLON] + x, [COLON] + y);
    Cut([COLON], x, [COLON], y);
  }

  lemma {:induction false} MembersUnique(
    v: Json, keys: seq<Text>, w: Json, others: seq<Text>, i: nat, x: Text, y: Text)
    requires v.JObject? && w.JObject? && Accepted(v) && Accepted(w) && i <= |keys| && i <= |others|
    requires (forall key :: key in keys ==> key in v.members) && (forall key :: key in others ==> key in w.members)
    requires Members(v, keys, i) + x == Members(w, others, i) + y
    ensures keys[i..] == others[i..] && x == y
    ensures forall k :: i <= k < |keys| ==> v.members[keys[k]] == w.members[others[k]]
    decreases v, 1, |keys| - i
  {
    hide Print, Quoted, Members, Accepted;
    assert forall key :: key in keys ==> Accepted(v.members[key]) by { AcceptedMembers(v); }
    assert forall key :: key in others ==> Accepted(w.members[key]) by { AcceptedMembers(w); }
    MembersStart(v, keys, i, x);
    MembersStart(w, others, i, y);
    if i == |keys| {
      MembersEnd(v, keys);
      MembersEnd(w, others);
      Cut([CLOSE_OBJECT], x, [CLOSE_OBJECT], y);
    } else {
      var a, b := Members(v, keys, i + 1) + x, Members(w, others, i + 1) + y;
      MembersStart(v, keys, i + 1, x);
      MembersStart(w, others, i + 1, y);
      Cut(Comma(i), Quoted(keys[i]) + ([COLON] + (Print(v.members[keys[i]]) + a)),
          Comma(i), Quoted(others[i]) + ([COLON] + (Print(w.members[others[i]]) + b)));
      MemberCut(keys[i], others[i], Print(v.members[keys[i]]) + a, Print(w.members[others[i]]) + b);
      PrintUnique(v.members[keys[i]], w.members[others[i]], a, b);
      MembersUnique(v, keys, w, others, i + 1, x, y);
      assert keys[i..] == [keys[i]] + keys[i + 1..] && others[i..] == [others[i]] + others[i + 1..];
    }
  }

  // ---- the hashed bytes

  predicate LowerCase(unit: nat) { 97 <= unit <= 122 }
  predicate NameUnit(unit: nat) { LowerCase(unit) || 48 <= unit <= 57 || unit == 95 }

  /** Dot-separated segments of lower-case letters, digits and underscores, each starting with a letter. */
  predicate ContractName(name: Text) {
    && |name| > 0 && LowerCase(name[0]) && name[|name| - 1] != DOT
    && (forall i :: 0 <= i < |name| ==> NameUnit(name[i]) || name[i] == DOT)
    && (forall i :: 0 < i < |name| && name[i - 1] == DOT ==> LowerCase(name[i]))
  }

  predicate Segment(s: Text) {
    && |s| > 0 && 97 <= s[0] && s[0] <= 122
    && forall i :: 0 <= i < |s| ==> (97 <= s[i] && s[i] <= 122) || (48 <= s[i] && s[i] <= 57) || s[i] == 95
  }

  /** A segment, or one followed by a dot and more of the same. */
  ghost predicate Dotted(name: Text) {
    || Segment(name)
    || exists k :: 0 < k < |name| && name[k] == 46 && Segment(name[..k]) && Dotted(name[k + 1..])
  }

  lemma SegmentIsName(name: Text)
    requires Segment(name)
    ensures ContractName(name)
  {
    assert NameUnit(name[|name| - 1]);
  }

  lemma {:induction false} DottedIsName(name: Text)
    requires Dotted(name)
    ensures ContractName(name)
    decreases |name|
  {
    hide Segment, ContractName;
    if Segment(name) {
      SegmentIsName(name);
    } else {
      var j :| 0 < j < |name| && name[j] == 46 && Segment(name[..j]) && Dotted(name[j + 1..]);
      DottedIsName(name[j + 1..]);
      DotJoins(name, j);
    }
  }

  /** The first dot of a name ends a segment, and a name follows it. */
  lemma DotParts(name: Text, k: nat)
    requires ContractName(name) && k < |name| && name[k] == DOT && forall i :: 0 <= i < k ==> name[i] != DOT
    ensures k > 0 && Segment(name[..k]) && ContractName(name[k + 1..])
  {
    var rest := name[k + 1..];
    assert rest[|rest| - 1] == name[|name| - 1];
    assert forall i :: 0 <= i < k ==> name[..k][i] == name[i] && NameUnit(name[i]);
    assert forall i :: 0 <= i < |rest| ==> rest[i] == name[i + k + 1];
  }

  lemma {:induction false} NameIsDotted(name: Text)
    requires ContractName(name)
    ensures Dotted(name)
    decreases |name|
  {
    hide ContractName;
    if k :| 0 <= k < |name| && name[k] == DOT && forall i :: 0 <= i < k ==> name[i] != DOT {
      DotParts(name, k);
      NameIsDotted(name[k + 1..]);
    } else {
      NoDots(name, 0);
      WholeSegment(name);
    }
  }

  lemma WholeSegment(name: Text)
    requires ContractName(name) && forall i :: 0 <= i < |name| ==> name[i] != DOT
    ensures Segment(name)
  {
  }

  lemma NamesAreDotted(name: Text)
    ensures ContractName(name) <==> Dotted(name)
  {
    hide ContractName, Dotted;
    if ContractName(name) { NameIsDotted(name); }
    if Dotted(name) { DottedIsName(name); }
  }

  /** With no first dot there is none. */
  lemma NoDots(name: Text, from: nat)
    requires from <= |name| && forall i :: 0 <= i < from ==> name[i] != DOT
    requires !exists k :: 0 <= k < |name| && name[k] == DOT && forall i :: 0 <= i < k ==> name[i] != DOT
    ensures forall i :: 0 <= i < |name| ==> name[i] != DOT
    decreases |name| - from
  {
    if from < |name| { NoDots(name, from + 1); }
  }

  lemma DotJoins(name: Text, j: nat)
    requires 0 < j < |name| && name[j] == DOT && Segment(name[..j]) && ContractName(name[j + 1..])
    ensures ContractName(name)
  {
    var rest := name[j + 1..];
    assert name[0] == name[..j][0] && name[|name| - 1] == rest[|rest| - 1];
    forall i | 0 <= i < |name| ensures NameUnit(name[i]) || name[i] == DOT {
      if i < j { assert name[i] == name[..j][i]; }
      else if i > j { assert name[i] == rest[i - j - 1]; }
    }
    assert forall i :: 0 <= i < j ==> name[i] == name[..j][i] && name[i] != DOT;
    forall i | j < i < |name| && name[i - 1] == DOT ensures LowerCase(name[i]) {
      if i == j + 1 { assert name[i] == rest[0]; }
      else { assert name[i] == rest[i - j - 1] && name[i - 1] == rest[i - j - 2]; }
    }
  }

  const MAX_SAFE_INTEGER: int := 9_007_199_254_740_991

  predicate ContractVersion(version: nat) { 1 <= version <= MAX_SAFE_INTEGER }

  function Decimal(n: nat): (s: Text)
    ensures |s| > 0 && forall i :: 0 <= i < |s| ==> 48 <= s[i] <= 57
  {
    if n < 10 then [48 + n] else Decimal(n / 10) + [48 + n % 10]
  }

  lemma {:induction false} DecimalInjective(m: nat, n: nat)
    requires Decimal(m) == Decimal(n)
    ensures m == n
    decreases m
  {
    var s, t := Decimal(m), Decimal(n);
    var last := |s| - 1;
    assert s[last] == 48 + m % 10 && t[last] == 48 + n % 10;
    if m >= 10 && n >= 10 {
      assert s[..last] == Decimal(m / 10) && t[..last] == Decimal(n / 10);
      DecimalInjective(m / 10, n / 10);
    }
  }

  function Domain(name: Text, version: nat): Text {
    Ascii("guardian.") + (name + ([DOT, 118] + Decimal(version)))
  }

  ghost function Preimage(name: Text, version: nat, value: Json): Text {
    Domain(name, version) + ([0] + Print(value))
  }

  lemma DomainHasNoNul(name: Text, version: nat)
    requires ContractName(name)
    ensures forall i :: 0 <= i < |Domain(name, version)| ==> Domain(name, version)[i] != 0
  {
    hide Decimal;
  }

  /** The first NUL separates the domain from the value. */
  lemma SplitAtNul(a: Text, x: Text, b: Text, y: Text)
    requires forall i :: 0 <= i < |a| ==> a[i] != 0
    requires forall i :: 0 <= i < |b| ==> b[i] != 0
    requires a + ([0] + x) == b + ([0] + y)
    ensures a == b && x == y
  {
    var whole := a + ([0] + x);
    assert whole[|a|] == 0 && whole[|b|] == 0;
    assert forall i :: 0 <= i < |a| ==> whole[i] == a[i];
    assert forall i :: 0 <= i < |b| ==> whole[i] == b[i];
    Cut(a, [0] + x, b, [0] + y);
    Cut([0], x, [0], y);
  }

  /** Digits hold no dot, so the last dot separates the version even from a name that ends in ".v1". */
  lemma SplitAtVersion(a: Text, d: Text, b: Text, e: Text)
    requires forall i :: 0 <= i < |d| ==> 48 <= d[i] <= 57
    requires forall i :: 0 <= i < |e| ==> 48 <= e[i] <= 57
    requires a + ([DOT, 118] + d) == b + ([DOT, 118] + e)
    ensures a == b && d == e
  {
    var whole := a + ([DOT, 118] + d);
    assert whole[|a|] == DOT && whole[|b|] == DOT;
    assert forall i :: |a| < i < |whole| ==> whole[i] == ([DOT, 118] + d)[i - |a|];
    assert forall i :: |b| < i < |whole| ==> whole[i] == ([DOT, 118] + e)[i - |b|];
    Cut(a, [DOT, 118] + d, b, [DOT, 118] + e);
    Cut([DOT, 118], d, [DOT, 118], e);
  }

  /** Two accepted contracts and values are hashed from the same text only if they are the same. */
  lemma PreimageInjective(name: Text, version: nat, v: Json, other: Text, otherVersion: nat, w: Json)
    requires ContractName(name) && ContractVersion(version) && Accepted(v)
    requires ContractName(other) && ContractVersion(otherVersion) && Accepted(w)
    requires Preimage(name, version, v) == Preimage(other, otherVersion, w)
    ensures name == other && version == otherVersion && v == w
  {
    hide Print, Decimal, Ascii;
    DomainHasNoNul(name, version);
    DomainHasNoNul(other, otherVersion);
    SplitAtNul(Domain(name, version), Print(v), Domain(other, otherVersion), Print(w));
    var prefix := Ascii("guardian.");
    Cut(prefix, name + ([DOT, 118] + Decimal(version)), prefix, other + ([DOT, 118] + Decimal(otherVersion)));
    SplitAtVersion(name, Decimal(version), other, Decimal(otherVersion));
    DecimalInjective(version, otherVersion);
    assert Print(v) + [] == Print(w) + [];
    PrintUnique(v, w, [], []);
  }

  // ---- UTF-8

  predicate Surrogate(unit: nat) { HighSurrogate(unit) || LowSurrogate(unit) }

  /** Text in which every surrogate has its partner. */
  predicate WellFormed(text: Text) {
    if |text| == 0 then true
    else if Paired(text) then WellFormed(text[2..])
    else !Surrogate(text[0]) && text[0] < 0x1_0000 && WellFormed(text[1..])
  }

  function PairBytes(high: nat, low: nat): Text
    requires HighSurrogate(high) && LowSurrogate(low)
  {
    var n := 0x1_0000 + (high - 0xd800) * 1024 + (low - 0xdc00);
    [0xf0 + n / 262144, 0x80 + n / 4096 % 64, 0x80 + n / 64 % 64, 0x80 + n % 64]
  }

  function UnitBytes(unit: nat): Text {
    if unit < 0x80 then [unit]
    else if unit < 0x800 then [0xc0 + unit / 64, 0x80 + unit % 64]
    else [0xe0 + unit / 4096, 0x80 + unit / 64 % 64, 0x80 + unit % 64]
  }

  function Step(text: Text): Text
    requires |text| > 0
  {
    if Paired(text) then PairBytes(text[0], text[1]) else UnitBytes(text[0])
  }

  /** The UTF-8 encoding of well-formed text. */
  function Bytes(text: Text): Text
  {
    if |text| == 0 then [] else Step(text) + Bytes(Rest(text))
  }

  lemma UnitBytesInjective(m: nat, n: nat, x: Text, y: Text)
    requires m < 0x1_0000 && n < 0x1_0000 && UnitBytes(m) + x == UnitBytes(n) + y
    ensures m == n && x == y
  {
    var s, t := UnitBytes(m), UnitBytes(n);
    assert (s + x)[0] == s[0] && (t + y)[0] == t[0];
    assert |s| == |t|;
    Cut(s, x, t, y);
    if |s| == 2 {
      assert s[1] == t[1];
    } else if |s| == 3 {
      assert s[1] == t[1] && s[2] == t[2];
      assert m / 4096 == n / 4096 && m / 64 % 64 == n / 64 % 64 && m % 64 == n % 64;
      ThreeSextets(m);
      ThreeSextets(n);
    }
  }

  lemma ThreeSextets(n: nat)
    ensures n == (n / 4096) * 4096 + (n / 64 % 64) * 64 + n % 64
  {
    assert n / 64 / 64 == n / 4096;
  }

  lemma PairNumber(n: nat)
    ensures n == (n / 262144) * 262144 + (n / 4096 % 64) * 4096 + (n / 64 % 64) * 64 + n % 64
  {
    ThreeSextets(n);
    assert n / 4096 / 64 == n / 262144;
  }

  lemma PairBytesInjective(a: nat, b: nat, c: nat, d: nat, x: Text, y: Text)
    requires HighSurrogate(a) && LowSurrogate(b) && HighSurrogate(c) && LowSurrogate(d)
    requires PairBytes(a, b) + x == PairBytes(c, d) + y
    ensures a == c && b == d && x == y
  {
    var s, t := PairBytes(a, b), PairBytes(c, d);
    Cut(s, x, t, y);
    assert s[0] == t[0] && s[1] == t[1] && s[2] == t[2] && s[3] == t[3];
    PairNumber(0x1_0000 + (a - 0xd800) * 1024 + (b - 0xdc00));
    PairNumber(0x1_0000 + (c - 0xd800) * 1024 + (d - 0xdc00));
  }

  lemma StepUnique(s: Text, t: Text, x: Text, y: Text)
    requires |s| > 0 && |t| > 0 && WellFormed(s) && WellFormed(t) && Step(s) + x == Step(t) + y
    ensures Paired(s) == Paired(t) && s[0] == t[0] && (Paired(s) ==> s[1] == t[1]) && x == y
  {
    assert (Step(s) + x)[0] == Step(s)[0] && (Step(t) + y)[0] == Step(t)[0];
    assert Paired(s) <==> Step(s)[0] >= 0xf0 by { StepLead(s); }
    assert Paired(t) <==> Step(t)[0] >= 0xf0 by { StepLead(t); }
    if Paired(s) { PairBytesInjective(s[0], s[1], t[0], t[1], x, y); } else { UnitBytesInjective(s[0], t[0], x, y); }
  }

  lemma StepLead(s: Text)
    requires |s| > 0 && WellFormed(s)
    ensures Paired(s) <==> Step(s)[0] >= 0xf0
  {
  }

  /** Well-formed text can be read back from its UTF-8 bytes. */
  lemma {:induction false} BytesInjective(s: Text, t: Text)
    requires WellFormed(s) && WellFormed(t) && Bytes(s) == Bytes(t)
    ensures s == t
    decreases |s|
  {
    hide Step;
    if |s| > 0 && |t| > 0 {
      StepUnique(s, t, Bytes(Rest(s)), Bytes(Rest(t)));
      BytesInjective(Rest(s), Rest(t));
      SameFromRest(s, t);
    } else {
      BytesStart(s);
      BytesStart(t);
    }
  }

  lemma BytesStart(s: Text)
    ensures |Bytes(s)| == 0 <==> |s| == 0
  {
  }

  lemma Unfold(s: Text)
    requires |s| > 0
    ensures WellFormed(s) <==> (Paired(s) || (!Surrogate(s[0]) && s[0] < 0x1_0000)) && WellFormed(Rest(s))
    ensures Bytes(s) == Step(s) + Bytes(Rest(s))
  {
    hide Step;
  }

  lemma StepLocal(s: Text, t: Text)
    requires |s| > 0 && (Paired(s) || !Surrogate(s[0]))
    ensures Paired(s + t) == Paired(s) && (s + t)[0] == s[0]
    ensures Rest(s + t) == Rest(s) + t && Step(s + t) == Step(s)
  {
    hide UnitBytes, PairBytes;
    assert (s + t)[0] == s[0];
    if Paired(s) {
      assert (s + t)[1] == s[1] && (s + t)[2..] == s[2..] + t;
    } else {
      assert (s + t)[1..] == s[1..] + t;
      if |s| > 1 { assert (s + t)[1] == s[1]; }
    }
  }

  lemma {:induction false} WellFormedConcat(s: Text, t: Text)
    requires WellFormed(s) && WellFormed(t)
    ensures WellFormed(s + t) && Bytes(s + t) == Bytes(s) + Bytes(t)
    decreases |s|
  {
    hide WellFormed, Bytes, Step, Surrogate, Rest;
    if |s| == 0 {
      assert s + t == t;
      BytesStart(s);
      assert Bytes(s) + Bytes(t) == Bytes(t);
    } else {
      Unfold(s);
      StepLocal(s, t);
      RestShorter(s);
      WellFormedConcat(Rest(s), t);
      Unfold(s + t);
      assert Step(s) + (Bytes(Rest(s)) + Bytes(t)) == (Step(s) + Bytes(Rest(s))) + Bytes(t);
    }
  }

  lemma RestShorter(s: Text)
    requires |s| > 0
    ensures |Rest(s)| < |s|
  {
  }

  lemma {:induction false} PlainWellFormed(s: Text)
    requires forall i :: 0 <= i < |s| ==> s[i] < 0xd800
    ensures WellFormed(s)
  {
    if |s| > 0 { PlainWellFormed(s[1..]); }
  }

  lemma {:induction false} HexPlain(n: nat, width: nat)
    ensures forall i :: 0 <= i < width ==> Hex(n, width)[i] < 128
  {
    if width > 0 { HexPlain(n / 16, width - 1); }
  }

  /** Escaping leaves no surrogate without its partner. */
  lemma TokenWellFormed(text: Text)
    requires |text| > 0 && Shown(text)
    ensures WellFormed(Token(text))
  {
    if Paired(text) {
      assert Token(text)[2..] == [];
    } else {
      HexPlain(text[0], 4);
      if Surrogate(text[0]) || text[0] == QUOTE || text[0] == BACKSLASH { PlainWellFormed(Token(text)); }
      else { assert Token(text)[1..] == []; }
    }
  }

  lemma {:induction false} BodyWellFormed(text: Text)
    requires Shown(text)
    ensures WellFormed(Body(text))
    decreases |text|
  {
    hide Token;
    if |text| == 0 {
      PlainWellFormed([QUOTE]);
    } else {
      TokenWellFormed(text);
      BodyWellFormed(Rest(text));
      WellFormedConcat(Token(text), Body(Rest(text)));
    }
  }

  lemma QuotedWellFormed(text: Text)
    requires Shown(text)
    ensures WellFormed(Quoted(text))
  {
    PlainWellFormed([QUOTE]);
    BodyWellFormed(text);
    WellFormedConcat([QUOTE], Body(text));
  }

  lemma {:induction false} PrintWellFormed(v: Json)
    requires Accepted(v)
    ensures WellFormed(Print(v))
    decreases v, 1, 0
  {
    match v
    case JString(text) => QuotedWellFormed(text);
    case JArray(_) =>
      PlainWellFormed([OPEN_ARRAY]);
      ItemsWellFormed(v, 0);
      WellFormedConcat([OPEN_ARRAY], Items(v, 0));
    case JObject(members) =>
      PlainWellFormed([OPEN_OBJECT]);
      MembersWellFormed(v, Sorted(members.Keys), 0);
      WellFormedConcat([OPEN_OBJECT], Members(v, Sorted(members.Keys), 0));
    case _ => PlainWellFormed(Print(v));
  }

  lemma {:induction false} ItemsWellFormed(v: Json, i: nat)
    requires v.JArray? && i <= |v.items| && Accepted(v)
    ensures WellFormed(Items(v, i))
    decreases v, 0, |v.items| - i
  {
    hide WellFormed, Print;
    PlainWellFormed([CLOSE_ARRAY]);
    PlainWellFormed(Comma(i));
    if i < |v.items| {
      PrintWellFormed(v.items[i]);
      ItemsWellFormed(v, i + 1);
      WellFormedConcat(Comma(i), Print(v.items[i]));
      WellFormedConcat(Comma(i) + Print(v.items[i]), Items(v, i + 1));
    }
  }

  lemma MemberWellFormed(comma: Text, key: Text, value: Text, rest: Text)
    requires WellFormed(comma) && WellFormed(key) && WellFormed(value) && WellFormed(rest)
    ensures WellFormed(comma + key + [COLON] + value + rest)
  {
    hide WellFormed;
    PlainWellFormed([COLON]);
    WellFormedConcat(comma, key);
    WellFormedConcat(comma + key, [COLON]);
    WellFormedConcat(comma + key + [COLON], value);
    WellFormedConcat(comma + key + [COLON] + value, rest);
  }

  lemma {:induction false} MembersWellFormed(v: Json, keys: seq<Text>, i: nat)
    requires v.JObject? && i <= |keys| && Accepted(v) && forall key :: key in keys ==> key in v.members
    ensures WellFormed(Members(v, keys, i))
    decreases v, 0, |keys| - i
  {
    hide WellFormed, Print, Quoted;
    PlainWellFormed([CLOSE_OBJECT]);
    PlainWellFormed(Comma(i));
    if i < |keys| {
      QuotedWellFormed(keys[i]);
      PrintWellFormed(v.members[keys[i]]);
      MembersWellFormed(v, keys, i + 1);
      MemberWellFormed(Comma(i), Quoted(keys[i]), Print(v.members[keys[i]]), Members(v, keys, i + 1));
    }
  }

  /** What the hash function is fed: the three updates, each encoded as UTF-8. */
  ghost function HashedBytes(name: Text, version: nat, v: Json): Text {
    Bytes(Domain(name, version)) + (Bytes([0]) + Bytes(Print(v)))
  }

  lemma HashedIsEncoded(name: Text, version: nat, v: Json)
    requires ContractName(name) && Accepted(v)
    ensures WellFormed(Preimage(name, version, v)) && HashedBytes(name, version, v) == Bytes(Preimage(name, version, v))
  {
    assert WellFormed(Domain(name, version)) by { PlainWellFormed(Domain(name, version)); }
    hide Domain, Print, Bytes, WellFormed;
    PlainWellFormed([0]);
    PrintWellFormed(v);
    WellFormedConcat([0], Print(v));
    WellFormedConcat(Domain(name, version), [0] + Print(v));
  }

  /** The same bytes are hashed only for the same contract name, version and value. */
  lemma BytesIdentifyValue(name: Text, version: nat, v: Json, other: Text, otherVersion: nat, w: Json)
    requires ContractName(name) && ContractVersion(version) && Accepted(v)
    requires ContractName(other) && ContractVersion(otherVersion) && Accepted(w)
    requires HashedBytes(name, version, v) == HashedBytes(other, otherVersion, w)
    ensures name == other && version == otherVersion && v == w
  {
    hide HashedBytes, Preimage, Bytes, WellFormed, Accepted, ContractName;
    HashedIsEncoded(name, version, v);
    HashedIsEncoded(other, otherVersion, w);
    BytesInjective(Preimage(name, version, v), Preimage(other, otherVersion, w));
    PreimageInjective(name, version, v, other, otherVersion, w);
  }

  // ---- from a JavaScript object graph to a value

  datatype Number = Finite(numeral: Text, integer: bool, safe: bool) | NegativeZero | NotFinite

  datatype Value = VNull | VBool(value: bool) | VNumber(number: Number) | VString(text: Text) | VOther | VRef(ref: nat)

  /** An array may have holes; entries are an object's own enumerable properties in insertion order. */
  datatype Node =
    | ArrayNode(elements: seq<Option<Value>>)
    | ObjectNode(entries: seq<(Text, Value)>)
    | OtherNode

  predicate HasKey(entries: seq<(Text, Value)>, key: Text) { exists i :: 0 <= i < |entries| && entries[i].0 == key }

  predicate DistinctKeys(entries: seq<(Text, Value)>) {
    forall i, j :: 0 <= i < j < |entries| ==> entries[i].0 != entries[j].0
  }

  /** A heap of objects whose property names are distinct. */
  predicate Sane(heap: map<nat, Node>) {
    forall r :: r in heap && heap[r].ObjectNode? ==> DistinctKeys(heap[r].entries)
  }

  predicate SupportedNumber(n: Number) { n.Finite? && Numeral(n.numeral) && (n.integer ==> n.safe) }

  predicate CanonicalString(nfc: Text -> bool, text: Text) { nfc(text) && Shown(text) }

  /** The recursive check, with a fresh set of ancestors at every level; it yields the value it accepted. */
  function Check(heap: map<nat, Node>, nfc: Text -> bool, v: Value, ancestors: set<nat>): Option<Json>
    decreases heap.Keys - ancestors, 2, 0
  {
    match v
    case VNull => Some(JNull)
    case VBool(value) => Some(JBool(value))
    case VNumber(n) => if SupportedNumber(n) then Some(JNumber(n.numeral)) else None
    case VString(text) => if CanonicalString(nfc, text) then Some(JString(text)) else None
    case VOther => None
    case VRef(r) =>
      if r !in heap || r in ancestors then None
      else
        assert heap.Keys - (ancestors + {r}) < heap.Keys - ancestors by { assert r in heap.Keys - ancestors; }
        match heap[r]
        case ArrayNode(elements) =>
          (match CheckElements(heap, nfc, elements, ancestors + {r}) case None => None case Some(items) => Some(JArray(items)))
        case ObjectNode(entries) =>
          (match CheckEntries(heap, nfc, entries, ancestors + {r}) case None => None case Some(m) => Some(JObject(m)))
        case OtherNode => None
  }

  function CheckElements(
    heap: map<nat, Node>, nfc: Text -> bool, elements: seq<Option<Value>>, ancestors: set<nat>): Option<seq<Json>>
    decreases heap.Keys - ancestors, 3, |elements|
  {
    if |elements| == 0 then Some([])
    else
      var last := |elements| - 1;
      match CheckElements(heap, nfc, elements[..last], ancestors)
      case None => None
      case Some(items) =>
        if elements[last].None? then None
        else
          match Check(heap, nfc, elements[last].value, ancestors)
          case None => None
          case Some(item) => Some(items + [item])
  }

  function CheckEntries(
    heap: map<nat, Node>, nfc: Text -> bool, entries: seq<(Text, Value)>, ancestors: set<nat>): Option<map<Text, Json>>
    decreases heap.Keys - ancestors, 3, |entries|
  {
    if |entries| == 0 then Some(map[])
    else
      var last := |entries| - 1;
      match CheckEntries(heap, nfc, entries[..last], ancestors)
      case None => None
      case Some(members) =>
        if !CanonicalString(nfc, entries[last].0) then None
        else
          match Check(heap, nfc, entries[last].1, ancestors)
          case None => None
          case Some(item) => Some(members[entries[last].0 := item])
  }

  /** An object graph stands for a finite value, unfolded: sharing is fine, a cycle has no finite unfolding. */
  ghost predicate Denotes(heap: map<nat, Node>, nfc: Text -> bool, v: Value, j: Json)
    decreases j
  {
    match j
    case JNull => v.VNull?
    case JBool(value) => v == VBool(value)
    case JNumber(numeral) => v.VNumber? && SupportedNumber(v.number) && v.number.numeral == numeral
    case JString(text) => v == VString(text) && CanonicalString(nfc, text)
    case JArray(items) =>
      && v.VRef? && v.ref in heap && heap[v.ref].ArrayNode? && |heap[v.ref].elements| == |items|
      && forall i :: 0 <= i < |items| ==>
           heap[v.ref].elements[i].Some? && Denotes(heap, nfc, heap[v.ref].elements[i].value, items[i])
    case JObject(members) =>
      && v.VRef? && v.ref in heap && heap[v.ref].ObjectNode?
      && var entries := heap[v.ref].entries;
         && (forall key :: key in members ==> HasKey(entries, key))
         && (forall i :: 0 <= i < |entries| ==>
               CanonicalString(nfc, entries[i].0) && entries[i].0 in members
               && Denotes(heap, nfc, entries[i].1, members[entries[i].0]))
  }

  /** A graph stands for at most one value. */
  lemma {:induction false} DenotesUnique(heap: map<nat, Node>, nfc: Text -> bool, v: Value, j: Json, k: Json)
    requires Denotes(heap, nfc, v, j) && Denotes(heap, nfc, v, k)
    ensures j == k
    decreases j
  {
    match j
    case JArray(items) =>
      forall i | 0 <= i < |items| ensures items[i] == k.items[i] {
        DenotesUnique(heap, nfc, heap[v.ref].elements[i].value, items[i], k.items[i]);
      }
    case JObject(members) =>
      var entries := heap[v.ref].entries;
      forall key ensures key in members <==> key in k.members {
      }
      forall key | key in members ensures members[key] == k.members[key] {
        var i :| 0 <= i < |entries| && entries[i].0 == key;
        DenotesUnique(heap, nfc, entries[i].1, members[key], k.members[key]);
      }
      assert members == k.members;
    case _ =>
  }

  lemma {:induction false} CheckSound(heap: map<nat, Node>, nfc: Text -> bool, v: Value, ancestors: set<nat>)
    requires Sane(heap) && Check(heap, nfc, v, ancestors).Some?
    ensures Denotes(heap, nfc, v, Check(heap, nfc, v, ancestors).value)
    decreases heap.Keys - ancestors, 2, 0
  {
    if v.VRef? {
      assert v.ref in heap.Keys - ancestors;
      match heap[v.ref]
      case ArrayNode(elements) => ElementsSound(heap, nfc, elements, ancestors + {v.ref});
      case ObjectNode(entries) => EntriesSound(heap, nfc, entries, ancestors + {v.ref});
      case OtherNode =>
    }
  }

  lemma {:induction false} ElementsSound(
    heap: map<nat, Node>, nfc: Text -> bool, elements: seq<Option<Value>>, ancestors: set<nat>)
    requires Sane(heap) && CheckElements(heap, nfc, elements, ancestors).Some?
    ensures var items := CheckElements(heap, nfc, elements, ancestors).value;
            && |items| == |elements|
            && forall i :: 0 <= i < |items| ==> elements[i].Some? && Denotes(heap, nfc, elements[i].value, items[i])
    decreases heap.Keys - ancestors, 3, |elements|
  {
    hide Denotes, Check;
    if |elements| > 0 {
      var last := |elements| - 1;
      ElementsSound(heap, nfc, elements[..last], ancestors);
      CheckSound(heap, nfc, elements[last].value, ancestors);
    }
  }

  lemma {:induction false} EntriesSound(
    heap: map<nat, Node>, nfc: Text -> bool, entries: seq<(Text, Value)>, ancestors: set<nat>)
    requires Sane(heap) && DistinctKeys(entries) && CheckEntries(heap, nfc, entries, ancestors).Some?
    ensures var members := CheckEntries(heap, nfc, entries, ancestors).value;
            && (forall key :: key in members ==> HasKey(entries, key))
            && (forall i :: 0 <= i < |entries| ==>
                  CanonicalString(nfc, entries[i].0) && entries[i].0 in members
                  && Denotes(heap, nfc, entries[i].1, members[entries[i].0]))
    decreases heap.Keys - ancestors, 3, |entries|
  {
    hide Denotes, Check, CanonicalString, Sane;
    if |entries| > 0 {
      var last := |entries| - 1;
      EntriesSound(heap, nfc, entries[..last], ancestors);
      CheckSound(heap, nfc, entries[last].1, ancestors);
      var before := CheckEntries(heap, nfc, entries[..last], ancestors).value;
      var members := CheckEntries(heap, nfc, entries, ancestors).value;
      assert members == before[entries[last].0 := Check(heap, nfc, entries[last].1, ancestors).value];
      hide CheckEntries;
      forall key | key in members ensures HasKey(entries, key) {
        if key in before {
          var i :| 0 <= i < last && entries[..last][i].0 == key;
          assert entries[i].0 == key;
        } else {
          assert entries[last].0 == key;
        }
      }
      forall i | 0 <= i < last
        ensures CanonicalString(nfc, entries[i].0) && entries[i].0 in members
                && Denotes(heap, nfc, entries[i].1, members[entries[i].0])
      {
        assert entries[..last][i] == entries[i] && entries[i].0 != entries[last].0;
      }
    }
  }

  /** Every ancestor stands for a value that properly contains this one. */
  ghost predicate Below(heap: map<nat, Node>, nfc: Text -> bool, j: Json, ancestors: set<nat>) {
    forall a, whole :: a in ancestors && Denotes(heap, nfc, VRef(a), whole) ==> j < whole
  }

  lemma BelowChild(heap: map<nat, Node>, nfc: Text -> bool, r: nat, j: Json, child: Json, ancestors: set<nat>)
    requires Denotes(heap, nfc, VRef(r), j) && child < j && Below(heap, nfc, j, ancestors)
    ensures Below(heap, nfc, child, ancestors + {r})
  {
    hide Denotes;
    forall a, whole | a in ancestors + {r} && Denotes(heap, nfc, VRef(a), whole) ensures child < whole {
      if a == r { DenotesUnique(heap, nfc, VRef(r), j, whole); }
    }
  }

  lemma {:induction false} CheckComplete(
    heap: map<nat, Node>, nfc: Text -> bool, v: Value, j: Json, ancestors: set<nat>)
    requires Sane(heap) && Denotes(heap, nfc, v, j) && Below(heap, nfc, j, ancestors)
    ensures Check(heap, nfc, v, ancestors) == Some(j)
    decreases j, 1, 0
  {
    if v.VRef? {
      var r := v.ref;
      assert r !in ancestors;
      match heap[r]
      case ArrayNode(elements) =>
        ElementsComplete(heap, nfc, r, j, elements, ancestors);
        assert j.items[..|elements|] == j.items;
      case ObjectNode(entries) =>
        EntriesComplete(heap, nfc, r, j, entries, ancestors);
      case OtherNode =>
    }
  }

  lemma {:induction false} ElementsComplete(
    heap: map<nat, Node>, nfc: Text -> bool, r: nat, j: Json, elements: seq<Option<Value>>, ancestors: set<nat>)
    requires Sane(heap) && j.JArray? && Denotes(heap, nfc, VRef(r), j) && Below(heap, nfc, j, ancestors)
    requires elements <= heap[r].elements
    ensures CheckElements(heap, nfc, elements, ancestors + {r}) == Some(j.items[..|elements|])
    decreases j, 0, |elements|
  {
    if |elements| > 0 {
      var last := |elements| - 1;
      assert elements[last] == heap[r].elements[last];
      ElementsComplete(heap, nfc, r, j, elements[..last], ancestors);
      BelowChild(heap, nfc, r, j, j.items[last], ancestors);
      CheckComplete(heap, nfc, elements[last].value, j.items[last], ancestors + {r});
      assert j.items[..|elements|] == j.items[..last] + [j.items[last]];
    }
  }

  ghost predicate Partial(entries: seq<(Text, Value)>, members: map<Text, Json>, part: map<Text, Json>) {
    && (forall key :: key in part <==> HasKey(entries, key))
    && (forall key :: key in part ==> key in members && part[key] == members[key])
  }

  lemma {:induction false} EntriesComplete(
    heap: map<nat, Node>, nfc: Text -> bool, r: nat, j: Json, entries: seq<(Text, Value)>, ancestors: set<nat>)
    requires Sane(heap) && j.JObject? && Denotes(heap, nfc, VRef(r), j) && Below(heap, nfc, j, ancestors)
    requires entries <= heap[r].entries
    ensures CheckEntries(heap, nfc, entries, ancestors + {r}).Some?
    ensures Partial(entries, j.members, CheckEntries(heap, nfc, entries, ancestors + {r}).value)
    ensures entries == heap[r].entries ==> CheckEntries(heap, nfc, entries, ancestors + {r}) == Some(j.members)
    decreases j, 0, |entries|
  {
    if |entries| > 0 {
      var last := |entries| - 1;
      var key := entries[last].0;
      assert entries[last] == heap[r].entries[last];
      EntriesComplete(heap, nfc, r, j, entries[..last], ancestors);
      BelowChild(heap, nfc, r, j, j.members[key], ancestors);
      CheckComplete(heap, nfc, entries[last].1, j.members[key], ancestors + {r});
      PartialGrows(entries, j.members, CheckEntries(heap, nfc, entries[..last], ancestors + {r}).value);
    }
    if entries == heap[r].entries {
      assert CheckEntries(heap, nfc, entries, ancestors + {r}).value == j.members;
    }
  }

  lemma PartialGrows(entries: seq<(Text, Value)>, members: map<Text, Json>, part: map<Text, Json>)
    requires |entries| > 0 && Partial(entries[..|entries| - 1], members, part)
    requires entries[|entries| - 1].0 in members
    ensures var key := entries[|entries| - 1].0; Partial(entries, members, part[key := members[key]])
  {
    var last := |entries| - 1;
    var key := entries[last].0;
    forall other ensures other in part[key := members[key]] <==> HasKey(entries, other) {
      if HasKey(entries, other) {
        var i :| 0 <= i < |entries| && entries[i].0 == other;
        if i < last { assert entries[..last][i].0 == other; }
      }
      assert entries[last].0 == key;
      if other in part {
        var i :| 0 <= i < last && entries[..last][i].0 == other;
        assert entries[i].0 == other;
      }
    }
  }

  /** The scalars that are refused: unsupported numbers, and strings that are not normalized or hide something. */
  lemma ScalarsRefused(heap: map<nat, Node>, nfc: Text -> bool, n: Number, text: Text, ancestors: set<nat>)
    ensures Check(heap, nfc, VNumber(n), ancestors).None? <==>
              n == NegativeZero || n == NotFinite || !Numeral(n.numeral) || (n.integer && !n.safe)
    ensures Check(heap, nfc, VString(text), ancestors).None? <==>
              !nfc(text) || exists i :: 0 <= i < |text| && (text[i] >= 0x1_0000 || Hidden(text[i]))
  {
  }

  /** The check accepts exactly the graphs that have a finite unfolding of supported values, and returns it. */
  lemma CheckIffDenotes(heap: map<nat, Node>, nfc: Text -> bool, v: Value, j: Json)
    requires Sane(heap)
    ensures Check(heap, nfc, v, {}) == Some(j) <==> Denotes(heap, nfc, v, j)
  {
    hide Check, Denotes;
    if Check(heap, nfc, v, {}) == Some(j) { CheckSound(heap, nfc, v, {}); }
    if Denotes(heap, nfc, v, j) { CheckComplete(heap, nfc, v, j, {}); }
  }

  lemma {:induction false} DenotedIsAccepted(heap: map<nat, Node>, nfc: Text -> bool, v: Value, j: Json)
    requires Denotes(heap, nfc, v, j)
    ensures Accepted(j)
    decreases j
  {
    match j
    case JArray(items) =>
      forall i | 0 <= i < |items| ensures Accepted(items[i]) {
        DenotedIsAccepted(heap, nfc, heap[v.ref].elements[i].value, items[i]);
      }
    case JObject(members) =>
      var entries := heap[v.ref].entries;
      forall key | key in members ensures Shown(key) && Accepted(members[key]) {
        var i :| 0 <= i < |entries| && entries[i].0 == key;
        DenotedIsAccepted(heap, nfc, entries[i].1, members[key]);
      }
    case _ =>
  }

  /** The bytes hashed for an object graph; None when a check throws. */
  ghost function DigestInput(name: Text, version: nat, heap: map<nat, Node>, nfc: Text -> bool, v: Value): Option<Text> {
    match Check(heap, nfc, v, {})
    case None => None
    case Some(j) => if ContractName(name) && ContractVersion(version) then Some(HashedBytes(name, version, j)) else None
  }

  /** A digest is taken exactly of a supported value, under a dotted name and a version that is a safe integer. */
  lemma DigestTaken(name: Text, version: nat, heap: map<nat, Node>, nfc: Text -> bool, v: Value)
    requires Sane(heap)
    ensures DigestInput(name, version, heap, nfc, v).Some? <==>
              Dotted(name) && version >= 1 && version <= 9_007_199_254_740_991 && exists j :: Denotes(heap, nfc, v, j)
    ensures forall j :: DigestInput(name, version, heap, nfc, v).Some? && Denotes(heap, nfc, v, j) ==>
              DigestInput(name, version, heap, nfc, v) == Some(HashedBytes(name, version, j))
  {
    hide Check, Denotes, HashedBytes, ContractName, Dotted;
    NamesAreDotted(name);
    forall j ensures Check(heap, nfc, v, {}) == Some(j) <==> Denotes(heap, nfc, v, j) { CheckIffDenotes(heap, nfc, v, j); }
    if Check(heap, nfc, v, {}).Some? { assert Denotes(heap, nfc, v, Check(heap, nfc, v, {}).value); }
  }

  /**
   * Two digests are taken over the same bytes exactly when contract name, version and value agree: the
   * order keys were inserted in, shared objects and the heap itself make no difference, nothing else does.
   */
  lemma SameDigestIffSameValue(
    name: Text, version: nat, heap: map<nat, Node>, v: Value,
    other: Text, otherVersion: nat, otherHeap: map<nat, Node>, w: Value, nfc: Text -> bool)
    requires Sane(heap) && Sane(otherHeap)
    requires DigestInput(name, version, heap, nfc, v).Some? && DigestInput(other, otherVersion, otherHeap, nfc, w).Some?
    ensures DigestInput(name, version, heap, nfc, v) == DigestInput(other, otherVersion, otherHeap, nfc, w) <==>
              && name == other && version == otherVersion
              && exists j :: Denotes(heap, nfc, v, j) && Denotes(otherHeap, nfc, w, j)
  {
    hide Check, Denotes, HashedBytes, Accepted, ContractName;
    var j, k := Check(heap, nfc, v, {}).value, Check(otherHeap, nfc, w, {}).value;
    CheckSound(heap, nfc, v, {});
    CheckSound(otherHeap, nfc, w, {});
    DenotedIsAccepted(heap, nfc, v, j);
    DenotedIsAccepted(otherHeap, nfc, w, k);
    if DigestInput(name, version, heap, nfc, v) == DigestInput(other, otherVersion, otherHeap, nfc, w) {
      BytesIdentifyValue(name, version, j, other, otherVersion, k);
      assert Denotes(heap, nfc, v, j) && Denotes(otherHeap, nfc, w, j);
    }
    if && name == other && version == otherVersion
       && exists same :: Denotes(heap, nfc, v, same) && Denotes(otherHeap, nfc, w, same)
    {
      var same :| Denotes(heap, nfc, v, same) && Denotes(otherHeap, nfc, w, same);
      DenotesUnique(heap, nfc, v, j, same);
      DenotesUnique(otherHeap, nfc, w, k, same);
    }
  }
}

/**
 * Readers for what is hashed, written from the grammars alone: JSON without optional white space (RFC 8259), UTF-8
 * (RFC 3629) and decimal numbers. Each reads back exactly what was printed.
 */
module CanonicalReading {
  import opened Records
  import opened Canonical

  // ---- strings

  function HexOf(unit: nat): Option<nat> {
    if 48 <= unit <= 57 then Some(unit - 48)
    else if 65 <= unit <= 70 then Some(unit - 55)
    else if 97 <= unit <= 102 then Some(unit - 87)
    else None
  }

  /** Four hexadecimal digits of either case. */
  function FourHex(x: Text): Option<nat>
    requires |x| >= 4
  {
    if HexOf(x[0]).None? || HexOf(x[1]).None? || HexOf(x[2]).None? || HexOf(x[3]).None? then None
    else Some(HexOf(x[0]).value * 4096 + HexOf(x[1]).value * 256 + HexOf(x[2]).value * 16 + HexOf(x[3]).value)
  }

  /** One character of a string: itself, or an escape. */
  function ReadUnit(x: Text): (read: Option<(nat, Text)>)
    requires |x| > 0
    ensures read.Some? ==> |read.value.1| < |x|
  {
    if x[0] != 92 then (if x[0] < 32 || x[0] == 34 then None else Some((x[0], x[1..])))
    else if |x| < 2 then None
    else if x[1] == 34 || x[1] == 92 || x[1] == 47 then Some((x[1], x[2..]))
    else if x[1] == 98 then Some((8, x[2..]))
    else if x[1] == 102 then Some((12, x[2..]))
    else if x[1] == 110 then Some((10, x[2..]))
    else if x[1] == 114 then Some((13, x[2..]))
    else if x[1] == 116 then Some((9, x[2..]))
    else if x[1] == 117 && |x| >= 6 && FourHex(x[2..]).Some? then Some((FourHex(x[2..]).value, x[6..]))
    else None
  }

  /** A string after its opening quote, up to and with the closing one. */
  function ReadString(x: Text): (read: Option<(Text, Text)>)
    ensures read.Some? ==> |read.value.1| < |x|
    decreases |x|
  {
    if |x| == 0 then None
    else if x[0] == 34 then Some(([], x[1..]))
    else
      var unit := ReadUnit(x);
      if unit.None? then None
      else
        var more := ReadString(unit.value.1);
        if more.None? then None else Some(([unit.value.0] + more.value.0, more.value.1))
  }

  lemma HexOfFour(n: nat)
    ensures var a := n / 16; var b := a / 16; var c := b / 16;
            Hex(n, 4) == [HexDigit(c % 16), HexDigit(b % 16), HexDigit(a % 16), HexDigit(n % 16)]
  {
    hide HexDigit;
    var a := n / 16;
    var b := a / 16;
    var c := b / 16;
    assert Hex(c / 16, 0) == [];
    assert Hex(c, 1) == [HexDigit(c % 16)];
    assert Hex(b, 2) == Hex(c, 1) + [HexDigit(b % 16)];
    assert Hex(a, 3) == Hex(b, 2) + [HexDigit(a % 16)];
    assert Hex(n, 4) == Hex(a, 3) + [HexDigit(n % 16)];
  }

  lemma DigitReads(n: nat)
    requires n < 16
    ensures HexOf(HexDigit(n)) == Some(n)
  {
  }

  lemma FourDigits(p: nat, q: nat, r: nat, t: nat, x: Text)
    requires p < 16 && q < 16 && r < 16 && t < 16
    ensures FourHex([HexDigit(p), HexDigit(q), HexDigit(r), HexDigit(t)] + x) == Some(p * 4096 + q * 256 + r * 16 + t)
  {
    hide HexDigit, HexOf;
    DigitReads(p);
    DigitReads(q);
    DigitReads(r);
    DigitReads(t);
  }

  lemma FourHexReads(n: nat, x: Text)
    requires n < 0x1_0000
    ensures FourHex(Hex(n, 4) + x) == Some(n)
  {
    hide Hex, FourHex, HexDigit;
    var a := n / 16;
    var b := a / 16;
    var c := b / 16;
    HexOfFour(n);
    FourDigits(c % 16, b % 16, a % 16, n % 16, x);
    assert n == a * 16 + n % 16 && a == b * 16 + a % 16 && b == c * 16 + b % 16 && c < 16;
  }

  /** One escaped unit is read back as itself. */
  lemma EscapeReads(unit: nat, x: Text)
    requires unit < 0x1_0000 && !Hidden(unit)
    ensures ReadUnit(Escape(unit) + x) == Some((unit, x))
  {
    var s := Escape(unit) + x;
    if unit == 34 || unit == 92 {
      assert s[0] == 92 && s[1] == unit && s[2..] == x;
    } else if HighSurrogate(unit) || LowSurrogate(unit) {
      FourHexReads(unit, x);
      assert s == [92, 117] + (Hex(unit, 4) + x);
      assert s[0] == 92 && s[1] == 117 && s[2..] == Hex(unit, 4) + x && s[6..] == x;
    } else {
      assert s[0] == unit && s[1..] == x;
    }
  }

  /** Only what has to be escaped is escaped, and with small hexadecimal digits. */
  lemma EscapesSparingly(unit: nat)
    ensures Escape(unit) == [unit] <==> !(unit == 34 || unit == 92 || 0xd800 <= unit <= 0xdfff)
    ensures unit == 34 || unit == 92 ==> Escape(unit) == [92, unit]
    ensures 0xd800 <= unit <= 0xdfff ==>
              |Escape(unit)| == 6 && Escape(unit)[..2] == [92, 117]
              && forall i :: 2 <= i < 6 ==> 48 <= Escape(unit)[i] <= 57 || 97 <= Escape(unit)[i] <= 102
  {
    if 0xd800 <= unit <= 0xdfff {
      var s := Hex(unit, 4);
      HexSmall(unit, 4);
      assert forall i :: 2 <= i < 6 ==> Escape(unit)[i] == s[i - 2];
    }
  }

  lemma {:induction false} HexSmall(n: nat, width: nat)
    ensures forall i :: 0 <= i < width ==> 48 <= Hex(n, width)[i] <= 57 || 97 <= Hex(n, width)[i] <= 102
  {
    if width > 0 { HexSmall(n / 16, width - 1); }
  }

  /** A string starts with what its first character is read from. */
  lemma CharacterReads(token: Text, unit: nat, text: Text, more: Text, x: Text)
    requires |token| > 0 && token[0] != 34 && ReadUnit(token + more) == Some((unit, more))
    requires ReadString(more) == Some((text, x))
    ensures ReadString(token + more) == Some(([unit] + text, x))
  {
    hide ReadUnit;
    assert (token + more)[0] == token[0];
  }

  lemma PlainReads(unit: nat, text: Text, more: Text, x: Text)
    requires unit >= 0xd800 && ReadString(more) == Some((text, x))
    ensures ReadString([unit] + more) == Some(([unit] + text, x))
  {
    hide ReadString;
    assert ([unit] + more)[1..] == more;
    CharacterReads([unit], unit, text, more, x);
  }

  lemma EscapedReads(unit: nat, text: Text, more: Text, x: Text)
    requires unit < 0x1_0000 && !Hidden(unit) && ReadString(more) == Some((text, x))
    ensures ReadString(Escape(unit) + more) == Some(([unit] + text, x))
  {
    hide ReadString, ReadUnit;
    EscapeReads(unit, more);
    CharacterReads(Escape(unit), unit, text, more, x);
  }

  lemma QuoteReads(x: Text)
    ensures ReadString([34] + x) == Some(([], x))
  {
    assert ([34] + x)[1..] == x;
  }

  lemma Associates(one: Text, two: Text, x: Text)
    ensures (one + two) + x == one + (two + x)
  {
  }

  lemma TwoInFront(one: nat, two: nat, more: Text, x: Text)
    ensures ([one, two] + more) + x == [one] + ([two] + (more + x))
    ensures [one, two] + more == [one] + ([two] + more)
  {
  }

  lemma PairStarts(text: Text, x: Text)
    requires Paired(text)
    ensures Body(text) + x == [text[0]] + ([text[1]] + (Body(text[2..]) + x))
    ensures text == [text[0]] + ([text[1]] + text[2..]) && text[0] >= 0xd800 && text[1] >= 0xd800
  {
    TwoInFront(text[0], text[1], Body(text[2..]), x);
    TwoInFront(text[0], text[1], text[2..], x);
    assert text == [text[0], text[1]] + text[2..];
    assert Body(text) == [text[0], text[1]] + Body(text[2..]);
  }

  lemma UnitStarts(text: Text, x: Text)
    requires |text| > 0 && !Paired(text)
    ensures Body(text) + x == Escape(text[0]) + (Body(text[1..]) + x)
    ensures text == [text[0]] + text[1..]
  {
    hide Escape, Paired;
    var token := Escape(text[0]);
    assert Body(text) == token + Body(text[1..]);
    Associates(token, Body(text[1..]), x);
  }

  lemma {:induction false} BodyReads(text: Text, x: Text)
    requires Shown(text)
    ensures ReadString(Body(text) + x) == Some((text, x))
    decreases |text|
  {
    hide ReadString, Escape, Paired, Hidden;
    if |text| == 0 {
      QuoteReads(x);
    } else if Paired(text) {
      PairStarts(text, x);
      BodyReads(text[2..], x);
      PlainReads(text[1], text[2..], Body(text[2..]) + x, x);
      PlainReads(text[0], [text[1]] + text[2..], [text[1]] + (Body(text[2..]) + x), x);
    } else {
      UnitStarts(text, x);
      BodyReads(text[1..], x);
      EscapedReads(text[0], text[1..], Body(text[1..]) + x, x);
    }
  }

  // ---- values

  predicate StartsWith(x: Text, word: Text) { |word| <= |x| && x[..|word|] == word }

  /** A number goes on for as long as its characters do. */
  function NumberLength(x: Text): (n: nat)
    ensures n <= |x|
  {
    if |x| > 0 && (48 <= x[0] <= 57 || x[0] in {43, 45, 46, 101}) then 1 + NumberLength(x[1..]) else 0
  }

  /** A value, and what follows it. An object may not repeat a key. */
  function ReadValue(x: Text): (read: Option<(Json, Text)>)
    ensures read.Some? ==> |read.value.1| < |x|
    decreases |x|, 0
  {
    if |x| == 0 then None
    else if StartsWith(x, Ascii("null")) then Some((JNull, x[4..]))
    else if StartsWith(x, Ascii("true")) then Some((JBool(true), x[4..]))
    else if StartsWith(x, Ascii("false")) then Some((JBool(false), x[5..]))
    else if x[0] == 34 then
      var text := ReadString(x[1..]);
      if text.None? then None else Some((JString(text.value.0), text.value.1))
    else if x[0] == 91 then
      if |x| > 1 && x[1] == 93 then Some((JArray([]), x[2..]))
      else
        var items := ReadItems(x[1..]);
        if items.None? then None else Some((JArray(items.value.0), items.value.1))
    else if x[0] == 123 then
      if |x| > 1 && x[1] == 125 then Some((JObject(map[]), x[2..]))
      else
        var members := ReadMembers(x[1..]);
        if members.None? then None else Some((JObject(members.value.0), members.value.1))
    else if (48 <= x[0] <= 57 || x[0] == 45) && NumberLength(x) > 0 then
      Some((JNumber(x[..NumberLength(x)]), x[NumberLength(x)..]))
    else None
  }

  /** One or more items, with commas between them, and the closing bracket. */
  function ReadItems(x: Text): (read: Option<(seq<Json>, Text)>)
    ensures read.Some? ==> |read.value.1| < |x|
    decreases |x|, 1
  {
    var item := ReadValue(x);
    if item.None? || |item.value.1| == 0 then None
    else if item.value.1[0] == 93 then Some(([item.value.0], item.value.1[1..]))
    else if item.value.1[0] != 44 then None
    else
      var more := ReadItems(item.value.1[1..]);
      if more.None? then None else Some(([item.value.0] + more.value.0, more.value.1))
  }

  /** One member: a key, a colon and a value. */
  function ReadMember(x: Text): (read: Option<(Text, Json, Text)>)
    ensures read.Some? ==> |read.value.2| < |x|
    decreases |x|, 1
  {
    if |x| == 0 || x[0] != 34 then None
    else
      var key := ReadString(x[1..]);
      if key.None? || |key.value.1| == 0 || key.value.1[0] != 58 then None
      else
        var value := ReadValue(key.value.1[1..]);
        if value.None? then None else Some((key.value.0, value.value.0, value.value.1))
  }

  function ReadMembers(x: Text): (read: Option<(map<Text, Json>, Text)>)
    ensures read.Some? ==> |read.value.1| < |x|
    decreases |x|, 2
  {
    var member := ReadMember(x);
    if member.None? || |member.value.2| == 0 then None
    else if member.value.2[0] == 125 then Some((map[member.value.0 := member.value.1], member.value.2[1..]))
    else if member.value.2[0] != 44 then None
    else
      var more := ReadMembers(member.value.2[1..]);
      if more.None? || member.value.0 in more.value.0 then None
      else Some((more.value.0[member.value.0 := member.value.1], more.value.1))
  }

  lemma {:induction false} NumberReads(numeral: Text, x: Text)
    requires forall i :: 0 <= i < |numeral| ==> NumeralUnit(numeral[i])
    requires Delimited(x)
    ensures NumberLength(numeral + x) == |numeral|
  {
    if |numeral| == 0 {
      assert numeral + x == x;
    } else {
      assert (numeral + x)[1..] == numeral[1..] + x && (numeral + x)[0] == numeral[0];
      NumberReads(numeral[1..], x);
    }
  }

  /** The words and the numbers. */
  lemma ScalarReads(v: Json, x: Text)
    requires Accepted(v) && Delimited(x) && (v.JNull? || v.JBool? || v.JNumber? || v.JString?)
    ensures ReadValue(Print(v) + x) == Some((v, x))
  {
    hide Body, ReadString;
    var s := Print(v) + x;
    match v
    case JNull => assert s[..4] == Ascii("null") && s[4..] == x;
    case JBool(value) =>
      if value { assert s[0] == 116 && s[..4] == Ascii("true") && s[4..] == x; WordsApart(s); }
      else { assert s[0] == 102 && s[..5] == Ascii("false") && s[5..] == x; WordsApart(s); }
    case JNumber(numeral) =>
      NumberReads(numeral, x);
      assert s[0] == numeral[0] && s[..|numeral|] == numeral && s[|numeral|..] == x;
      WordsApart(s);
    case JString(text) =>
      BodyReads(text, x);
      assert s[0] == 34 && s[1..] == Body(text) + x;
      WordsApart(s);
  }

  /** The three words are told by their first letter. */
  lemma WordsApart(x: Text)
    requires |x| > 0
    ensures StartsWith(x, Ascii("null")) ==> x[0] == 110
    ensures StartsWith(x, Ascii("true")) ==> x[0] == 116
    ensures StartsWith(x, Ascii("false")) ==> x[0] == 102
  {
    if StartsWith(x, Ascii("null")) { assert x[0] == x[..4][0]; }
    if StartsWith(x, Ascii("true")) { assert x[0] == x[..4][0]; }
    if StartsWith(x, Ascii("false")) { assert x[0] == x[..5][0]; }
  }

  /** The printed text of a value, whatever delimiter follows it, is read back as that value. */
  lemma {:induction false} PrintReads(v: Json, x: Text)
    requires Accepted(v) && Delimited(x)
    ensures ReadValue(Print(v) + x) == Some((v, x))
    decreases v, 2, 0
  {
    hide Items, Members, Sorted, ReadItems, ReadMembers, Accepted;
    match v
    case JArray(items) =>
      var s := Print(v) + x;
      assert s == [91] + (Items(v, 0) + x) && s[1..] == Items(v, 0) + x;
      WordsApart(s);
      ItemsStart(v, 0, x);
      if |items| == 0 {
        ItemsEnd(v);
        assert s[2..] == x;
      } else {
        assert s[1] == (Items(v, 0) + x)[0];
        assert Items(v, 0) + x == Print(items[0]) + (Items(v, 1) + x);
        ItemsRead(v, 0, x);
        assert items[0..] == items;
      }
    case JObject(members) => ObjectReads(v, x);
    case _ => ScalarReads(v, x);
  }

  lemma {:induction false} ItemsRead(v: Json, i: nat, x: Text)
    requires v.JArray? && Accepted(v) && i < |v.items|
    ensures ReadItems(Print(v.items[i]) + (Items(v, i + 1) + x)) == Some((v.items[i..], x))
    decreases v, 1, |v.items| - i
  {
    hide Print, Items, Accepted, ReadValue;
    assert Accepted(v.items[i]) by { AcceptedItems(v); }
    var rest := Items(v, i + 1) + x;
    ItemsStart(v, i + 1, x);
    PrintReads(v.items[i], rest);
    if i + 1 == |v.items| {
      ItemsEnd(v);
      assert rest[1..] == x && v.items[i..] == [v.items[i]];
    } else {
      ItemsRead(v, i + 1, x);
      assert rest[1..] == Print(v.items[i + 1]) + (Items(v, i + 2) + x);
      assert v.items[i..] == [v.items[i]] + v.items[i + 1..];
    }
  }

  /** The members under the keys from the i-th on. */
  ghost function Under(v: Json, keys: seq<Text>, i: nat): map<Text, Json>
    requires v.JObject? && i <= |keys| && forall key :: key in keys ==> key in v.members
  {
    map key | key in keys[i..] :: v.members[key]
  }

  /** An opened object is empty, or reads its members. */
  lemma OpensObject(x: Text)
    requires |x| > 1 && x[0] == 123
    ensures x[1] == 125 ==> ReadValue(x) == Some((JObject(map[]), x[2..]))
    ensures x[1] != 125 && ReadMembers(x[1..]).Some? ==>
              ReadValue(x) == Some((JObject(ReadMembers(x[1..]).value.0), ReadMembers(x[1..]).value.1))
  {
    hide ReadMembers, ReadItems, ReadString;
    WordsApart(x);
  }

  /** Printed members begin with the quote of the first key. */
  lemma MembersOpen(v: Json, keys: seq<Text>, x: Text)
    requires v.JObject? && |keys| > 0 && forall key :: key in keys ==> key in v.members
    ensures var s := Members(v, keys, 0) + x;
            s == Quoted(keys[0]) + ([58] + (Print(v.members[keys[0]]) + (Members(v, keys, 1) + x))) && s[0] == 34
  {
    hide Members, Print, Body;
    MembersStart(v, keys, 0, x);
  }

  lemma {:induction false} ObjectReads(v: Json, x: Text)
    requires v.JObject? && Accepted(v)
    ensures ReadValue(Print(v) + x) == Some((v, x))
    decreases v, 1, |Sorted(v.members.Keys)| + 1
  {
    hide Members, Sorted, ReadMembers, ReadValue, Accepted, Quoted;
    var keys, s := Sorted(v.members.Keys), Print(v) + x;
    SortedAscending(v.members.Keys);
    assert s == [123] + (Members(v, keys, 0) + x) && s[1..] == Members(v, keys, 0) + x;
    OpensObject(s);
    if |keys| == 0 {
      MembersEnd(v, keys);
      NoMembers(v, keys);
      assert s[1] == 125 && s[2..] == x;
    } else {
      MembersOpen(v, keys, x);
      assert s[1] == s[1..][0];
      MembersRead(v, keys, 0, x);
      AllUnder(v, keys);
    }
  }

  lemma NoMembers(v: Json, keys: seq<Text>)
    requires v.JObject? && |keys| == 0 && forall key :: key in v.members ==> key in keys
    ensures v == JObject(map[])
  {
    assert v.members == map[];
  }

  lemma AllUnder(v: Json, keys: seq<Text>)
    requires v.JObject? && forall key :: key in keys <==> key in v.members
    ensures v == JObject(Under(v, keys, 0))
  {
    assert keys[0..] == keys && Under(v, keys, 0) == v.members;
  }

  lemma UnderNext(v: Json, keys: seq<Text>, i: nat)
    requires v.JObject? && i < |keys| && forall key :: key in keys ==> key in v.members
    requires forall a, b :: 0 <= a < b < |keys| ==> keys[a] != keys[b]
    ensures Under(v, keys, i) == Under(v, keys, i + 1)[keys[i] := v.members[keys[i]]] && keys[i] !in Under(v, keys, i + 1)
    ensures i + 1 == |keys| ==> Under(v, keys, i) == map[keys[i] := v.members[keys[i]]]
  {
    assert keys[i..] == [keys[i]] + keys[i + 1..];
  }

  /** A printed member is read back with what follows it. */
  lemma {:induction false} MemberReads(v: Json, key: Text, x: Text)
    requires v.JObject? && Accepted(v) && key in v.members && Delimited(x)
    ensures ReadMember(Quoted(key) + ([58] + (Print(v.members[key]) + x))) == Some((key, v.members[key], x))
    decreases v, 0, 0
  {
    hide Print, Body, ReadString, ReadValue;
    assert Shown(key) && Accepted(v.members[key]);
    var value := Print(v.members[key]) + x;
    var s := Quoted(key) + ([58] + value);
    assert s[0] == 34 && s[1..] == Body(key) + ([58] + value);
    BodyReads(key, [58] + value);
    assert ([58] + value)[1..] == value;
    PrintReads(v.members[key], x);
  }

  lemma {:induction false} MembersRead(v: Json, keys: seq<Text>, i: nat, x: Text)
    requires v.JObject? && Accepted(v) && i < |keys|
    requires forall key :: key in keys ==> key in v.members
    requires forall a, b :: 0 <= a < b < |keys| ==> keys[a] != keys[b]
    ensures ReadMembers(Quoted(keys[i]) + ([58] + (Print(v.members[keys[i]]) + (Members(v, keys, i + 1) + x))))
         == Some((Under(v, keys, i), x))
    decreases v, 1, |keys| - i
  {
    hide Print, Quoted, Members, Accepted, ReadMember, Under;
    var rest := Members(v, keys, i + 1) + x;
    MembersStart(v, keys, i + 1, x);
    MemberReads(v, keys[i], rest);
    UnderNext(v, keys, i);
    if i + 1 == |keys| {
      MembersEnd(v, keys);
      assert rest[1..] == x;
    } else {
      MembersRead(v, keys, i + 1, x);
      assert rest[1..] == Quoted(keys[i + 1]) + ([58] + (Print(v.members[keys[i + 1]]) + (Members(v, keys, i + 2) + x)));
    }
  }

  // ---- bytes

  predicate Continues(b: nat) { 0x80 <= b <= 0xbf }

  /** One encoded character as its UTF-16 code units: one, or a surrogate pair beyond the first plane. */
  function ReadCharacter(x: Text): (read: Option<(Text, Text)>)
    requires |x| > 0
    ensures read.Some? ==> |read.value.1| < |x|
  {
    if x[0] < 0x80 then Some(([x[0]], x[1..]))
    else if 0xc2 <= x[0] <= 0xdf && |x| >= 2 && Continues(x[1]) then
      Some(([(x[0] - 0xc0) * 64 + (x[1] - 0x80)], x[2..]))
    else if 0xe0 <= x[0] <= 0xef && |x| >= 3 && Continues(x[1]) && Continues(x[2]) then
      var n := (x[0] - 0xe0) * 4096 + (x[1] - 0x80) * 64 + (x[2] - 0x80);
      if n < 0x800 || 0xd800 <= n <= 0xdfff then None else Some(([n], x[3..]))
    else if 0xf0 <= x[0] <= 0xf4 && |x| >= 4 && Continues(x[1]) && Continues(x[2]) && Continues(x[3]) then
      var n := (x[0] - 0xf0) * 262144 + (x[1] - 0x80) * 4096 + (x[2] - 0x80) * 64 + (x[3] - 0x80);
      if n < 0x1_0000 || n > 0x10_ffff then None
      else Some(([0xd800 + (n - 0x1_0000) / 1024, 0xdc00 + (n - 0x1_0000) % 1024], x[4..]))
    else None
  }

  function ReadBytes(x: Text): Option<Text>
    decreases |x|
  {
    if |x| == 0 then Some([])
    else
      var first := ReadCharacter(x);
      if first.None? then None
      else
        var more := ReadBytes(first.value.1);
        if more.None? then None else Some(first.value.0 + more.value)
  }

  lemma UnitReads(unit: nat, x: Text)
    requires unit < 0x1_0000 && !Surrogate(unit)
    ensures ReadCharacter(UnitBytes(unit) + x) == Some(([unit], x))
  {
    var s := UnitBytes(unit) + x;
    if unit < 0x80 {
      assert s[0] == unit && s[1..] == x;
    } else if unit < 0x800 {
      assert s[0] == 0xc0 + unit / 64 && s[1] == 0x80 + unit % 64 && s[2..] == x;
    } else {
      assert s[0] == 0xe0 + unit / 4096 && s[1] == 0x80 + unit / 64 % 64 && s[2] == 0x80 + unit % 64 && s[3..] == x;
      ThreeSextets(unit);
    }
  }

  lemma PairReads(high: nat, low: nat, x: Text)
    requires HighSurrogate(high) && LowSurrogate(low)
    ensures ReadCharacter(PairBytes(high, low) + x) == Some(([high, low], x))
  {
    var n := 0x1_0000 + (high - 0xd800) * 1024 + (low - 0xdc00);
    var s := PairBytes(high, low) + x;
    assert s[0] == 0xf0 + n / 262144 && s[1] == 0x80 + n / 4096 % 64 && s[2] == 0x80 + n / 64 % 64 && s[3] == 0x80 + n % 64;
    assert s[4..] == x;
    PairNumber(n);
    assert n - 0x1_0000 == (high - 0xd800) * 1024 + (low - 0xdc00);
  }

  /** Well-formed text is read back from its bytes. */
  lemma {:induction false} BytesRead(text: Text)
    requires WellFormed(text)
    ensures ReadBytes(Bytes(text)) == Some(text)
    decreases |text|
  {
    hide ReadCharacter, UnitBytes, PairBytes;
    if |text| > 0 {
      Unfold(text);
      BytesRead(Rest(text));
      if Paired(text) {
        PairReads(text[0], text[1], Bytes(Rest(text)));
        assert text == [text[0], text[1]] + text[2..];
      } else {
        UnitReads(text[0], Bytes(Rest(text)));
        assert text == [text[0]] + text[1..];
      }
    }
  }

  // ---- the whole preimage

  function ReadDecimal(x: Text): nat
    requires forall i :: 0 <= i < |x| ==> 48 <= x[i] <= 57
  {
    if |x| == 0 then 0 else ReadDecimal(x[..|x| - 1]) * 10 + (x[|x| - 1] - 48)
  }

  /** A version is printed in decimal, without leading zeros. */
  lemma {:induction false} DecimalReads(n: nat)
    ensures ReadDecimal(Decimal(n)) == n && (n > 0 ==> Decimal(n)[0] != 48)
  {
    if n >= 10 {
      DecimalReads(n / 10);
      var s := Decimal(n);
      assert s[..|s| - 1] == Decimal(n / 10) && s[|s| - 1] == 48 + n % 10 && s[0] == Decimal(n / 10)[0];
    }
  }

  /**
   * The hashed bytes are the UTF-8 of the words "guardian.", the name, ".v" and the version, a NUL, and a JSON text
   * that reads back as the value.
   */
  lemma PreimageReads(name: Text, version: nat, v: Json)
    requires ContractName(name) && Accepted(v)
    ensures exists json ::
              && ReadBytes(HashedBytes(name, version, v))
                 == Some(Ascii("guardian.") + name + Ascii(".v") + Decimal(version) + [0] + json)
              && ReadValue(json) == Some((v, []))
    ensures ReadDecimal(Decimal(version)) == version
  {
    hide Bytes, Print, ReadBytes, ReadValue, Decimal, WellFormed, HashedBytes, ReadDecimal;
    HashedIsEncoded(name, version, v);
    BytesRead(Preimage(name, version, v));
    DecimalReads(version);
    PrintReads(v, []);
    assert Print(v) + [] == Print(v);
    assert Ascii(".v") == [DOT, 118];
    assert Preimage(name, version, v)
      == Ascii("guardian.") + name + Ascii(".v") + Decimal(version) + [0] + Print(v);
  }
}

/** A decoder that undoes the canonical encoding, which is therefore unambiguous. */
module JsonDecoder {
  import opened Messages
  import opened JsonCanonical

  datatype Parsed<+T> = Failed | Read(value: T, rest: string)

  // ----- Strings -----

  function HexValue(c: char): Option<nat> {
    if '0' <= c <= '9' then Some(c as int - '0' as int)
    else if 'a' <= c <= 'f' then Some(c as int - 'a' as int + 10)
    else None
  }

  /** The character of a code made of four hexadecimal digits. */
  function ReadCode(s: string): Parsed<char> {
    if |s| < 4 || exists i | 0 <= i < 4 :: HexValue(s[i]).None? then Failed else
    var code := ((HexValue(s[0]).value * 16 + HexValue(s[1]).value) * 16 + HexValue(s[2]).value) * 16
      + HexValue(s[3]).value;
    if 0xD800 <= code < 0xE000 then Failed else Read(code as char, s[4..])
  }

  /** One character of a string, possibly escaped. */
  function ReadChar(s: string): (r: Parsed<char>)
    ensures r.Read? ==> |r.rest| < |s|
  {
    if s == "" then Failed
    else if s[0] != '\\' then Read(s[0], s[1..])
    else if |s| == 1 then Failed
    else match s[1]
      case '"' => Read('"', s[2..])
      case '\\' => Read('\\', s[2..])
      case 'b' => Read('\U{8}', s[2..])
      case 'f' => Read('\U{C}', s[2..])
      case 'n' => Read('\n', s[2..])
      case 'r' => Read('\r', s[2..])
      case 't' => Read('\t', s[2..])
      case 'u' => ReadCode(s[2..])
      case _ => Failed
  }

  /** The rest of a string, its opening quote already read. */
  function ReadText(s: string): (r: Parsed<string>)
    ensures r.Read? ==> |r.rest| < |s|
    decreases |s|
  {
    if s == "" then Failed
    else if s[0] == '"' then Read("", s[1..])
    else
      var c := ReadChar(s);
      if c.Failed? then Failed else
      var more := ReadText(c.rest);
      if more.Failed? then Failed else Read([c.value] + more.value, more.rest)
  }

  // ----- Values -----

  predicate NumberChar(c: char) {
    '0' <= c <= '9' || c == '-' || c == '+' || c == '.' || c == 'e' || c == 'E'
  }

  function NumberSpan(s: string): (n: nat)
    ensures n <= |s|
    ensures forall i | 0 <= i < n :: NumberChar(s[i])
    ensures n < |s| ==> !NumberChar(s[n])
  {
    if s == "" || !NumberChar(s[0]) then 0 else 1 + NumberSpan(s[1..])
  }

  function ReadWord(s: string, word: string, v: Json): (r: Parsed<Json>)
    ensures r.Read? ==> |r.rest| + |word| == |s|
  {
    if IsPrefix(word, s) then Read(v, s[|word|..]) else Failed
  }

  function Decode(s: string): (r: Parsed<Json>)
    ensures r.Read? ==> |r.rest| < |s|
    decreases |s|, 0
  {
    if s == "" then Failed
    else if s[0] == 'n' then ReadWord(s, "null", Null)
    else if s[0] == 't' then ReadWord(s, "true", Bool(true))
    else if s[0] == 'f' then ReadWord(s, "false", Bool(false))
    else if s[0] == '"' then
      var text := ReadText(s[1..]);
      if text.Failed? then Failed else Read(Text(text.value), text.rest)
    else if s[0] == '[' then
      if |s| > 1 && s[1] == ']' then Read(Array([]), s[2..]) else
      var items := DecodeItems(s[1..]);
      if items.Failed? then Failed else Read(Array(items.value), items.rest)
    else if s[0] == '{' then
      if |s| > 1 && s[1] == '}' then Read(Object(map[]), s[2..]) else
      var fields := DecodeMembers(s[1..]);
      if fields.Failed? then Failed else Read(Object(fields.value), fields.rest)
    else if NumberChar(s[0]) then Read(Number(s[..NumberSpan(s)]), s[NumberSpan(s)..])
    else Failed
  }

  /** At least one item, up to the closing bracket. */
  function DecodeItems(s: string): (r: Parsed<seq<Json>>)
    ensures r.Read? ==> |r.rest| < |s|
    decreases |s|, 1
  {
    var item := Decode(s);
    if item.Failed? || item.rest == "" then Failed
    else if item.rest[0] == ']' then Read([item.value], item.rest[1..])
    else if item.rest[0] != ',' then Failed
    else
      var more := DecodeItems(item.rest[1..]);
      if more.Failed? then Failed else Read([item.value] + more.value, more.rest)
  }

  function DecodeMember(s: string): (r: Parsed<(string, Json)>)
    ensures r.Read? ==> |r.rest| < |s|
    decreases |s|, 1
  {
    if s == "" || s[0] != '"' then Failed else
    var key := ReadText(s[1..]);
    if key.Failed? || key.rest == "" || key.rest[0] != ':' then Failed else
    var value := Decode(key.rest[1..]);
    if value.Failed? then Failed else Read((key.value, value.value), value.rest)
  }

  /** At least one member, up to the closing brace. */
  function DecodeMembers(s: string): (r: Parsed<map<string, Json>>)
    ensures r.Read? ==> |r.rest| < |s|
    decreases |s|, 2
  {
    var member := DecodeMember(s);
    if member.Failed? || member.rest == "" then Failed
    else if member.rest[0] == '}' then Read(map[member.value.0 := member.value.1], member.rest[1..])
    else if member.rest[0] != ',' then Failed
    else
      var more := DecodeMembers(member.rest[1..]);
      if more.Failed? then Failed else Read(more.value[member.value.0 := member.value.1], more.rest)
  }

  // ----- Strings are read back -----

  lemma HexReadsBack(n: nat)
    requires n < 16
    ensures HexValue(HexDigit(n)) == Some(n)
  {
  }

  lemma CodeReadsBack(c: char, rest: string)
    requires c as int < 0x10000
    ensures ReadCode(Hex4(c as int) + rest) == Read(c, rest)
  {
    hide HexDigit, HexValue;
    var code := c as int;
    var a, b, d, e := code / 4096, code / 256 % 16, code / 16 % 16, code % 16;
    HexReadsBack(a);
    HexReadsBack(b);
    HexReadsBack(d);
    HexReadsBack(e);
    FourDigits(code);
    FourCharacters(HexDigit(a), HexDigit(b), HexDigit(d), HexDigit(e), rest);
  }

  lemma FourDigits(code: nat)
    requires code < 0x10000
    ensures ((code / 4096 * 16 + code / 256 % 16) * 16 + code / 16 % 16) * 16 + code % 16 == code
  {
    assert code / 16 / 16 == code / 256 && code / 256 / 16 == code / 4096;
  }

  lemma FourCharacters(a: char, b: char, d: char, e: char, rest: string)
    ensures var s := [a, b, d, e] + rest;
      |s| >= 4 && s[0] == a && s[1] == b && s[2] == d && s[3] == e && s[4..] == rest
  {
  }

  lemma CharReadsBack(c: char, rest: string)
    ensures ReadChar(EscapeChar(c) + rest) == Read(c, rest)
  {
    hide ReadCode, Hex4;
    var s := EscapeChar(c) + rest;
    assert s[|EscapeChar(c)|..] == rest;
    if s[0] == '\\' && s[1] == 'u' {
      assert s[2..] == Hex4(c as int) + rest;
      CodeReadsBack(c, rest);
    }
  }

  lemma {:induction false} TextReadsBack(text: string, rest: string)
    ensures ReadText(Escaped(text) + ("\"" + rest)) == Read(text, rest)
  {
    hide ReadChar, EscapeChar;
    if text == "" {
      assert "" + ("\"" + rest) == "\"" + rest && ("\"" + rest)[1..] == rest;
    } else {
      var tail := Escaped(text[1..]) + ("\"" + rest);
      assert Escaped(text) + ("\"" + rest) == EscapeChar(text[0]) + tail;
      CharReadsBack(text[0], tail);
      TextReadsBack(text[1..], rest);
      assert [text[0]] + text[1..] == text;
    }
  }

  lemma QuoteReadsBack(text: string, rest: string)
    ensures var s := Quote(text) + rest; s != "" && s[0] == '"' && ReadText(s[1..]) == Read(text, rest)
  {
    hide ReadText, Escaped;
    TextReadsBack(text, rest);
    assert (Quote(text) + rest)[1..] == Escaped(text) + ("\"" + rest);
  }

  // ----- Values are read back -----

  /** All numbers, at any depth, are nonempty tokens of number characters. */
  ghost predicate NumbersAreTokens(v: Json) {
    match v
    case Number(token) => token != "" && forall i | 0 <= i < |token| :: NumberChar(token[i])
    case Array(items) => forall i | 0 <= i < |items| :: NumbersAreTokens(items[i])
    case Object(fields) => forall k | k in fields :: NumbersAreTokens(fields[k])
    case _ => true
  }

  predicate EndsToken(rest: string) {
    rest == "" || !NumberChar(rest[0])
  }

  lemma {:induction false} SpanIsUnique(s: string, n: nat)
    requires n <= |s| && forall i | 0 <= i < n :: NumberChar(s[i])
    requires n < |s| ==> !NumberChar(s[n])
    ensures NumberSpan(s) == n
  {
    hide NumberChar;
    if n > 0 {
      assert s[0] == s[..n][0];
      SpanIsUnique(s[1..], n - 1);
    }
  }

  lemma NumberReadsBack(token: string, rest: string)
    requires token != "" && (forall i | 0 <= i < |token| :: NumberChar(token[i])) && EndsToken(rest)
    ensures Decode(token + rest) == Read(Number(token), rest)
  {
    var s := token + rest;
    assert NumberChar(s[0]) by { assert s[0] == token[0]; }
    assert forall i | 0 <= i < |token| :: NumberChar(s[i]) by {
      assert forall i | 0 <= i < |token| :: s[i] == token[i];
    }
    SpanIsUnique(s, |token|);
    assert s[..|token|] == token && s[|token|..] == rest;
  }

  lemma WordsReadBack(rest: string)
    ensures Decode("null" + rest) == Read(Null, rest)
    ensures Decode("true" + rest) == Read(Bool(true), rest)
    ensures Decode("false" + rest) == Read(Bool(false), rest)
  {
    assert ("null" + rest)[4..] == rest && ("true" + rest)[4..] == rest && ("false" + rest)[5..] == rest;
  }

  /** Decoding an encoding, whatever follows it, gives the value back and leaves what follows. */
  lemma {:induction false} ValueReadsBack(v: Json, rest: string)
    requires NumbersAreTokens(v) && EndsToken(rest)
    ensures Decode(Encode(v) + rest) == Read(v, rest)
    decreases v, 1, 0
  {
    hide ReadText, DecodeItems, DecodeMembers, Quote, ItemsFrom, MembersFrom;
    match v
    case Null => WordsReadBack(rest);
    case Bool(_) => WordsReadBack(rest);
    case Number(token) => NumberReadsBack(token, rest);
    case Text(text) => QuoteReadsBack(text, rest);
    case Array(items) =>
      ArrayReadsBack(v, rest);
    case Object(fields) =>
      ObjectReadsBack(v, rest);
  }

  lemma {:induction false} ArrayReadsBack(v: Json, rest: string)
    requires v.Array? && NumbersAreTokens(v) && EndsToken(rest)
    ensures Decode(Encode(v) + rest) == Read(v, rest)
    decreases v, 0, |v.items| + 1
  {
    hide ReadText, DecodeItems, DecodeMembers, Quote;
    var s := Encode(v) + rest;
    if v.items == [] {
      ArrayEnds(v);
      assert s == "[]" + rest && s[2..] == rest;
    } else {
      ItemsReadBack(v, 0, rest);
      var inner := Encode(v.items[0]) + ItemsFrom(v, 1);
      assert s[1..] == inner + rest;
      StartOfValue(v.items[0]);
      assert v.items[0..] == v.items;
    }
  }

  lemma StartOfValue(v: Json)
    requires NumbersAreTokens(v)
    ensures Encode(v) != "" && Encode(v)[0] != ']'
  {
    hide ItemsFrom, MembersFrom, SortedKeys;
  }

  lemma {:induction false} ItemsReadBack(v: Json, i: nat, rest: string)
    requires v.Array? && NumbersAreTokens(v) && i < |v.items|
    ensures DecodeItems((Encode(v.items[i]) + ItemsFrom(v, i + 1)) + rest) == Read(v.items[i..], rest)
    decreases v, 0, |v.items| - i
  {
    hide Decode, Encode;
    var tail := ItemsFrom(v, i + 1) + rest;
    assert (Encode(v.items[i]) + ItemsFrom(v, i + 1)) + rest == Encode(v.items[i]) + tail;
    if i + 1 == |v.items| {
      assert tail == "]" + rest && tail[1..] == rest;
      ValueReadsBack(v.items[i], tail);
      assert v.items[i..] == [v.items[i]];
    } else {
      var next := Encode(v.items[i + 1]) + ItemsFrom(v, i + 2);
      assert tail == "," + (next + rest) && tail[1..] == next + rest;
      ValueReadsBack(v.items[i], tail);
      ItemsReadBack(v, i + 1, rest);
      assert v.items[i..] == [v.items[i]] + v.items[i + 1..];
    }
  }

  // ----- Objects -----

  /** The fields named by the keys from `i` on. */
  ghost function FieldsFrom(v: Json, keys: seq<string>, i: nat): map<string, Json>
    requires v.Object? && i <= |keys| && forall k | k in keys :: k in v.fields
  {
    map k | k in keys[i..] && k in v.fields :: v.fields[k]
  }

  lemma {:induction false} ObjectReadsBack(v: Json, rest: string)
    requires v.Object? && NumbersAreTokens(v) && EndsToken(rest)
    ensures Decode(Encode(v) + rest) == Read(v, rest)
    decreases v, 0, |SortedKeys(v.fields.Keys)| + 1
  {
    hide Decode, Encode, SortedKeys;
    var keys := SortedKeys(v.fields.Keys);
    if keys == [] {
      EmptyObjectReadsBack(v, rest);
    } else {
      MembersReadBack(v, keys, 0, rest);
      MembersMakeObject(v, rest);
      AllFields(v, keys);
    }
  }

  lemma EmptyObjectReadsBack(v: Json, rest: string)
    requires v.Object? && SortedKeys(v.fields.Keys) == []
    ensures Decode(Encode(v) + rest) == Read(v, rest)
  {
    hide ReadText, DecodeItems, DecodeMembers, SortedKeys;
    ObjectEnds(v, []);
    var s := Encode(v) + rest;
    assert s == "{}" + rest && s[2..] == rest;
    EmptyListing([], v.fields.Keys);
    assert v.fields == map[];
  }

  lemma MembersMakeObject(v: Json, rest: string)
    requires v.Object? && SortedKeys(v.fields.Keys) != []
    ensures var keys := SortedKeys(v.fields.Keys); var members := DecodeMembers(MemberText(v, keys, 0) + rest);
      Decode(Encode(v) + rest) == if members.Failed? then Failed else Read(Object(members.value), members.rest)
  {
    hide ReadText, DecodeItems, DecodeMembers, SortedKeys, Encode, MemberText;
    var s, text := Encode(v) + rest, MemberText(v, SortedKeys(v.fields.Keys), 0);
    ObjectText(v);
    assert s == "{" + (text + rest);
    assert s[1] == text[0] == '"';
    assert s[1..] == text + rest;
  }

  lemma ObjectText(v: Json)
    requires v.Object? && SortedKeys(v.fields.Keys) != []
    ensures var text := MemberText(v, SortedKeys(v.fields.Keys), 0);
      Encode(v) == "{" + text && text != "" && text[0] == '"'
  {
    hide SortedKeys;
    var text := MemberText(v, SortedKeys(v.fields.Keys), 0);
    assert MembersFrom(v, SortedKeys(v.fields.Keys), 0) == "" + text == text;
  }

  lemma AllFields(v: Json, keys: seq<string>)
    requires v.Object? && Lists(keys, v.fields.Keys)
    ensures FieldsFrom(v, keys, 0) == v.fields
  {
    assert keys[0..] == keys;
  }

  /** A member and everything after it. */
  ghost function MemberText(v: Json, keys: seq<string>, i: nat): string
    requires v.Object? && i < |keys| && forall k | k in keys :: k in v.fields
  {
    Quote(keys[i]) + (":" + (Encode(v.fields[keys[i]]) + MembersFrom(v, keys, i + 1)))
  }

  lemma MemberReadsBack(key: string, value: Json, text: string, tail: string)
    requires Decode(text + tail) == Read(value, tail)
    ensures DecodeMember(Quote(key) + (":" + (text + tail))) == Read((key, value), tail)
  {
    hide Decode, Quote, ReadText;
    var rest := ":" + (text + tail);
    QuoteReadsBack(key, rest);
    assert rest[1..] == text + tail;
  }

  lemma {:induction false} MembersReadBack(v: Json, keys: seq<string>, i: nat, rest: string)
    requires v.Object? && NumbersAreTokens(v) && i < |keys|
    requires Lists(keys, v.fields.Keys)
    ensures DecodeMembers(MemberText(v, keys, i) + rest) == Read(FieldsFrom(v, keys, i), rest)
    decreases v, 0, |keys| - i
  {
    hide Decode, Encode, Quote, DecodeMember, FieldsFrom, Lists;
    assert keys[i] in keys && forall k | k in keys :: k in v.fields by { ListedKeys(keys, v, i); }
    var value, tail := v.fields[keys[i]], MembersFrom(v, keys, i + 1) + rest;
    assert MemberText(v, keys, i) + rest == Quote(keys[i]) + (":" + (Encode(value) + tail));
    FieldsGrow(v, keys, i);
    if i + 1 == |keys| {
      assert tail == "}" + rest && tail[1..] == rest;
      ValueReadsBack(value, tail);
      MemberReadsBack(keys[i], value, Encode(value), tail);
    } else {
      assert tail == "," + (MemberText(v, keys, i + 1) + rest) && tail[1..] == MemberText(v, keys, i + 1) + rest;
      ValueReadsBack(value, tail);
      MemberReadsBack(keys[i], value, Encode(value), tail);
      MembersReadBack(v, keys, i + 1, rest);
    }
  }

  lemma ListedKeys(keys: seq<string>, v: Json, i: nat)
    requires v.Object? && Lists(keys, v.fields.Keys) && i < |keys|
    ensures keys[i] in keys && forall k | k in keys :: k in v.fields
  {
  }

  lemma FieldsGrow(v: Json, keys: seq<string>, i: nat)
    requires v.Object? && i < |keys| && Lists(keys, v.fields.Keys)
    ensures FieldsFrom(v, keys, i) == FieldsFrom(v, keys, i + 1)[keys[i] := v.fields[keys[i]]]
    ensures i + 1 == |keys| ==> FieldsFrom(v, keys, i) == map[keys[i] := v.fields[keys[i]]]
  {
    assert keys[i..] == [keys[i]] + keys[i + 1..];
    assert keys[i] in keys;
  }

  // ----- Main results -----

  /** The decoder undoes the encoder, exactly and with nothing left over. */
  lemma DecodeUndoesEncode(v: Json)
    requires NumbersAreTokens(v)
    ensures Decode(Encode(v)) == Read(v, "")
  {
    ValueReadsBack(v, "");
    assert Encode(v) + "" == Encode(v);
  }

  /** Two values have the same canonical text exactly when they are equal, objects as mappings. */
  lemma EncodingIsUnambiguous(a: Json, b: Json)
    requires NumbersAreTokens(a) && NumbersAreTokens(b)
    ensures Encode(a) == Encode(b) <==> a == b
  {
    DecodeUndoesEncode(a);
    DecodeUndoesEncode(b);
  }
}

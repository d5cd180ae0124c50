/** Canonical JSON: compact text with sorted object keys, the input of every cache-key hash. */
module JsonCanonical {
  import opened Messages

  /** Decoded JSON. A number is its canonical decimal token. */
  datatype Json =
    | Null
    | Bool(flag: bool)
    | Number(token: string)
    | Text(text: string)
    | Array(items: seq<Json>)
    | Object(fields: map<string, Json>)

  // ----- Sorted keys -----

  /** Code point order, which is also the byte order of the UTF-8 encodings. */
  predicate Less(a: string, b: string) {
    b != "" && (a == "" || a[0] < b[0] || (a[0] == b[0] && Less(a[1..], b[1..])))
  }

  lemma {:induction false} LessTotal(a: string, b: string)
    ensures a == b || Less(a, b) || Less(b, a)
  {
    if a != "" && b != "" && a[0] == b[0] {
      LessTotal(a[1..], b[1..]);
      assert a == [a[0]] + a[1..] && b == [b[0]] + b[1..];
    }
  }

  lemma {:induction false} LessTransitive(a: string, b: string, c: string)
    requires Less(a, b) && Less(b, c)
    ensures Less(a, c)
  {
    if a != "" && a[0] == b[0] && b[0] == c[0] {
      LessTransitive(a[1..], b[1..], c[1..]);
    }
  }

  lemma {:induction false} LessIrreflexive(a: string)
    ensures !Less(a, a)
  {
    if a != "" {
      LessIrreflexive(a[1..]);
    }
  }

  ghost predicate Increasing(keys: seq<string>) {
    forall i, k | 0 <= i < k < |keys| :: Less(keys[i], keys[k])
  }

  ghost predicate Lists(order: seq<string>, keys: set<string>) {
    Increasing(order) && forall k :: k in order <==> k in keys
  }

  /** Where `key` belongs in a sorted list. */
  function Place(key: string, order: seq<string>): (i: nat)
    ensures i <= |order|
    ensures forall k | 0 <= k < i :: Less(order[k], key)
    ensures i < |order| ==> !Less(order[i], key)
  {
    if order == [] || !Less(order[0], key) then 0 else 1 + Place(key, order[1..])
  }

  function Insert(key: string, order: seq<string>): seq<string> {
    var i := Place(key, order);
    order[..i] + [key] + order[i..]
  }

  lemma PlaceIsBefore(key: string, order: seq<string>, keys: set<string>)
    requires Lists(order, keys) && key !in keys
    ensures forall k | Place(key, order) <= k < |order| :: Less(key, order[k])
  {
    hide Less;
    var i := Place(key, order);
    forall k | i <= k < |order|
      ensures Less(key, order[k])
    {
      assert order[k] in order && order[i] in order;
      LessTotal(key, order[i]);
      if i < k {
        LessTransitive(key, order[i], order[k]);
      }
    }
  }

  lemma InsertIncreases(key: string, order: seq<string>, i: nat)
    requires i <= |order| && Increasing(order)
    requires forall k | 0 <= k < i :: Less(order[k], key)
    requires forall k | i <= k < |order| :: Less(key, order[k])
    ensures Increasing(order[..i] + [key] + order[i..])
  {
    hide Less;
    var r := order[..i] + [key] + order[i..];
    assert forall k | 0 <= k < |r| :: r[k] == if k < i then order[k] else if k == i then key else order[k - 1];
  }

  lemma InsertKeepsOrder(key: string, order: seq<string>, keys: set<string>)
    requires Lists(order, keys) && key !in keys
    ensures Lists(Insert(key, order), keys + {key})
  {
    hide Less;
    var i := Place(key, order);
    PlaceIsBefore(key, order, keys);
    InsertIncreases(key, order, i);
    hide Increasing;
    assert order == order[..i] + order[i..];
    assert forall k :: k in Insert(key, order) <==> k in order || k == key;
  }

  /** A set of keys has one sorted listing. */
  lemma {:induction false} OneSortedListing(a: seq<string>, b: seq<string>, keys: set<string>)
    requires Lists(a, keys) && Lists(b, keys)
    ensures a == b
  {
    if a == [] || b == [] {
      EmptyListing(a, keys);
      EmptyListing(b, keys);
    } else {
      assert a[0] in a;
      assert b[0] in b;
      FirstIsLeast(a, b[0]);
      FirstIsLeast(b, a[0]);
      if a[0] != b[0] {
        LessTransitive(a[0], b[0], a[0]);
        LessIrreflexive(a[0]);
      }
      RestIsListed(a, keys);
      RestIsListed(b, keys);
      OneSortedListing(a[1..], b[1..], keys - {a[0]});
      assert a == [a[0]] + a[1..] && b == [b[0]] + b[1..];
    }
  }

  lemma EmptyListing(order: seq<string>, keys: set<string>)
    requires Lists(order, keys)
    ensures order == [] <==> keys == {}
  {
    if order != [] {
      var key := order[0];
      assert key in order;
    }
  }

  lemma FirstIsLeast(order: seq<string>, key: string)
    requires Increasing(order) && key in order
    ensures order[0] == key || Less(order[0], key)
  {
  }

  lemma RestIsListed(order: seq<string>, keys: set<string>)
    requires Lists(order, keys) && order != []
    ensures Lists(order[1..], keys - {order[0]})
  {
    LessIrreflexive(order[0]);
    assert order == [order[0]] + order[1..];
  }

  ghost function SortedKeys(keys: set<string>): (order: seq<string>)
    ensures Lists(order, keys)
  {
    if keys == {} then [] else
    var key :| key in keys;
    var rest := SortedKeys(keys - {key});
    InsertKeepsOrder(key, rest, keys - {key});
    assert keys - {key} + {key} == keys;
    Insert(key, rest)
  }

  method SortKeys(keys: set<string>) returns (order: seq<string>)
    ensures order == SortedKeys(keys)
  {
    order := [];
    var remaining := keys;
    while remaining != {}
      invariant remaining <= keys && Lists(order, keys - remaining)
      decreases remaining
    {
      var key := PickAny(remaining);
      InsertKeepsOrder(key, order, keys - remaining);
      assert keys - remaining + {key} == keys - (remaining - {key});
      remaining := remaining - {key};
      order := Insert(key, order);
    }
    assert keys - remaining == keys;
    OneSortedListing(order, SortedKeys(keys), keys);
  }

  // ----- Strings -----

  function HexDigit(n: nat): char
    requires n < 16
  {
    if n < 10 then ('0' as int + n) as char else ('a' as int + n - 10) as char
  }

  function Hex4(code: nat): (r: string)
    requires code < 0x10000
    ensures |r| == 4
  {
    [HexDigit(code / 4096), HexDigit(code / 256 % 16), HexDigit(code / 16 % 16), HexDigit(code % 16)]
  }

  /** Control characters, characters that matter to HTML, and the two line separators of JavaScript. */
  predicate NeedsCode(c: char) {
    c < ' ' || c == '<' || c == '>' || c == '&' || c == '\U{2028}' || c == '\U{2029}'
  }

  function EscapeChar(c: char): (r: string)
    ensures r != "" && r[0] != '"'
  {
    if c == '"' then ['\\', '"']
    else if c == '\\' then ['\\', '\\']
    else if c == '\U{8}' then ['\\', 'b']
    else if c == '\U{C}' then ['\\', 'f']
    else if c == '\n' then ['\\', 'n']
    else if c == '\r' then ['\\', 'r']
    else if c == '\t' then ['\\', 't']
    else if NeedsCode(c) then ['\\', 'u'] + Hex4(c as int)
    else [c]
  }

  function Escaped(s: string): string {
    if s == "" then "" else EscapeChar(s[0]) + Escaped(s[1..])
  }

  function Quote(s: string): string {
    "\"" + Escaped(s) + "\""
  }

  // ----- Encoding -----

  ghost function Encode(v: Json): string
    decreases v, 1, 0
  {
    match v
    case Null => "null"
    case Bool(flag) => if flag then "true" else "false"
    case Number(token) => token
    case Text(text) => Quote(text)
    case Array(items) => "[" + ItemsFrom(v, 0)
    case Object(fields) => "{" + MembersFrom(v, SortedKeys(fields.Keys), 0)
  }

  /** The items from `i` on, each after the first with its comma, and the closing bracket. */
  ghost function ItemsFrom(v: Json, i: nat): string
    requires v.Array? && i <= |v.items|
    decreases v, 0, |v.items| - i
  {
    if i == |v.items| then "]"
    else (if i > 0 then "," else "") + (Encode(v.items[i]) + ItemsFrom(v, i + 1))
  }

  ghost function MembersFrom(v: Json, keys: seq<string>, i: nat): string
    requires v.Object? && i <= |keys| && forall k | k in keys :: k in v.fields
    decreases v, 0, |keys| - i
  {
    if i == |keys| then "}"
    else (if i > 0 then "," else "") + (Quote(keys[i])
                                        + (":" + (Encode(v.fields[keys[i]]) + MembersFrom(v, keys, i + 1))))
  }

  // ----- The encoder -----

  class Buffer {
    var data: string

    constructor ()
      ensures data == ""
    {
      data := "";
    }

    method WriteString(s: string)
      modifies this
      ensures data == old(data) + s
    {
      data := data + s;
    }
  }

  method WriteQuoted(buf: Buffer, s: string)
    modifies buf
    ensures buf.data == old(buf.data) + Quote(s)
  {
    hide EscapeChar;
    ghost var before := buf.data;
    buf.WriteString("\"");
    assert s[0..] == s;
    for i := 0 to |s|
      invariant buf.data + Escaped(s[i..]) == (before + "\"") + Escaped(s)
    {
      assert s[i..][0] == s[i] && s[i..][1..] == s[i + 1..];
      buf.WriteString(EscapeChar(s[i]));
    }
    assert buf.data + "" == buf.data;
    buf.WriteString("\"");
    assert ((before + "\"") + Escaped(s)) + "\"" == before + Quote(s);
  }

  method WriteValue(buf: Buffer, v: Json)
    modifies buf
    ensures buf.data == old(buf.data) + Encode(v)
    decreases v
  {
    hide Quote, SortedKeys, Lists;
    match v
    case Null => buf.WriteString("null");
    case Bool(flag) => buf.WriteString(if flag then "true" else "false");
    case Number(token) => buf.WriteString(token);
    case Text(text) => WriteQuoted(buf, text);
    case Array(items) => WriteItems(buf, v);
    case Object(fields) => WriteMembers(buf, v);
  }

  method WriteItems(buf: Buffer, v: Json)
    requires v.Array?
    modifies buf
    ensures buf.data == old(buf.data) + Encode(v)
    decreases v, 0
  {
    hide Encode, ItemsFrom;
    ghost var target := buf.data + Encode(v);
    ArrayBegins(buf.data, v);
    buf.WriteString("[");
    for i := 0 to |v.items|
      invariant buf.data + ItemsFrom(v, i) == target
    {
      ItemFollows(buf.data, v, i);
      if i > 0 {
        buf.WriteString(",");
      }
      WriteValue(buf, v.items[i]);
    }
    ArrayEnds(v);
    buf.WriteString("]");
  }

  lemma ArrayBegins(data: string, v: Json)
    requires v.Array?
    ensures data + Encode(v) == (data + "[") + ItemsFrom(v, 0)
  {
    hide ItemsFrom;
  }

  lemma ArrayEnds(v: Json)
    requires v.Array?
    ensures ItemsFrom(v, |v.items|) == "]"
  {
  }

  lemma ItemFollows(data: string, v: Json, i: nat)
    requires v.Array? && i < |v.items|
    ensures data + ItemsFrom(v, i)
         == ((if i > 0 then data + "," else data) + Encode(v.items[i])) + ItemsFrom(v, i + 1)
  {
    hide Encode;
    var item := Encode(v.items[i]) + ItemsFrom(v, i + 1);
    assert i == 0 ==> "" + item == item;
  }

  method WriteMembers(buf: Buffer, v: Json)
    requires v.Object?
    modifies buf
    ensures buf.data == old(buf.data) + Encode(v)
    decreases v, 0
  {
    hide Quote, Encode, MembersFrom;
    ghost var target := buf.data + Encode(v);
    ObjectBegins(buf.data, v);
    var keys := SortKeys(v.fields.Keys);
    buf.WriteString("{");
    for i := 0 to |keys|
      invariant buf.data + MembersFrom(v, keys, i) == target
    {
      MemberFollows(buf.data, v, keys, i);
      assert keys[i] in keys;
      if i > 0 {
        buf.WriteString(",");
      }
      WriteQuoted(buf, keys[i]);
      buf.WriteString(":");
      WriteValue(buf, v.fields[keys[i]]);
    }
    ObjectEnds(v, keys);
    buf.WriteString("}");
  }

  lemma ObjectBegins(data: string, v: Json)
    requires v.Object?
    ensures data + Encode(v) == (data + "{") + MembersFrom(v, SortedKeys(v.fields.Keys), 0)
  {
    hide MembersFrom;
  }

  lemma ObjectEnds(v: Json, keys: seq<string>)
    requires v.Object? && forall k | k in keys :: k in v.fields
    ensures MembersFrom(v, keys, |keys|) == "}"
  {
  }

  lemma MemberFollows(data: string, v: Json, keys: seq<string>, i: nat)
    requires v.Object? && i < |keys| && forall k | k in keys :: k in v.fields
    ensures keys[i] in keys
    ensures data + MembersFrom(v, keys, i)
         == ((((if i > 0 then data + "," else data) + Quote(keys[i])) + ":") + Encode(v.fields[keys[i]]))
             + MembersFrom(v, keys, i + 1)
  {
    hide Encode, Quote, MembersFrom;
    var name, value, rest := Quote(keys[i]), Encode(v.fields[keys[i]]), MembersFrom(v, keys, i + 1);
    MembersStep(v, keys, i);
    MemberSplit(if i > 0 then data + "," else data, name, value, rest);
    Reassociate(data, if i > 0 then "," else "", name + (":" + (value + rest)));
  }

  lemma MembersStep(v: Json, keys: seq<string>, i: nat)
    requires v.Object? && i < |keys| && forall k | k in keys :: k in v.fields
    ensures keys[i] in keys
    ensures MembersFrom(v, keys, i)
         == (if i > 0 then "," else "") + (Quote(keys[i])
                                           + (":" + (Encode(v.fields[keys[i]]) + MembersFrom(v, keys, i + 1))))
  {
    hide Encode, Quote;
  }

  lemma MemberSplit(front: string, name: string, value: string, rest: string)
    ensures front + (name + (":" + (value + rest))) == (((front + name) + ":") + value) + rest
  {
    Reassociate(front, name, ":" + (value + rest));
    Reassociate(front + name, ":", value + rest);
    Reassociate((front + name) + ":", value, rest);
  }

  method Marshal(v: Json) returns (text: string)
    ensures text == Encode(v)
  {
    var buf := new Buffer();
    WriteValue(buf, v);
    text := buf.data;
    assert "" + Encode(v) == Encode(v);
  }
}

/**
 Canonical JSON text, the input of every hash, signature and idempotency fingerprint.
 Text is a sequence of UTF-16 code units; strings are escaped as in section 7 of
 RFC 8259. Two values have the same text exactly when they are the same value with
 objects read as maps, provided no array consists of one undefined item.
 */
module CanonicalJson {

  type CodeUnit = u: int | 0 <= u < 0x10000
  type Text = seq<CodeUnit>

  /** A JavaScript value as the hashing code sees it. A number is its decimal text. */
  datatype Json =
    | Null
    | Undefined
    | Bool(b: bool)
    | Number(digits: Text)
    | String(s: Text)
    | Array(items: seq<Json>)
    | Object(entries: seq<Entry>)

  /** Own properties in insertion order. */
  datatype Entry = Entry(key: Text, value: Json)

  // ----- string escapes -----

  predicate IsHigh(u: CodeUnit) { 0xd800 <= u < 0xdc00 }
  predicate IsLow(u: CodeUnit) { 0xdc00 <= u < 0xe000 }

  function HexDigit(d: nat): CodeUnit
    requires d < 16
  {
    if d < 10 then 48 + d else 87 + d
  }

  function HexValue(c: CodeUnit): nat {
    if 48 <= c <= 57 then c - 48 else if 97 <= c <= 102 then c - 87 else 0
  }

  function Hex4(u: CodeUnit): Text {
    [HexDigit(u / 4096), HexDigit(u / 256 % 16), HexDigit(u / 16 % 16), HexDigit(u % 16)]
  }

  function EscapeUnit(u: CodeUnit): Text {
    if u == 8 then [92, 98]
    else if u == 9 then [92, 116]
    else if u == 10 then [92, 110]
    else if u == 12 then [92, 102]
    else if u == 13 then [92, 114]
    else if u == 34 || u == 92 then [92, u]
    else if u < 32 || IsHigh(u) || IsLow(u) then [92, 117] + Hex4(u)
    else [u]
  }

  /** Surrogate pairs stay, a surrogate without its partner is escaped. */
  function Escape(s: Text): Text {
    if s == [] then []
    else if |s| > 1 && IsHigh(s[0]) && IsLow(s[1]) then s[..2] + Escape(s[2..])
    else EscapeUnit(s[0]) + Escape(s[1..])
  }

  function Quote(s: Text): Text { [34] + Escape(s) + [34] }

  /** Reads a string body up to its closing quote; gives the string and what follows. */
  function ReadString(t: Text): (Text, Text)
    decreases |t|
  {
    if t == [] then ([], [])
    else if t[0] == 34 then ([], t[1..])
    else if t[0] != 92 || |t| < 2 then var (s, rest) := ReadString(t[1..]); ([t[0]] + s, rest)
    else if t[1] == 117 && |t| >= 6 then
      var (s, rest) := ReadString(t[6..]);
      var u := HexValue(t[2]) * 4096 + HexValue(t[3]) * 256 + HexValue(t[4]) * 16 + HexValue(t[5]);
      ([u % 0x10000] + s, rest)
    else
      var (s, rest) := ReadString(t[2..]);
      var c := t[1];
      ([if c == 98 then 8 else if c == 116 then 9 else if c == 110 then 10 else if c == 102 then 12 else if c == 114 then 13 else c] + s, rest)
  }

  lemma HexDigitRoundTrip(d: nat)
    requires d < 16
    ensures HexValue(HexDigit(d)) == d
  {
  }

  lemma HexRoundTrip(u: CodeUnit)
    ensures HexValue(Hex4(u)[0]) * 4096 + HexValue(Hex4(u)[1]) * 256 + HexValue(Hex4(u)[2]) * 16 + HexValue(Hex4(u)[3]) == u
  {
    hide HexDigit, HexValue;
    HexDigitRoundTrip(u / 4096);
    HexDigitRoundTrip(u / 256 % 16);
    HexDigitRoundTrip(u / 16 % 16);
    HexDigitRoundTrip(u % 16);
    assert u / 256 == u / 4096 * 16 + u / 256 % 16;
    assert u / 16 == u / 256 * 16 + u / 16 % 16;
  }

  lemma ReadHex(u: CodeUnit, tail: Text)
    ensures ReadString([92, 117] + Hex4(u) + tail) == ([u] + ReadString(tail).0, ReadString(tail).1)
  {
    var t := [92, 117] + Hex4(u) + tail;
    HexRoundTrip(u);
    assert t[6..] == tail;
    assert t[2] == Hex4(u)[0] && t[3] == Hex4(u)[1] && t[4] == Hex4(u)[2] && t[5] == Hex4(u)[3];
  }

  lemma ReadUnit(u: CodeUnit, tail: Text)
    ensures ReadString(EscapeUnit(u) + tail) == ([u] + ReadString(tail).0, ReadString(tail).1)
  {
    var e := EscapeUnit(u);
    if |e| == 6 {
      ReadHex(u, tail);
    } else if |e| == 2 {
      assert (e + tail)[2..] == tail;
    } else {
      assert (e + tail)[1..] == tail;
    }
  }

  lemma ReadPlain(u: CodeUnit, tail: Text)
    requires u != 34 && u != 92
    ensures ReadString([u] + tail) == ([u] + ReadString(tail).0, ReadString(tail).1)
  {
    assert ([u] + tail)[1..] == tail;
  }

  lemma ReadClose(rest: Text)
    ensures ReadString([34] + rest) == ([], rest)
  {
    assert ([34] + rest)[1..] == rest;
  }

  /** Reading undoes escaping. */
  lemma {:induction false} ReadEscaped(s: Text, rest: Text)
    ensures ReadString(Escape(s) + [34] + rest) == (s, rest)
    decreases |s|
  {
    hide EscapeUnit, ReadString;
    if s == [] {
      ReadClose(rest);
      assert Escape(s) + [34] + rest == [34] + rest;
    } else if |s| > 1 && IsHigh(s[0]) && IsLow(s[1]) {
      var tail := Escape(s[2..]) + [34] + rest;
      ReadEscaped(s[2..], rest);
      ReadPlain(s[1], tail);
      ReadPlain(s[0], [s[1]] + tail);
      assert Escape(s) + [34] + rest == [s[0]] + ([s[1]] + tail);
      assert s == [s[0]] + ([s[1]] + s[2..]);
    } else {
      var tail := Escape(s[1..]) + [34] + rest;
      ReadEscaped(s[1..], rest);
      ReadUnit(s[0], tail);
      assert Escape(s) + [34] + rest == EscapeUnit(s[0]) + tail;
      assert s == [s[0]] + s[1..];
    }
  }

  /** A quoted string ends where it ends: neither it nor what follows can be read otherwise. */
  lemma QuoteUnambiguous(s: Text, a: Text, t: Text, b: Text)
    requires Quote(s) + a == Quote(t) + b
    ensures s == t && a == b
  {
    assert (Quote(s) + a)[1..] == Escape(s) + [34] + a;
    assert (Quote(t) + b)[1..] == Escape(t) + [34] + b;
    ReadEscaped(s, a);
    ReadEscaped(t, b);
  }

  // ----- key order -----

  /** Order of strings by UTF-16 code units, the default order of `sort`. */
  predicate Less(s: Text, t: Text) {
    t != [] && (s == [] || s[0] < t[0] || (s[0] == t[0] && Less(s[1..], t[1..])))
  }

  lemma {:induction false} LessTotal(s: Text, t: Text)
    ensures Less(s, t) || s == t || Less(t, s)
    ensures !(Less(s, t) && Less(t, s)) && !Less(s, s)
    decreases |s|
  {
    if s != [] && t != [] {
      LessTotal(s[1..], t[1..]);
      assert s == [s[0]] + s[1..] && t == [t[0]] + t[1..];
    }
    if s != [] {
      LessTotal(s[1..], s[1..]);
    }
  }

  lemma {:induction false} LessTransitive(s: Text, t: Text, u: Text)
    requires Less(s, t) && Less(t, u)
    ensures Less(s, u)
    decreases |s|
  {
    if s != [] && s[0] == t[0] == u[0] {
      LessTransitive(s[1..], t[1..], u[1..]);
    }
  }

  predicate Increasing(keys: seq<Text>) {
    forall i, j :: 0 <= i < j < |keys| ==> Less(keys[i], keys[j])
  }

  predicate Distinct(keys: seq<Text>) {
    forall i, j :: 0 <= i < j < |keys| ==> keys[i] != keys[j]
  }

  function Insert(k: Text, keys: seq<Text>): (r: seq<Text>)
    ensures forall x :: x in r <==> x == k || x in keys
  {
    if keys == [] || Less(k, keys[0]) then [k] + keys else [keys[0]] + Insert(k, keys[1..])
  }

  function SortKeys(keys: seq<Text>): (r: seq<Text>)
    ensures forall x :: x in r <==> x in keys
  {
    if keys == [] then [] else Insert(keys[0], SortKeys(keys[1..]))
  }

  lemma {:induction false} InsertSorted(k: Text, keys: seq<Text>)
    requires Increasing(keys) && k !in keys
    ensures Increasing(Insert(k, keys))
    decreases |keys|
  {
    if keys == [] {
    } else if Less(k, keys[0]) {
      forall j | 0 <= j < |keys| ensures Less(k, keys[j]) {
        if j > 0 {
          LessTransitive(k, keys[0], keys[j]);
        }
      }
    } else {
      LessTotal(k, keys[0]);
      InsertSorted(k, keys[1..]);
      var rest := Insert(k, keys[1..]);
      forall j | 0 <= j < |rest| ensures Less(keys[0], rest[j]) {
        assert rest[j] in rest;
      }
      assert keys == [keys[0]] + keys[1..];
    }
  }

  lemma {:induction false} SortKeysSorted(keys: seq<Text>)
    requires Distinct(keys)
    ensures Increasing(SortKeys(keys))
    decreases |keys|
  {
    if keys != [] {
      SortKeysSorted(keys[1..]);
      InsertSorted(keys[0], SortKeys(keys[1..]));
      assert keys == [keys[0]] + keys[1..];
    }
  }

  /** Increasing key lists with the same members are the same list. */
  lemma {:induction false} IncreasingUnique(s: seq<Text>, t: seq<Text>)
    requires Increasing(s) && Increasing(t)
    requires forall x :: x in s <==> x in t
    ensures s == t
    decreases |s|
  {
    assert t != [] ==> t[0] in t;
    if s != [] {
      assert s[0] in t && t != [] && t[0] in s;
      var i :| 0 <= i < |t| && t[i] == s[0];
      var j :| 0 <= j < |s| && s[j] == t[0];
      LessTotal(s[0], t[0]);
      forall x ensures x in s[1..] <==> x in t[1..] {
        TailMembers(s, x);
        TailMembers(t, x);
      }
      IncreasingUnique(s[1..], t[1..]);
    }
  }

  lemma TailMembers(s: seq<Text>, x: Text)
    requires s != [] && Increasing(s)
    ensures x in s[1..] <==> x in s && x != s[0]
  {
    LessTotal(s[0], s[0]);
    assert s == [s[0]] + s[1..];
  }

  // ----- canonical text -----

  function Keys(entries: seq<Entry>): (r: seq<Text>)
    ensures |r| == |entries|
    ensures forall i :: 0 <= i < |r| ==> r[i] == entries[i].key
  {
    seq(|entries|, i requires 0 <= i < |entries| => entries[i].key)
  }

  function IndexOf(entries: seq<Entry>, key: Text): (i: nat)
    requires key in Keys(entries)
    ensures i < |entries| && entries[i].key == key
  {
    if entries[0].key == key then 0
    else
      assert key in Keys(entries[1..]) by {
        assert Keys(entries) == [entries[0].key] + Keys(entries[1..]);
      }
      1 + IndexOf(entries[1..], key)
  }

  predicate NumberUnit(c: CodeUnit) {
    48 <= c <= 57 || c == 45 || c == 43 || c == 46 || c == 101
  }

  predicate NumberText(t: Text) {
    t != [] && (48 <= t[0] <= 57 || t[0] == 45) && forall i :: 0 <= i < |t| ==> NumberUnit(t[i])
  }

  /** Property names of an object are distinct; a number is some decimal text. */
  predicate WellFormed(v: Json) {
    match v
    case Number(t) => NumberText(t)
    case Array(items) => forall i :: 0 <= i < |items| ==> WellFormed(items[i])
    case Object(entries) => Distinct(Keys(entries)) && forall i :: 0 <= i < |entries| ==> WellFormed(entries[i].value)
    case _ => true
  }

  /** No array anywhere in the value consists of exactly one undefined item. */
  predicate NoLoneUndefined(v: Json) {
    match v
    case Array(items) => items != [Undefined] && forall i :: 0 <= i < |items| ==> NoLoneUndefined(items[i])
    case Object(entries) => forall i :: 0 <= i < |entries| ==> NoLoneUndefined(entries[i].value)
    case _ => true
  }

  function CanonicalText(v: Json): Text
    decreases v, 1
  {
    match v
    case Null => [110, 117, 108, 108]
    case Undefined => [117, 110, 100, 101, 102, 105, 110, 101, 100]
    case Bool(b) => if b then [116, 114, 117, 101] else [102, 97, 108, 115, 101]
    case Number(t) => t
    case String(s) => Quote(s)
    case Array(items) => [91] + Items(items) + [93]
    case Object(entries) =>
      var keys := SortKeys(Keys(entries));
      [123] + Members(entries, keys) + [125]
  }

  /** `join` writes nothing for an undefined item. */
  function ItemText(v: Json): Text
    decreases v, 2
  {
    if v == Undefined then [] else CanonicalText(v)
  }

  function Items(items: seq<Json>): Text
    decreases items, 0
  {
    if items == [] then []
    else if |items| == 1 then ItemText(items[0])
    else ItemText(items[0]) + [44] + Items(items[1..])
  }

  function MemberText(entries: seq<Entry>, key: Text): Text
    requires key in Keys(entries)
    decreases entries, 0
  {
    Quote(key) + [58] + CanonicalText(entries[IndexOf(entries, key)].value)
  }

  function Members(entries: seq<Entry>, keys: seq<Text>): Text
    requires forall k :: k in keys ==> k in Keys(entries)
    decreases entries, 1 + |keys|
  {
    if keys == [] then []
    else if |keys| == 1 then MemberText(entries, keys[0])
    else MemberText(entries, keys[0]) + [44] + Members(entries, keys[1..])
  }

  /** Equality with objects read as maps. */
  ghost predicate Same(v: Json, w: Json)
    decreases v
  {
    match (v, w)
    case (Array(xs), Array(ys)) => |xs| == |ys| && forall i :: 0 <= i < |xs| ==> Same(xs[i], ys[i])
    case (Object(es), Object(fs)) =>
      && (forall k :: k in Keys(es) <==> k in Keys(fs))
      && forall i :: 0 <= i < |es| ==> es[i].key in Keys(fs) && Same(es[i].value, fs[IndexOf(fs, es[i].key)].value)
    case _ => v == w
  }

  // ----- no two values share a text -----

  /** The first unit of a text tells which kind of value it is, and is never a separator or a closing bracket. */
  lemma FirstUnit(v: Json)
    requires WellFormed(v)
    ensures var t := CanonicalText(v);
      && t != [] && t[0] != 44 && t[0] != 93 && t[0] != 125
      && (t[0] == 110 <==> v.Null?) && (t[0] == 117 <==> v.Undefined?)
      && (t[0] == 116 <==> v == Bool(true)) && (t[0] == 102 <==> v == Bool(false))
      && (t[0] == 34 <==> v.String?) && (t[0] == 91 <==> v.Array?) && (t[0] == 123 <==> v.Object?)
  {
  }

  /** What may follow a value: nothing, or a separator or closing bracket. */
  predicate Stops(a: Text) {
    a == [] || a[0] == 44 || a[0] == 93 || a[0] == 125
  }

  lemma HeadStays(s: Text, a: Text)
    ensures s != [] ==> |s + a| > 0 && (s + a)[0] == s[0]
  {
  }

  lemma {:induction false} NumberEnds(s: Text, a: Text, t: Text, b: Text)
    requires s + a == t + b && Stops(a) && Stops(b)
    requires forall i :: 0 <= i < |s| ==> NumberUnit(s[i])
    requires forall i :: 0 <= i < |t| ==> NumberUnit(t[i])
    ensures s == t && a == b
    decreases |s|
  {
    HeadStays(s, a);
    HeadStays(t, b);
    if s == [] || t == [] {
      assert [] + a == a && [] + b == b;
    } else {
      assert s[1..] + a == (s + a)[1..] == (t + b)[1..] == t[1..] + b;
      NumberEnds(s[1..], a, t[1..], b);
      assert s == [s[0]] + s[1..] && t == [t[0]] + t[1..];
    }
  }

  /** Equal texts followed by something that stops them come from the same value. */
  lemma {:induction false} TextDetermines(v: Json, a: Text, w: Json, b: Text)
    requires WellFormed(v) && WellFormed(w) && NoLoneUndefined(v) && NoLoneUndefined(w)
    requires Stops(a) && Stops(b)
    requires CanonicalText(v) + a == CanonicalText(w) + b
    ensures Same(v, w) && a == b
    decreases v, 1
  {
    hide Quote, Items, Members, SortKeys, IndexOf, NumberUnit;
    FirstUnit(v);
    FirstUnit(w);
    var s, t := CanonicalText(v), CanonicalText(w);
    assert s[0] == (s + a)[0] == (t + b)[0] == t[0];
    match v {
      case Null | Undefined | Bool(_) =>
        assert v == w;
        assert a == (s + a)[|s|..] == (t + b)[|t|..] == b;
      case Number(_) => NumberEnds(s, a, t, b);
      case String(x) => QuoteUnambiguous(x, a, w.s, b);
      case Array(xs) =>
        assert (s + a)[1..] == Items(xs) + ([93] + a) && (t + b)[1..] == Items(w.items) + ([93] + b);
        ItemsDetermine(xs, a, w.items, b);
      case Object(es) =>
        var ks, ls := SortKeys(Keys(es)), SortKeys(Keys(w.entries));
        assert (s + a)[1..] == Members(es, ks) + ([125] + a) && (t + b)[1..] == Members(w.entries, ls) + ([125] + b);
        MembersDetermine(es, ks, a, w.entries, ls, b);
        SameByKeys(es, w.entries);
    }
  }

  /** Objects with the same keys and the same value under every key are the same. */
  lemma SameByKeys(es: seq<Entry>, fs: seq<Entry>)
    requires Distinct(Keys(es))
    requires forall k :: k in Keys(es) <==> k in Keys(fs)
    requires forall k :: k in Keys(es) ==> Same(es[IndexOf(es, k)].value, fs[IndexOf(fs, k)].value)
    ensures Same(Object(es), Object(fs))
  {
    forall i | 0 <= i < |es| ensures es[i].key in Keys(fs) && Same(es[i].value, fs[IndexOf(fs, es[i].key)].value) {
      assert Keys(es)[i] in Keys(es);
      DistinctIndex(es, i);
    }
  }

  lemma DistinctIndex(entries: seq<Entry>, i: nat)
    requires Distinct(Keys(entries)) && i < |entries|
    ensures entries[i].key in Keys(entries) && IndexOf(entries, entries[i].key) == i
  {
    hide IndexOf;
    var keys, j := Keys(entries), IndexOf(entries, entries[i].key);
    assert keys[i] == entries[i].key && keys[i] in keys && keys[j] == keys[i];
    assert i == j || i < j || j < i;
  }

  /** What stands after the first item of a list: a separator and the rest, or the closing bracket. */
  function AfterItem(items: seq<Json>, a: Text): Text
    requires items != []
  {
    if |items| == 1 then [93] + a else [44] + (Items(items[1..]) + ([93] + a))
  }

  lemma {:induction false} ItemsDetermine(xs: seq<Json>, a: Text, ys: seq<Json>, b: Text)
    requires xs != [Undefined] && ys != [Undefined]
    requires forall i :: 0 <= i < |xs| ==> WellFormed(xs[i]) && NoLoneUndefined(xs[i])
    requires forall i :: 0 <= i < |ys| ==> WellFormed(ys[i]) && NoLoneUndefined(ys[i])
    requires Items(xs) + ([93] + a) == Items(ys) + ([93] + b)
    ensures |xs| == |ys| && a == b
    ensures forall i :: 0 <= i < |xs| ==> Same(xs[i], ys[i])
    decreases xs, 1
  {
    if xs == [] || ys == [] {
      EmptyItems(xs, a);
      EmptyItems(ys, b);
      assert a == (Items(xs) + ([93] + a))[1..] == (Items(ys) + ([93] + b))[1..] == b;
    } else {
      ItemsOfEqualText(xs, a, ys, b);
    }
  }

  /** The text of a list starts with the closing bracket exactly when the list is empty (or is one undefined item). */
  lemma EmptyItems(xs: seq<Json>, a: Text)
    requires xs != [Undefined] && forall i :: 0 <= i < |xs| ==> WellFormed(xs[i])
    ensures var t := Items(xs) + ([93] + a); t != [] && (t[0] == 93 <==> xs == [])
    ensures xs == [] ==> Items(xs) + ([93] + a) == [93] + a
  {
    if xs != [] && xs[0] != Undefined {
      FirstUnit(xs[0]);
    }
  }

  lemma SplitItems(xs: seq<Json>, a: Text)
    requires xs != []
    ensures Items(xs) + ([93] + a) == ItemText(xs[0]) + AfterItem(xs, a)
    ensures Stops(AfterItem(xs, a)) && AfterItem(xs, a) != [] && (AfterItem(xs, a)[0] == 93 <==> |xs| == 1)
  {
  }

  lemma {:induction false} ItemsOfEqualText(xs: seq<Json>, a: Text, ys: seq<Json>, b: Text)
    requires xs != [] && ys != []
    requires forall i :: 0 <= i < |xs| ==> WellFormed(xs[i]) && NoLoneUndefined(xs[i])
    requires forall i :: 0 <= i < |ys| ==> WellFormed(ys[i]) && NoLoneUndefined(ys[i])
    requires Items(xs) + ([93] + a) == Items(ys) + ([93] + b)
    ensures |xs| == |ys| && a == b
    ensures forall i :: 0 <= i < |xs| ==> Same(xs[i], ys[i])
    decreases xs, 0
  {
    SplitItems(xs, a);
    SplitItems(ys, b);
    var after, other := AfterItem(xs, a), AfterItem(ys, b);
    ItemDetermined(xs[0], after, ys[0], other);
    if xs[0] != Undefined && ys[0] != Undefined {
      TextDetermines(xs[0], after, ys[0], other);
    }
    assert after == other && Same(xs[0], ys[0]);
    if |xs| == 1 {
      assert a == after[1..] == other[1..] == b;
    } else {
      assert Items(xs[1..]) + ([93] + a) == after[1..] == other[1..] == Items(ys[1..]) + ([93] + b);
      ItemsOfEqualText(xs[1..], a, ys[1..], b);
      forall i | 0 <= i < |xs| ensures Same(xs[i], ys[i]) {
        if i > 0 {
          assert xs[i] == xs[1..][i - 1] && ys[i] == ys[1..][i - 1];
        }
      }
    }
  }

  /** An empty item text comes from an undefined item on both sides. */
  lemma ItemDetermined(v: Json, a: Text, w: Json, b: Text)
    requires WellFormed(v) && WellFormed(w)
    requires Stops(a) && a != [] && Stops(b) && b != []
    requires ItemText(v) + a == ItemText(w) + b
    ensures v == Undefined <==> w == Undefined
    ensures v == Undefined ==> a == b
  {
    FirstUnit(v);
    FirstUnit(w);
    if v == Undefined {
      assert ItemText(v) + a == a;
    } else {
      assert (ItemText(v) + a)[0] == CanonicalText(v)[0];
    }
    if w == Undefined {
      assert ItemText(w) + b == b;
    } else {
      assert (ItemText(w) + b)[0] == CanonicalText(w)[0];
    }
  }

  function AfterMember(entries: seq<Entry>, keys: seq<Text>, a: Text): Text
    requires keys != [] && forall k :: k in keys ==> k in Keys(entries)
  {
    if |keys| == 1 then [125] + a else [44] + (Members(entries, keys[1..]) + ([125] + a))
  }

  lemma SplitMembers(entries: seq<Entry>, keys: seq<Text>, a: Text)
    requires keys != [] && forall k :: k in keys ==> k in Keys(entries)
    ensures var after := AfterMember(entries, keys, a);
      && Members(entries, keys) + ([125] + a)
        == Quote(keys[0]) + ([58] + (CanonicalText(entries[IndexOf(entries, keys[0])].value) + after))
      && Stops(after) && after != [] && (after[0] == 125 <==> |keys| == 1)
      && (Members(entries, keys) + ([125] + a))[0] == 34
  {
    var q, v := Quote(keys[0]), CanonicalText(entries[IndexOf(entries, keys[0])].value);
    var rest := if |keys| == 1 then [] else Members(entries, keys[1..]);
    MembersText(entries, keys, q, v);
    assert q != [] && q[0] == 34;
    hide Quote, MemberText, Members, CanonicalText, IndexOf, Keys;
    SplitText(q, v, rest, a, |keys| == 1);
  }

  lemma MembersText(entries: seq<Entry>, keys: seq<Text>, q: Text, v: Text)
    requires keys != [] && forall k :: k in keys ==> k in Keys(entries)
    requires q == Quote(keys[0]) && v == CanonicalText(entries[IndexOf(entries, keys[0])].value)
    ensures Members(entries, keys) == if |keys| == 1 then q + [58] + v else q + [58] + v + [44] + Members(entries, keys[1..])
  {
    hide Quote, CanonicalText, IndexOf, Keys;
  }

  lemma SplitText(q: Text, v: Text, rest: Text, a: Text, one: bool)
    requires q != []
    ensures var members := if one then q + [58] + v else q + [58] + v + [44] + rest;
      var after := if one then [125] + a else [44] + (rest + ([125] + a));
      && members + ([125] + a) == q + ([58] + (v + after)) && (members + ([125] + a))[0] == q[0]
  {
    var end := [125] + a;
    if one {
      Regroup(q, v, end);
    } else {
      var after := [44] + (rest + end);
      Regroup(q, v, after);
      assert (q + [58] + v + [44] + rest) + end == (q + [58] + v) + after;
    }
  }

  lemma Regroup(q: Text, v: Text, after: Text)
    ensures (q + [58] + v) + after == q + ([58] + (v + after))
  {
  }

  /** The first members of two equal texts agree, and so does what follows them. */
  lemma HeadMember(es: seq<Entry>, ks: seq<Text>, after: Text, fs: seq<Entry>, ls: seq<Text>, other: Text)
    requires ks != [] && ls != [] && ks[0] in Keys(es) && ls[0] in Keys(fs) && Stops(after) && Stops(other)
    requires forall i :: 0 <= i < |es| ==> WellFormed(es[i].value) && NoLoneUndefined(es[i].value)
    requires forall i :: 0 <= i < |fs| ==> WellFormed(fs[i].value) && NoLoneUndefined(fs[i].value)
    requires Quote(ks[0]) + ([58] + (CanonicalText(es[IndexOf(es, ks[0])].value) + after))
      == Quote(ls[0]) + ([58] + (CanonicalText(fs[IndexOf(fs, ls[0])].value) + other))
    ensures ks[0] == ls[0] && after == other && Same(es[IndexOf(es, ks[0])].value, fs[IndexOf(fs, ls[0])].value)
    decreases es, 0
  {
    hide Same, CanonicalText, Quote, IndexOf, WellFormed, NoLoneUndefined;
    var v, w := es[IndexOf(es, ks[0])].value, fs[IndexOf(fs, ls[0])].value;
    QuoteUnambiguous(ks[0], [58] + (CanonicalText(v) + after), ls[0], [58] + (CanonicalText(w) + other));
    assert CanonicalText(v) + after == ([58] + (CanonicalText(v) + after))[1..];
    assert CanonicalText(w) + other == ([58] + (CanonicalText(w) + other))[1..];
    TextDetermines(v, after, w, other);
  }

  /** An object's text after its brace starts with a quote, or closes at once. */
  lemma FirstUnitOfMembers(entries: seq<Entry>, keys: seq<Text>, a: Text)
    requires forall k :: k in keys ==> k in Keys(entries)
    ensures (Members(entries, keys) + ([125] + a))[0] == if keys == [] then 125 else 34
    ensures keys == [] ==> (Members(entries, keys) + ([125] + a))[1..] == a
  {
    if keys != [] {
      SplitMembers(entries, keys, a);
    }
  }

  lemma {:induction false} MembersDetermine(es: seq<Entry>, ks: seq<Text>, a: Text, fs: seq<Entry>, ls: seq<Text>, b: Text)
    requires forall k :: k in ks ==> k in Keys(es)
    requires forall l :: l in ls ==> l in Keys(fs)
    requires forall i :: 0 <= i < |es| ==> WellFormed(es[i].value) && NoLoneUndefined(es[i].value)
    requires forall i :: 0 <= i < |fs| ==> WellFormed(fs[i].value) && NoLoneUndefined(fs[i].value)
    requires Members(es, ks) + ([125] + a) == Members(fs, ls) + ([125] + b)
    ensures ks == ls && a == b
    ensures forall k :: k in ks ==> Same(es[IndexOf(es, k)].value, fs[IndexOf(fs, k)].value)
    decreases es, |ks|
  {
    hide Same, CanonicalText, Quote, IndexOf, MemberText, WellFormed, NoLoneUndefined;
    if ks == [] || ls == [] {
      FirstUnitOfMembers(es, ks, a);
      FirstUnitOfMembers(fs, ls, b);
    } else {
      var after, other := AfterMember(es, ks, a), AfterMember(fs, ls, b);
      SplitMembers(es, ks, a);
      SplitMembers(fs, ls, b);
      HeadMember(es, ks, after, fs, ls, other);
      if |ks| == 1 {
        assert a == after[1..] == other[1..] == b;
      } else {
        assert Members(es, ks[1..]) + ([125] + a) == after[1..] == other[1..] == Members(fs, ls[1..]) + ([125] + b);
        MembersDetermine(es, ks[1..], a, fs, ls[1..], b);
        assert ks == [ks[0]] + ks[1..] && ls == [ls[0]] + ls[1..];
      }
    }
  }

  // ----- key order does not matter -----

  lemma {:induction false} SameText(v: Json, w: Json)
    requires WellFormed(v) && WellFormed(w) && Same(v, w)
    ensures CanonicalText(v) == CanonicalText(w)
    decreases v, 1
  {
    match v {
      case Array(xs) => SameItems(xs, w.items);
      case Object(es) =>
        SortKeysSorted(Keys(es));
        SortKeysSorted(Keys(w.entries));
        IncreasingUnique(SortKeys(Keys(es)), SortKeys(Keys(w.entries)));
        SameMembers(es, w.entries, SortKeys(Keys(es)));
      case _ =>
    }
  }

  lemma {:induction false} SameItems(xs: seq<Json>, ys: seq<Json>)
    requires |xs| == |ys| && forall i :: 0 <= i < |xs| ==> WellFormed(xs[i]) && WellFormed(ys[i]) && Same(xs[i], ys[i])
    ensures Items(xs) == Items(ys)
    decreases xs, 0
  {
    if xs != [] {
      SameText(xs[0], ys[0]);
      SameItems(xs[1..], ys[1..]);
    }
  }

  lemma {:induction false} SameMembers(es: seq<Entry>, fs: seq<Entry>, keys: seq<Text>)
    requires WellFormed(Object(es)) && WellFormed(Object(fs)) && Same(Object(es), Object(fs))
    requires forall k :: k in keys ==> k in Keys(es)
    ensures Members(es, keys) == Members(fs, keys)
    decreases es, |keys|
  {
    if keys != [] {
      var i := IndexOf(es, keys[0]);
      SameText(es[i].value, fs[IndexOf(fs, es[i].key)].value);
      SameMembers(es, fs, keys[1..]);
    }
  }

  /** Two values have equal canonical text exactly when they are equal with objects read as maps. */
  lemma CanonicalTextUnambiguous(v: Json, w: Json)
    requires WellFormed(v) && WellFormed(w) && NoLoneUndefined(v) && NoLoneUndefined(w)
    ensures CanonicalText(v) == CanonicalText(w) <==> Same(v, w)
  {
    if CanonicalText(v) == CanonicalText(w) {
      assert CanonicalText(v) + [] == CanonicalText(w) + [];
      TextDetermines(v, [], w, []);
    }
    if Same(v, w) {
      SameText(v, w);
    }
  }

  // ----- what the excluded arrays collide with -----

  /** Every array of one undefined item replaced by the empty array. */
  function Collapse(v: Json): Json {
    match v
    case Array(items) =>
      if items == [Undefined] then Array([]) else Array(seq(|items|, i requires 0 <= i < |items| => Collapse(items[i])))
    case Object(entries) =>
      Object(seq(|entries|, i requires 0 <= i < |entries| => Entry(entries[i].key, Collapse(entries[i].value))))
    case _ => v
  }

  lemma {:induction false} CollapseKeepsText(v: Json)
    requires WellFormed(v)
    ensures CanonicalText(Collapse(v)) == CanonicalText(v)
    ensures WellFormed(Collapse(v)) && NoLoneUndefined(Collapse(v)) && (Collapse(v) == Undefined <==> v == Undefined)
    decreases v, 1
  {
    match v {
      case Array(items) =>
        if items != [Undefined] {
          CollapseArray(v);
        } else {
          CollidingArrays();
        }
      case Object(_) => CollapseObject(v);
      case _ =>
    }
  }

  lemma CollidingArrays()
    ensures CanonicalText(Array([Undefined])) == CanonicalText(Array([])) && NoLoneUndefined(Array([])) && WellFormed(Array([]))
  {
    assert |[Undefined]| != 0;
  }

  lemma {:induction false} CollapseArray(v: Json)
    requires v.Array? && WellFormed(v) && v.items != [Undefined]
    ensures var w := Collapse(v); CanonicalText(w) == CanonicalText(v) && WellFormed(w) && NoLoneUndefined(w)
    decreases v, 0
  {
    hide CanonicalText, Items;
    var items := v.items;
    var collapsed := seq(|items|, i requires 0 <= i < |items| => Collapse(items[i]));
    assert Collapse(v) == Array(collapsed);
    CollapseItems(items, collapsed);
    ArrayText(items);
    ArrayText(collapsed);
    forall i | 0 <= i < |items| ensures WellFormed(collapsed[i]) && NoLoneUndefined(collapsed[i]) && (collapsed[i] == Undefined <==> items[i] == Undefined) {
      CollapseKeepsText(items[i]);
    }
    if |items| == 1 {
      assert items == [items[0]] && collapsed[0] != Undefined;
    }
  }

  lemma ArrayText(items: seq<Json>)
    ensures CanonicalText(Array(items)) == [91] + Items(items) + [93]
  {
  }

  lemma {:induction false} CollapseObject(v: Json)
    requires v.Object? && WellFormed(v)
    ensures var w := Collapse(v); CanonicalText(w) == CanonicalText(v) && WellFormed(w) && NoLoneUndefined(w)
    decreases v, 0
  {
    hide CanonicalText, Members, Keys, SortKeys;
    var entries, collapsed := v.entries, Collapse(v).entries;
    SameKeys(entries, collapsed);
    CollapseMembers(entries, collapsed, SortKeys(Keys(entries)));
    ObjectText(entries);
    ObjectText(collapsed);
    forall i | 0 <= i < |entries| ensures WellFormed(collapsed[i].value) && NoLoneUndefined(collapsed[i].value) {
      CollapseKeepsText(entries[i].value);
    }
  }

  lemma SameKeys(entries: seq<Entry>, others: seq<Entry>)
    requires |entries| == |others| && forall i :: 0 <= i < |entries| ==> entries[i].key == others[i].key
    ensures Keys(entries) == Keys(others)
  {
  }

  lemma ObjectText(entries: seq<Entry>)
    ensures CanonicalText(Object(entries)) == [123] + Members(entries, SortKeys(Keys(entries))) + [125]
  {
  }

  lemma {:induction false} CollapseItems(items: seq<Json>, collapsed: seq<Json>)
    requires |items| == |collapsed| && forall i :: 0 <= i < |items| ==> WellFormed(items[i]) && collapsed[i] == Collapse(items[i])
    ensures Items(collapsed) == Items(items)
    decreases items, 0
  {
    if items != [] {
      CollapseKeepsText(items[0]);
      CollapseItems(items[1..], collapsed[1..]);
    }
  }

  lemma {:induction false} CollapseMembers(entries: seq<Entry>, collapsed: seq<Entry>, keys: seq<Text>)
    requires WellFormed(Object(entries)) && |entries| == |collapsed| && Keys(collapsed) == Keys(entries)
    requires forall i :: 0 <= i < |entries| ==> collapsed[i].value == Collapse(entries[i].value)
    requires forall k :: k in keys ==> k in Keys(entries)
    ensures Members(collapsed, keys) == Members(entries, keys)
    decreases entries, |keys|
  {
    if keys != [] {
      var i := IndexOf(entries, keys[0]);
      DistinctIndex(entries, i);
      DistinctIndex(collapsed, i);
      CollapseKeepsText(entries[i].value);
      CollapseMembers(entries, collapsed, keys[1..]);
    }
  }

  /**
   Over all values, undefined items included: equal texts mean equal values up to
   reading `[undefined]` as `[]`. The two arrays do collide.
   */
  lemma CanonicalTextExactly(v: Json, w: Json)
    requires WellFormed(v) && WellFormed(w)
    ensures CanonicalText(v) == CanonicalText(w) <==> Same(Collapse(v), Collapse(w))
    ensures CanonicalText(Array([Undefined])) == CanonicalText(Array([])) && !Same(Array([Undefined]), Array([]))
  {
    CollapseKeepsText(v);
    CollapseKeepsText(w);
    CanonicalTextUnambiguous(Collapse(v), Collapse(w));
  }
}

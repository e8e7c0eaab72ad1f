/**
 The fingerprint of a checkout: object keys are sorted at every depth before the value is
 written out and hashed, so that storage may reorder keys without changing it.
 */
module Fingerprint {

  datatype Json =
    | Null
    | Bool(bit: bool)
    | Num(text: string)
    | Str(str: string)
    | Arr(items: Items)
    | Obj(fields: Fields)

  datatype Items = Nil | Cons(head: Json, tail: Items)

  datatype Fields = End | Field(key: string, value: Json, rest: Fields)

  // ----- keys -----

  /** Keys are compared character by character. */
  predicate Less(a: string, b: string) {
    if b == [] then false
    else if a == [] then true
    else a[0] < b[0] || (a[0] == b[0] && Less(a[1..], b[1..]))
  }

  lemma {:induction false} LessIsTotal(a: string, b: string)
    ensures a == b || Less(a, b) || Less(b, a)
    ensures !(Less(a, b) && Less(b, a))
    ensures !Less(a, a)
  {
    if a != [] {
      LessIsTotal(a[1..], a[1..]);
      if b != [] {
        LessIsTotal(a[1..], b[1..]);
        if a[0] == b[0] && a[1..] == b[1..] {
          assert a == [a[0]] + a[1..] && b == [b[0]] + b[1..];
        }
      }
    }
  }

  lemma {:induction false} LessIsTransitive(a: string, b: string, c: string)
    requires Less(a, b) && Less(b, c)
    ensures Less(a, c)
  {
    if a != [] && a[0] == b[0] == c[0] {
      LessIsTransitive(a[1..], b[1..], c[1..]);
    }
  }

  function Keys(f: Fields): set<string> {
    match f
    case End => {}
    case Field(k, _, rest) => {k} + Keys(rest)
  }

  function Get(f: Fields, key: string): Json
    requires key in Keys(f)
  {
    if f.key == key then f.value else Get(f.rest, key)
  }

  /** No object has a key twice, and numbers are written with number characters. */
  predicate WellFormed(j: Json) {
    match j
    case Num(t) => NumberText(t)
    case Arr(items) => WellFormedItems(items)
    case Obj(fields) => WellFormedFields(fields)
    case _ => true
  }

  predicate WellFormedItems(i: Items) {
    i.Cons? ==> WellFormed(i.head) && WellFormedItems(i.tail)
  }

  predicate WellFormedFields(f: Fields) {
    f.Field? ==> f.key !in Keys(f.rest) && WellFormed(f.value) && WellFormedFields(f.rest)
  }

  const NUMBER_CHARS: set<char> := {'0', '1', '2', '3', '4', '5', '6', '7', '8', '9', '-', '+', '.', 'e', 'E'}

  predicate NumberText(t: string) {
    && t != []
    && t[0] in NUMBER_CHARS && t[0] != 'e' && t[0] != 'E'
    && (forall i :: 0 <= i < |t| ==> t[i] in NUMBER_CHARS)
  }

  // ----- canonical form -----

  function Insert(key: string, value: Json, f: Fields): Fields {
    match f
    case End => Field(key, value, End)
    case Field(k, v, rest) =>
      if Less(key, k) then Field(key, value, f) else Field(k, v, Insert(key, value, rest))
  }

  /** Sorting looks only at the keys, so the values may be brought to canonical form first. */
  function Sort(f: Fields): Fields {
    match f
    case End => End
    case Field(k, v, rest) => Insert(k, v, Sort(rest))
  }

  function Canonical(j: Json): Json {
    match j
    case Arr(items) => Arr(CanonicalItems(items))
    case Obj(fields) => Obj(Sort(CanonicalFields(fields)))
    case _ => j
  }

  function CanonicalItems(i: Items): Items {
    match i
    case Nil => Nil
    case Cons(head, tail) => Cons(Canonical(head), CanonicalItems(tail))
  }

  function CanonicalFields(f: Fields): Fields {
    match f
    case End => End
    case Field(k, v, rest) => Field(k, Canonical(v), CanonicalFields(rest))
  }

  // ----- equality up to key order -----

  /** The two values differ in nothing but the order of object keys, at any depth. */
  predicate Equivalent(a: Json, b: Json)
    decreases a
  {
    match a
    case Arr(items) => b.Arr? && EquivalentItems(items, b.items)
    case Obj(fields) => b.Obj? && Keys(fields) == Keys(b.fields) && EquivalentFields(fields, b.fields)
    case _ => a == b
  }

  predicate EquivalentItems(a: Items, b: Items)
    decreases a
  {
    match a
    case Nil => b.Nil?
    case Cons(head, tail) => b.Cons? && Equivalent(head, b.head) && EquivalentItems(tail, b.tail)
  }

  predicate EquivalentFields(a: Fields, b: Fields)
    requires Keys(a) <= Keys(b)
    decreases a
  {
    match a
    case End => true
    case Field(k, v, rest) => Equivalent(v, Get(b, k)) && EquivalentFields(rest, b)
  }

  // ----- sorting -----

  predicate Sorted(f: Fields) {
    f.Field? ==> (f.rest.Field? ==> Less(f.key, f.rest.key)) && Sorted(f.rest)
  }

  lemma {:induction false} SortedHead(f: Fields, key: string)
    requires Sorted(f) && f.Field? && key in Keys(f.rest)
    ensures Less(f.key, key)
  {
    if f.rest.key != key {
      SortedHead(f.rest, key);
      LessIsTransitive(f.key, f.rest.key, key);
    }
  }

  lemma {:induction false} InsertSorts(key: string, value: Json, f: Fields)
    requires Sorted(f) && key !in Keys(f)
    ensures Sorted(Insert(key, value, f))
    ensures Keys(Insert(key, value, f)) == {key} + Keys(f)
    ensures forall k :: k in Keys(f) ==> Get(Insert(key, value, f), k) == Get(f, k)
    ensures Get(Insert(key, value, f), key) == value
  {
    if f.Field? {
      LessIsTotal(key, f.key);
      if !Less(key, f.key) {
        InsertSorts(key, value, f.rest);
      }
    }
  }

  lemma {:induction false} SortSorts(f: Fields)
    requires DistinctKeys(f)
    ensures Sorted(Sort(f)) && Keys(Sort(f)) == Keys(f)
    ensures forall k :: k in Keys(f) ==> Get(Sort(f), k) == Get(f, k)
  {
    if f.Field? {
      SortSorts(f.rest);
      InsertSorts(f.key, f.value, Sort(f.rest));
    }
  }

  predicate DistinctKeys(f: Fields) {
    f.Field? ==> f.key !in Keys(f.rest) && DistinctKeys(f.rest)
  }

  /** Sorted objects with the same keys and the same values are the same object. */
  lemma {:induction false} SortedIsUnique(a: Fields, b: Fields)
    requires Sorted(a) && Sorted(b) && Keys(a) == Keys(b)
    requires forall k :: k in Keys(a) ==> Get(a, k) == Get(b, k)
    ensures a == b
  {
    if a.Field? {
      assert a.key in Keys(b);
      SameLeastKey(a, b);
      assert a.key !in Keys(a.rest) by {
        if a.key in Keys(a.rest) { SortedHead(a, a.key); LessIsTotal(a.key, a.key); }
      }
      assert b.key !in Keys(b.rest) by {
        if b.key in Keys(b.rest) { SortedHead(b, b.key); LessIsTotal(b.key, b.key); }
      }
      assert Keys(a.rest) == Keys(a) - {a.key} == Keys(b.rest);
      forall k | k in Keys(a.rest) ensures Get(a.rest, k) == Get(b.rest, k) {
        assert Get(a, k) == Get(b, k);
      }
      assert Get(a, a.key) == Get(b, a.key);
      SortedIsUnique(a.rest, b.rest);
    } else {
      NoKeysNoFields(b);
    }
  }

  lemma NoKeysNoFields(f: Fields)
    ensures Keys(f) == {} ==> f.End?
  {
    if f.Field? {
      assert f.key in Keys(f);
    }
  }

  lemma SameLeastKey(a: Fields, b: Fields)
    requires Sorted(a) && Sorted(b) && a.Field? && b.Field? && Keys(a) == Keys(b)
    ensures a.key == b.key
  {
    assert a.key in Keys(b) && b.key in Keys(a);
    LessIsTotal(a.key, b.key);
    if a.key != b.key {
      SortedHead(b, a.key);
      SortedHead(a, b.key);
    }
  }

  lemma {:induction false} CanonicalFieldsKeepKeys(f: Fields)
    ensures Keys(CanonicalFields(f)) == Keys(f)
    ensures DistinctKeys(f) ==> DistinctKeys(CanonicalFields(f))
    ensures forall k :: k in Keys(f) ==> Get(CanonicalFields(f), k) == Canonical(Get(f, k))
  {
    if f.Field? {
      CanonicalFieldsKeepKeys(f.rest);
    }
  }

  lemma {:induction false} WellFormedAreDistinct(f: Fields)
    requires WellFormedFields(f)
    ensures DistinctKeys(f)
    ensures forall k :: k in Keys(f) ==> WellFormed(Get(f, k))
  {
    if f.Field? {
      WellFormedAreDistinct(f.rest);
    }
  }

  /** What the canonical fields of an object are, read back by key. */
  lemma CanonicalObject(f: Fields)
    requires WellFormedFields(f)
    ensures var c := Sort(CanonicalFields(f));
            && Sorted(c) && Keys(c) == Keys(f)
            && (forall k :: k in Keys(f) ==> Get(c, k) == Canonical(Get(f, k)))
  {
    WellFormedAreDistinct(f);
    CanonicalFieldsKeepKeys(f);
    SortSorts(CanonicalFields(f));
  }

  // ----- the canonical form decides equality up to key order -----

  lemma {:induction false} CanonicalDecides(a: Json, b: Json)
    requires WellFormed(a) && WellFormed(b)
    ensures Canonical(a) == Canonical(b) <==> Equivalent(a, b)
    decreases a
  {
    match a
    case Arr(items) =>
      if b.Arr? {
        CanonicalItemsDecide(items, b.items);
      }
    case Obj(fields) =>
      if b.Obj? {
        ObjectsDecide(fields, b.fields);
      }
    case _ =>
  }

  lemma {:induction false} CanonicalItemsDecide(a: Items, b: Items)
    requires WellFormedItems(a) && WellFormedItems(b)
    ensures CanonicalItems(a) == CanonicalItems(b) <==> EquivalentItems(a, b)
    decreases a
  {
    if a.Cons? && b.Cons? {
      CanonicalDecides(a.head, b.head);
      CanonicalItemsDecide(a.tail, b.tail);
    }
  }

  lemma {:induction false} ObjectsDecide(a: Fields, b: Fields)
    requires WellFormedFields(a) && WellFormedFields(b)
    ensures Sort(CanonicalFields(a)) == Sort(CanonicalFields(b))
       <==> Keys(a) == Keys(b) && EquivalentFields(a, b)
    decreases a, 1
  {
    CanonicalObject(a);
    CanonicalObject(b);
    if Keys(a) == Keys(b) {
      FieldsDecide(a, b);
      var c, d := Sort(CanonicalFields(a)), Sort(CanonicalFields(b));
      if c == d {
        forall k | k in Keys(a) ensures Canonical(Get(a, k)) == Canonical(Get(b, k)) {
          assert Get(c, k) == Get(d, k);
        }
      }
      if EquivalentFields(a, b) {
        forall k | k in Keys(c) ensures Get(c, k) == Get(d, k) {
          assert Canonical(Get(a, k)) == Canonical(Get(b, k));
        }
        SortedIsUnique(c, d);
      }
    }
  }

  lemma {:induction false} FieldsDecide(a: Fields, b: Fields)
    requires WellFormedFields(a) && WellFormedFields(b) && Keys(a) <= Keys(b)
    ensures EquivalentFields(a, b)
       <==> forall k :: k in Keys(a) ==> Canonical(Get(a, k)) == Canonical(Get(b, k))
    decreases a, 0
  {
    if a.Field? {
      WellFormedAreDistinct(b);
      CanonicalDecides(a.value, Get(b, a.key));
      FieldsDecide(a.rest, b);
      assert Get(a, a.key) == a.value;
      assert forall k :: k in Keys(a.rest) ==> Get(a, k) == Get(a.rest, k);
      assert Keys(a) == {a.key} + Keys(a.rest);
    }
  }

  // ----- writing a value out -----

  function HexDigit(i: int): char
    requires 0 <= i < 16
  {
    (if i < 10 then '0' as int + i else 'a' as int + i - 10) as char
  }

  /** How one character is written inside a string literal. */
  function Escape(c: char): string {
    if c == '\"' then "\\\""
    else if c == '\\' then "\\\\"
    else if c as int == 8 then "\\b"
    else if c as int == 9 then "\\t"
    else if c as int == 10 then "\\n"
    else if c as int == 12 then "\\f"
    else if c as int == 13 then "\\r"
    else if c as int < 32 then "\\u00" + [HexDigit(c as int / 16), HexDigit(c as int % 16)]
    else [c]
  }

  /** The escaped characters and the closing quote. */
  function Closed(s: string): string {
    if s == [] then "\"" else Escape(s[0]) + Closed(s[1..])
  }

  function Text(j: Json): string {
    match j
    case Null => "null"
    case Bool(bit) => if bit then "true" else "false"
    case Num(t) => t
    case Str(s) => "\"" + Closed(s)
    case Arr(items) => "[" + FirstItem(items)
    case Obj(fields) => "{" + FirstField(fields)
  }

  function FirstItem(i: Items): string {
    match i
    case Nil => "]"
    case Cons(head, tail) => Text(head) + MoreItems(tail)
  }

  function MoreItems(i: Items): string {
    match i
    case Nil => "]"
    case Cons(head, tail) => "," + (Text(head) + MoreItems(tail))
  }

  function FirstField(f: Fields): string {
    match f
    case End => "}"
    case Field(k, v, rest) => "\"" + (Closed(k) + (":" + (Text(v) + MoreFields(rest))))
  }

  function MoreFields(f: Fields): string {
    match f
    case End => "}"
    case Field(k, v, rest) => ",\"" + (Closed(k) + (":" + (Text(v) + MoreFields(rest))))
  }

  // ----- the text can be read back in only one way -----

  lemma SplitEqual(p: string, q: string, x: string, y: string)
    requires p + x == q + y && |p| == |q|
    ensures p == q && x == y
  {
    assert p == (p + x)[..|p|] && q == (q + y)[..|q|];
    assert x == (p + x)[|p|..] && y == (q + y)[|q|..];
  }

  predicate Plain(c: char) {
    c as int >= 32 && c != '\"' && c != '\\'
  }

  lemma EscapeShape(c: char)
    ensures Plain(c) ==> Escape(c) == [c]
    ensures !Plain(c) ==> |Escape(c)| >= 2 && Escape(c)[0] == '\\'
    ensures Escape(c)[0] != '\"'
  {
  }

  lemma EscapeSecond(c: char, d: char)
    requires !Plain(c) && !Plain(d) && Escape(c)[1] == Escape(d)[1]
    ensures |Escape(c)| == |Escape(d)|
    ensures Escape(c) == Escape(d) ==> c == d
  {
    var i, j := c as int, d as int;
    if Escape(c) == Escape(d) && |Escape(c)| == 6 {
      assert HexDigit(i / 16) == Escape(c)[4] == HexDigit(j / 16);
      assert HexDigit(i % 16) == Escape(c)[5] == HexDigit(j % 16);
      assert i == 16 * (i / 16) + i % 16 && j == 16 * (j / 16) + j % 16;
    }
  }

  lemma {:induction false} EscapeReads(c: char, d: char, x: string, y: string)
    requires Escape(c) + x == Escape(d) + y
    ensures c == d && x == y
  {
    EscapeShape(c);
    EscapeShape(d);
    assert (Escape(c) + x)[0] == Escape(c)[0] && (Escape(d) + y)[0] == Escape(d)[0];
    if !Plain(c) && !Plain(d) {
      assert (Escape(c) + x)[1] == Escape(c)[1] && (Escape(d) + y)[1] == Escape(d)[1];
      EscapeSecond(c, d);
    }
    SplitEqual(Escape(c), Escape(d), x, y);
  }

  lemma {:induction false} ClosedReads(s: string, t: string, x: string, y: string)
    requires Closed(s) + x == Closed(t) + y
    ensures s == t && x == y
  {
    ClosedHead(s, x);
    ClosedHead(t, y);
    if s != [] && t != [] {
      EscapeReads(s[0], t[0], Closed(s[1..]) + x, Closed(t[1..]) + y);
      ClosedReads(s[1..], t[1..], x, y);
      assert s == [s[0]] + s[1..] && t == [t[0]] + t[1..];
    } else if s == [] && t == [] {
      SplitEqual("\"", "\"", x, y);
    }
  }

  lemma ClosedHead(s: string, x: string)
    ensures |Closed(s)| > 0
    ensures s == [] <==> (Closed(s) + x)[0] == '\"'
    ensures s != [] ==> Closed(s) + x == Escape(s[0]) + (Closed(s[1..]) + x)
  {
    if s != [] {
      EscapeShape(s[0]);
      var e, rest := Escape(s[0]), Closed(s[1..]);
      Associates(e, rest, x);
      assert (e + (rest + x))[0] == e[0];
    }
  }

  lemma Associates(p: string, q: string, r: string)
    ensures (p + q) + r == p + (q + r)
  {
  }

  /** What may follow a value inside a text: nothing, a comma or a closing bracket. */
  predicate Ends(x: string) {
    x == [] || x[0] == ',' || x[0] == ']' || x[0] == '}'
  }

  lemma NumberStops(t: string, u: string, x: string, y: string)
    requires NumberText(t) && NumberText(u) && Ends(x) && t + x == u + y
    ensures |u| <= |t|
  {
    if |t| < |u| {
      NextCharacter(t, u, x, y);
    }
  }

  lemma NextCharacter(t: string, u: string, x: string, y: string)
    requires t + x == u + y && |t| < |u|
    ensures x != [] && x[0] == u[|t|]
  {
    assert (t + x)[|t|] == (u + y)[|t|];
  }

  /** The first character tells the kind of a value. */
  function Sign(j: Json): char
    requires WellFormed(j)
  {
    match j
    case Null => 'n'
    case Bool(bit) => if bit then 't' else 'f'
    case Num(t) => t[0]
    case Str(_) => '\"'
    case Arr(_) => '['
    case Obj(_) => '{'
  }

  lemma TextSign(j: Json)
    requires WellFormed(j)
    ensures |Text(j)| > 0 && Text(j)[0] == Sign(j)
    ensures !Ends(Text(j))
  {
  }

  lemma {:induction false} TextReads(a: Json, b: Json, x: string, y: string)
    requires WellFormed(a) && WellFormed(b) && Ends(x) && Ends(y)
    requires Text(a) + x == Text(b) + y
    ensures a == b && x == y
    decreases a
  {
    TextSign(a);
    TextSign(b);
    assert (Text(a) + x)[0] == Sign(a) && (Text(b) + y)[0] == Sign(b);
    match a
    case Num(t) =>
      NumberStops(t, b.text, x, y);
      NumberStops(b.text, t, y, x);
      SplitEqual(t, b.text, x, y);
    case Str(s) =>
      Unwrap("\"", Closed(s), Closed(b.str), x, y);
      ClosedReads(s, b.str, x, y);
    case Arr(items) =>
      Unwrap("[", FirstItem(items), FirstItem(b.items), x, y);
      FirstItemReads(items, b.items, x, y);
    case Obj(fields) =>
      Unwrap("{", FirstField(fields), FirstField(b.fields), x, y);
      FirstFieldReads(fields, b.fields, x, y);
    case _ =>
      SplitEqual(Text(a), Text(b), x, y);
  }

  lemma Unwrap(p: string, s: string, t: string, x: string, y: string)
    requires (p + s) + x == (p + t) + y
    ensures s + x == t + y
  {
    assert (p + s) + x == p + (s + x) && (p + t) + y == p + (t + y);
    SplitEqual(p, p, s + x, t + y);
  }

  lemma {:induction false} FirstItemReads(a: Items, b: Items, x: string, y: string)
    requires WellFormedItems(a) && WellFormedItems(b)
    requires FirstItem(a) + x == FirstItem(b) + y
    ensures a == b && x == y
    decreases a, 1
  {
    ItemsHead(a, x);
    ItemsHead(b, y);
    assert a.Nil? <==> b.Nil?;
    if a.Nil? {
      SplitEqual("]", "]", x, y);
    } else {
      ItemReads(a, b, x, y);
    }
  }

  lemma ItemsHead(a: Items, x: string)
    requires WellFormedItems(a)
    ensures |FirstItem(a)| > 0 && (a.Nil? <==> (FirstItem(a) + x)[0] == ']')
  {
    if a.Cons? {
      TextSign(a.head);
    }
  }

  /** One item and those after it. */
  lemma {:induction false} ItemReads(a: Items, b: Items, x: string, y: string)
    requires WellFormedItems(a) && WellFormedItems(b) && a.Cons? && b.Cons?
    requires (Text(a.head) + MoreItems(a.tail)) + x == (Text(b.head) + MoreItems(b.tail)) + y
    ensures a == b && x == y
    decreases a, 0
  {
    var m, n := MoreItems(a.tail) + x, MoreItems(b.tail) + y;
    assert (Text(a.head) + MoreItems(a.tail)) + x == Text(a.head) + m;
    assert (Text(b.head) + MoreItems(b.tail)) + y == Text(b.head) + n;
    TextReads(a.head, b.head, m, n);
    if a.tail.Nil? && b.tail.Nil? {
      SplitEqual("]", "]", x, y);
    } else {
      assert m[0] == n[0];
      Unwrap(",", Text(a.tail.head) + MoreItems(a.tail.tail), Text(b.tail.head) + MoreItems(b.tail.tail), x, y);
      ItemReads(a.tail, b.tail, x, y);
    }
  }

  function FieldBody(f: Fields): string
    requires f.Field?
  {
    Closed(f.key) + (":" + (Text(f.value) + MoreFields(f.rest)))
  }

  lemma {:induction false} FirstFieldReads(a: Fields, b: Fields, x: string, y: string)
    requires WellFormedFields(a) && WellFormedFields(b)
    requires FirstField(a) + x == FirstField(b) + y
    ensures a == b && x == y
    decreases a, 1
  {
    assert (FirstField(a) + x)[0] == FirstField(a)[0] && (FirstField(b) + y)[0] == FirstField(b)[0];
    if a.End? {
      SplitEqual("}", "}", x, y);
    } else {
      Unwrap("\"", FieldBody(a), FieldBody(b), x, y);
      FieldReads(a, b, x, y);
    }
  }

  /** One field and those after it. */
  lemma {:induction false} FieldReads(a: Fields, b: Fields, x: string, y: string)
    requires WellFormedFields(a) && WellFormedFields(b) && a.Field? && b.Field?
    requires FieldBody(a) + x == FieldBody(b) + y
    ensures a == b && x == y
    decreases a, 0
  {
    var m, n := MoreFields(a.rest) + x, MoreFields(b.rest) + y;
    FieldBodyParts(a, x);
    FieldBodyParts(b, y);
    ClosedReads(a.key, b.key, ":" + (Text(a.value) + m), ":" + (Text(b.value) + n));
    SplitEqual(":", ":", Text(a.value) + m, Text(b.value) + n);
    MoreFieldsEnd(a.rest, x);
    MoreFieldsEnd(b.rest, y);
    TextReads(a.value, b.value, m, n);
    if a.rest.End? {
      SplitEqual("}", "}", x, y);
    } else {
      Unwrap(",\"", FieldBody(a.rest), FieldBody(b.rest), x, y);
      FieldReads(a.rest, b.rest, x, y);
    }
  }

  lemma FieldBodyParts(f: Fields, x: string)
    requires f.Field?
    ensures FieldBody(f) + x == Closed(f.key) + (":" + (Text(f.value) + (MoreFields(f.rest) + x)))
  {
  }

  lemma MoreFieldsEnd(f: Fields, x: string)
    ensures Ends(MoreFields(f) + x)
    ensures f.End? <==> (MoreFields(f) + x)[0] == '}'
  {
  }

  // ----- the fingerprint -----

  lemma {:induction false} CanonicalIsWellFormed(j: Json)
    requires WellFormed(j)
    ensures WellFormed(Canonical(j))
  {
    match j
    case Arr(items) => CanonicalItemsWellFormed(items);
    case Obj(fields) =>
      CanonicalFieldsWellFormed(fields);
      SortKeepsWellFormed(CanonicalFields(fields));
    case _ =>
  }

  lemma {:induction false} CanonicalItemsWellFormed(i: Items)
    requires WellFormedItems(i)
    ensures WellFormedItems(CanonicalItems(i))
  {
    if i.Cons? {
      CanonicalIsWellFormed(i.head);
      CanonicalItemsWellFormed(i.tail);
    }
  }

  lemma {:induction false} CanonicalFieldsWellFormed(f: Fields)
    requires WellFormedFields(f)
    ensures WellFormedFields(CanonicalFields(f))
  {
    CanonicalFieldsKeepKeys(f);
    if f.Field? {
      CanonicalFieldsKeepKeys(f.rest);
      CanonicalIsWellFormed(f.value);
      CanonicalFieldsWellFormed(f.rest);
    }
  }

  lemma {:induction false} SortKeepsWellFormed(f: Fields)
    requires WellFormedFields(f)
    ensures WellFormedFields(Sort(f)) && Keys(Sort(f)) == Keys(f)
  {
    if f.Field? {
      SortKeepsWellFormed(f.rest);
      InsertKeepsWellFormed(f.key, f.value, Sort(f.rest));
    }
  }

  lemma {:induction false} InsertKeepsWellFormed(key: string, value: Json, f: Fields)
    requires WellFormedFields(f) && WellFormed(value) && key !in Keys(f)
    ensures WellFormedFields(Insert(key, value, f)) && Keys(Insert(key, value, f)) == {key} + Keys(f)
  {
    if f.Field? && !Less(key, f.key) {
      InsertKeepsWellFormed(key, value, f.rest);
    }
  }

  function Print(hash: string -> string, j: Json): string {
    hash(Text(Canonical(j)))
  }

  ghost predicate Injective(hash: string -> string) {
    forall s, t :: hash(s) == hash(t) ==> s == t
  }

  /**
   Two values have the same fingerprint exactly when they differ only in the order of their
   keys, at any depth; `hash` stands for SHA-256, taken to be free of collisions.
   */
  lemma FingerprintDecides(hash: string -> string, a: Json, b: Json)
    requires Injective(hash) && WellFormed(a) && WellFormed(b)
    ensures Print(hash, a) == Print(hash, b) <==> Equivalent(a, b)
  {
    CanonicalDecides(a, b);
    CanonicalIsWellFormed(a);
    CanonicalIsWellFormed(b);
    var s, t := Text(Canonical(a)), Text(Canonical(b));
    if Print(hash, a) == Print(hash, b) {
      assert s + [] == t + [];
      TextReads(Canonical(a), Canonical(b), [], []);
    }
  }
}

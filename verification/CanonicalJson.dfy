// Canonical JSON lines: what `json.dumps(value, sort_keys=True, separators=(",", ":")) + "\n"`
// writes for the values the ledger holds. The publisher compares digests of concatenated
// lines, so everything it concludes rests on two facts proved here: a line contains no line
// break except its last character, and a concatenation of lines determines the values.

module CanonicalJson {

  /** A JSON value. Members of an object are kept in the (sorted) order they are written. */
  datatype Json =
    | Null
    | Bool(b: bool)
    | Num(n: int)
    | Str(s: string)
    | Arr(items: Items)
    | Obj(members: Members)

  datatype Items = NoItems | Item(head: Json, tail: Items)

  datatype Members = NoMembers | Member(key: string, value: Json, rest: Members)

  /** Characters that JSON writes as a two-character escape. */
  function EscapeChar(c: char): string
  {
    if c == '\"' then ['\\', '\"']
    else if c == '\\' then ['\\', '\\']
    else if c == '\n' then ['\\', 'n']
    else if c == '\r' then ['\\', 'r']
    else if c == '\t' then ['\\', 't']
    else [c]
  }

  function Escape(s: string): string
  {
    if s == [] then [] else EscapeChar(s[0]) + Escape(s[1..])
  }

  function Quote(s: string): string
  {
    ['\"'] + Escape(s) + ['\"']
  }

  function Digit(d: nat): char
    requires d < 10
  {
    ('0' as int + d) as char
  }

  function Decimal(n: nat): string
  {
    if n < 10 then [Digit(n)] else Decimal(n / 10) + [Digit(n % 10)]
  }

  function Number(n: int): string
  {
    if n < 0 then "-" + Decimal(-n) else Decimal(n)
  }

  function Render(v: Json): string
  {
    match v
    case Null => "null"
    case Bool(b) => if b then "true" else "false"
    case Num(n) => Number(n)
    case Str(s) => Quote(s)
    case Arr(items) => "[" + RenderItems(items, true)
    case Obj(members) => "{" + RenderMembers(members, true)
  }

  function RenderItems(items: Items, first: bool): string
  {
    match items
    case NoItems => "]"
    case Item(head, tail) => (if first then "" else ",") + Render(head) + RenderItems(tail, false)
  }

  function RenderMembers(members: Members, first: bool): string
  {
    match members
    case NoMembers => "}"
    case Member(key, value, rest) =>
      (if first then "" else ",") + Quote(key) + ":" + Render(value) + RenderMembers(rest, false)
  }

  /** One line of a JSON Lines file. */
  function Line(v: Json): string
  {
    Render(v) + "\n"
  }

  function Lines(vs: seq<Json>): string
  {
    if vs == [] then "" else Lines(vs[..|vs| - 1]) + Line(vs[|vs| - 1])
  }

  // ---------------------------------------------------------------- no line breaks inside

  predicate NoBreak(s: string)
  {
    forall i :: 0 <= i < |s| ==> s[i] != '\n' && s[i] != '\r'
  }

  lemma {:induction false} EscapeNoBreak(s: string)
    ensures NoBreak(Escape(s))
  {
    if s != [] {
      EscapeNoBreak(s[1..]);
    }
  }

  lemma {:induction false} DecimalDigits(n: nat)
    ensures |Decimal(n)| > 0
    ensures forall i :: 0 <= i < |Decimal(n)| ==> '0' <= Decimal(n)[i] <= '9'
  {
    if n >= 10 {
      DecimalDigits(n / 10);
    }
  }

  lemma {:induction false} RenderNoBreak(v: Json)
    ensures NoBreak(Render(v))
  {
    match v
    case Null =>
    case Bool(b) =>
    case Num(n) => DecimalDigits(if n < 0 then -n else n);
    case Str(s) => EscapeNoBreak(s);
    case Arr(items) => ItemsNoBreak(items, true);
    case Obj(members) => MembersNoBreak(members, true);
  }

  lemma {:induction false} ItemsNoBreak(items: Items, first: bool)
    ensures NoBreak(RenderItems(items, first))
  {
    match items
    case NoItems =>
    case Item(head, tail) =>
      RenderNoBreak(head);
      ItemsNoBreak(tail, false);
  }

  lemma {:induction false} MembersNoBreak(members: Members, first: bool)
    ensures NoBreak(RenderMembers(members, first))
  {
    match members
    case NoMembers =>
    case Member(key, value, rest) =>
      EscapeNoBreak(key);
      RenderNoBreak(value);
      MembersNoBreak(rest, false);
  }

  // ---------------------------------------------------------------- unique readability

  /** What may follow a rendered value inside a line. */
  predicate Stops(rest: string)
  {
    rest != [] && rest[0] in {',', ']', '}', '\n'}
  }

  lemma Cancel(p: string, q: string, x: string, y: string)
    requires |p| == |q| && p + x == q + y
    ensures p == q && x == y
  {
    assert p == (p + x)[..|p|] && q == (q + y)[..|q|];
    assert x == (p + x)[|p|..] && y == (q + y)[|q|..];
  }

  lemma Assoc(a: string, b: string, c: string)
    ensures (a + b) + c == a + (b + c)
  {
  }

  /** What an escaped string followed by its closing quote begins with. */
  lemma EscapeOpens(s: string, x: string)
    ensures var t := Escape(s) + (['\"'] + x);
            if s == [] then t == ['\"'] + x
            else t == EscapeChar(s[0]) + (Escape(s[1..]) + (['\"'] + x)) && t[0] != '\"'
  {
    if s != [] {
      Assoc(EscapeChar(s[0]), Escape(s[1..]), ['\"'] + x);
    }
  }

  lemma EscapeCharReadable(c: char, d: char, x: string, y: string)
    requires EscapeChar(c) + x == EscapeChar(d) + y
    ensures c == d && x == y
  {
    var l, r := EscapeChar(c) + x, EscapeChar(d) + y;
    assert l[0] == EscapeChar(c)[0] && r[0] == EscapeChar(d)[0];
    assert |EscapeChar(c)| == 2 ==> l[1] == EscapeChar(c)[1];
    assert |EscapeChar(d)| == 2 ==> r[1] == EscapeChar(d)[1];
    Cancel(EscapeChar(c), EscapeChar(d), x, y);
  }

  lemma {:induction false} EscapeReadable(a: string, b: string, x: string, y: string)
    requires Escape(a) + (['\"'] + x) == Escape(b) + (['\"'] + y)
    ensures a == b && x == y
  {
    EscapeOpens(a, x);
    EscapeOpens(b, y);
    if a == [] || b == [] {
      Cancel(['\"'], ['\"'], x, y);
    } else {
      var a', b' := Escape(a[1..]) + (['\"'] + x), Escape(b[1..]) + (['\"'] + y);
      EscapeCharReadable(a[0], b[0], a', b');
      EscapeReadable(a[1..], b[1..], x, y);
      assert a == [a[0]] + a[1..] && b == [b[0]] + b[1..];
    }
  }

  lemma QuoteReadable(a: string, b: string, x: string, y: string)
    requires Quote(a) + x == Quote(b) + y
    ensures a == b && x == y
  {
    var a', b' := Escape(a) + (['\"'] + x), Escape(b) + (['\"'] + y);
    assert Quote(a) + x == ['\"'] + a' && Quote(b) + y == ['\"'] + b';
    Cancel(['\"'], ['\"'], a', b');
    EscapeReadable(a, b, x, y);
  }

  /** The length of the leading run of digits. */
  function DigitsIn(s: string): (n: nat)
    ensures n <= |s|
  {
    if s != [] && '0' <= s[0] <= '9' then 1 + DigitsIn(s[1..]) else 0
  }

  lemma {:induction false} DigitsThenStop(d: string, rest: string)
    requires forall i :: 0 <= i < |d| ==> '0' <= d[i] <= '9'
    requires rest != [] && !('0' <= rest[0] <= '9')
    ensures DigitsIn(d + rest) == |d|
  {
    if d == [] {
      assert d + rest == rest;
    } else {
      assert (d + rest)[1..] == d[1..] + rest;
      DigitsThenStop(d[1..], rest);
    }
  }

  lemma {:induction false} DecimalInjective(m: nat, n: nat)
    requires Decimal(m) == Decimal(n)
    ensures m == n
  {
    DecimalDigits(m / 10);
    DecimalDigits(n / 10);
    if m < 10 && n < 10 {
      assert Decimal(m)[0] == Decimal(n)[0];
    } else if m >= 10 && n >= 10 {
      var k := |Decimal(m)| - 1;
      assert Decimal(m)[..k] == Decimal(m / 10) && Decimal(n)[..k] == Decimal(n / 10);
      assert Decimal(m)[k] == Digit(m % 10) && Decimal(n)[k] == Digit(n % 10);
      DecimalInjective(m / 10, n / 10);
    }
  }

  lemma DecimalReadable(m: nat, n: nat, x: string, y: string)
    requires Decimal(m) + x == Decimal(n) + y && Stops(x) && Stops(y)
    ensures m == n && x == y
  {
    DecimalDigits(m);
    DecimalDigits(n);
    DigitsThenStop(Decimal(m), x);
    DigitsThenStop(Decimal(n), y);
    var k := |Decimal(m)|;
    assert Decimal(m) == (Decimal(m) + x)[..k] && Decimal(n) == (Decimal(n) + y)[..k];
    assert x == (Decimal(m) + x)[k..] && y == (Decimal(n) + y)[k..];
    DecimalInjective(m, n);
  }

  lemma NumberOpens(n: int, x: string)
    ensures Number(n) + x != []
    ensures if n < 0 then Number(n) + x == "-" + (Decimal(-n) + x) else '0' <= (Number(n) + x)[0] <= '9'
  {
    if n < 0 {
      Assoc("-", Decimal(-n), x);
    } else {
      DecimalDigits(n);
    }
  }

  lemma NumberReadable(m: int, n: int, x: string, y: string)
    requires Number(m) + x == Number(n) + y && Stops(x) && Stops(y)
    ensures m == n && x == y
  {
    hide Decimal;
    NumberOpens(m, x);
    NumberOpens(n, y);
    if m < 0 {
      Cancel("-", "-", Decimal(-m) + x, Decimal(-n) + y);
      DecimalReadable(-m, -n, x, y);
    } else {
      DecimalReadable(m, n, x, y);
    }
  }

  /** The first character tells the kinds of value apart. */
  function Opening(v: Json): char
  {
    match v
    case Null => 'n'
    case Bool(b) => if b then 't' else 'f'
    case Num(n) => if n < 0 then '-' else '0'
    case Str(_) => '\"'
    case Arr(_) => '['
    case Obj(_) => '{'
  }

  lemma RenderOpens(v: Json)
    ensures Render(v) != []
    ensures if v.Num? && v.n >= 0 then '0' <= Render(v)[0] <= '9' else Render(v)[0] == Opening(v)
  {
    if v.Num? {
      DecimalDigits(if v.n < 0 then -v.n else v.n);
    }
  }

  lemma SameOpening(v: Json, w: Json, x: string, y: string)
    requires Render(v) + x == Render(w) + y
    ensures Opening(v) == Opening(w)
  {
    RenderOpens(v);
    RenderOpens(w);
    assert (Render(v) + x)[0] == Render(v)[0] && (Render(w) + y)[0] == Render(w)[0];
  }

  /** A rendered value followed by a stop is read back in one way only. */
  lemma {:induction false} RenderReadable(v: Json, w: Json, x: string, y: string)
    requires Render(v) + x == Render(w) + y && Stops(x) && Stops(y)
    ensures v == w && x == y
  {
    SameOpening(v, w, x, y);
    match v
    case Null =>
      Cancel(Render(v), Render(w), x, y);
    case Bool(b) =>
      Cancel(Render(v), Render(w), x, y);
    case Num(n) =>
      NumberReadable(n, w.n, x, y);
    case Str(s) =>
      QuoteReadable(s, w.s, x, y);
    case Arr(items) =>
      Assoc("[", RenderItems(items, true), x);
      Assoc("[", RenderItems(w.items, true), y);
      Cancel("[", "[", RenderItems(items, true) + x, RenderItems(w.items, true) + y);
      ItemsReadable(items, w.items, true, x, y);
    case Obj(members) =>
      Assoc("{", RenderMembers(members, true), x);
      Assoc("{", RenderMembers(w.members, true), y);
      Cancel("{", "{", RenderMembers(members, true) + x, RenderMembers(w.members, true) + y);
      MembersReadable(members, w.members, true, x, y);
  }

  function Comma(first: bool): string
  {
    if first then "" else ","
  }

  lemma ItemsOpen(items: Items, first: bool, x: string)
    ensures var t := RenderItems(items, first) + x;
            && t != [] && (items.NoItems? <==> t[0] == ']')
            && (!first ==> Stops(t))
            && (items.NoItems? ==> t == "]" + x)
            && (items.Item? ==> t == Comma(first) + (Render(items.head) + (RenderItems(items.tail, false) + x)))
  {
    if items.Item? {
      RenderOpens(items.head);
      var r := RenderItems(items.tail, false);
      Assoc(Comma(first) + Render(items.head), r, x);
      Assoc(Comma(first), Render(items.head), r + x);
    }
  }

  lemma {:induction false} ItemsReadable(a: Items, b: Items, first: bool, x: string, y: string)
    requires RenderItems(a, first) + x == RenderItems(b, first) + y && Stops(x) && Stops(y)
    ensures a == b && x == y
    decreases a
  {
    ItemsOpen(a, first, x);
    ItemsOpen(b, first, y);
    if a.NoItems? {
      Cancel("]", "]", x, y);
    } else {
      var x', y' := RenderItems(a.tail, false) + x, RenderItems(b.tail, false) + y;
      Cancel(Comma(first), Comma(first), Render(a.head) + x', Render(b.head) + y');
      ItemsOpen(a.tail, false, x);
      ItemsOpen(b.tail, false, y);
      RenderReadable(a.head, b.head, x', y');
      ItemsReadable(a.tail, b.tail, false, x, y);
    }
  }

  lemma MembersOpen(members: Members, first: bool, x: string)
    ensures var t := RenderMembers(members, first) + x;
            && t != [] && (members.NoMembers? <==> t[0] == '}')
            && (!first ==> Stops(t))
            && (members.NoMembers? ==> t == "}" + x)
            && (members.Member? ==>
                  t == Comma(first) + (Quote(members.key)
                     + (":" + (Render(members.value) + (RenderMembers(members.rest, false) + x)))))
  {
    if members.Member? {
      var q, v, r := Quote(members.key), Render(members.value), RenderMembers(members.rest, false);
      Assoc(Comma(first) + q + ":" + v, r, x);
      Assoc(Comma(first) + q + ":", v, r + x);
      Assoc(Comma(first) + q, ":", v + (r + x));
      Assoc(Comma(first), q, ":" + (v + (r + x)));
      assert RenderMembers(members, first) == Comma(first) + q + ":" + v + r;
    }
  }

  lemma {:induction false} MembersReadable(a: Members, b: Members, first: bool, x: string, y: string)
    requires RenderMembers(a, first) + x == RenderMembers(b, first) + y && Stops(x) && Stops(y)
    ensures a == b && x == y
    decreases a
  {
    MembersOpen(a, first, x);
    MembersOpen(b, first, y);
    if a.NoMembers? {
      Cancel("}", "}", x, y);
    } else {
      var x', y' := RenderMembers(a.rest, false) + x, RenderMembers(b.rest, false) + y;
      var x'', y'' := Render(a.value) + x', Render(b.value) + y';
      Cancel(Comma(first), Comma(first), Quote(a.key) + (":" + x''), Quote(b.key) + (":" + y''));
      QuoteReadable(a.key, b.key, ":" + x'', ":" + y'');
      Cancel(":", ":", x'', y'');
      MembersOpen(a.rest, false, x);
      MembersOpen(b.rest, false, y);
      RenderReadable(a.value, b.value, x', y');
      MembersReadable(a.rest, b.rest, false, x, y);
    }
  }

  // ---------------------------------------------------------------- files of lines

  /** `len(content.splitlines())` for content that ends with a line break: `\r\n` is one break. */
  function LineCount(s: string): nat
  {
    if s == [] then 0 else
    var last := |s| - 1;
    LineCount(s[..last]) +
    if s[last] == '\r' || (s[last] == '\n' && !(last > 0 && s[last - 1] == '\r')) then 1 else 0
  }

  lemma {:induction false} LineCountConcat(a: string, b: string)
    requires a != [] ==> a[|a| - 1] != '\r'
    ensures LineCount(a + b) == LineCount(a) + LineCount(b)
  {
    if b == [] {
      assert a + b == a;
    } else {
      assert (a + b)[..|a + b| - 1] == a + b[..|b| - 1];
      LineCountConcat(a, b[..|b| - 1]);
    }
  }

  lemma {:induction false} NoBreakCountsNothing(s: string)
    requires NoBreak(s)
    ensures LineCount(s) == 0
  {
    if s != [] {
      NoBreakCountsNothing(s[..|s| - 1]);
    }
  }

  /** A value is exactly one line, and lines never run into each other. */
  lemma {:induction false} LinesCount(vs: seq<Json>)
    ensures LineCount(Lines(vs)) == |vs|
    ensures vs != [] ==> Lines(vs) != [] && Lines(vs)[|Lines(vs)| - 1] == '\n'
  {
    if vs != [] {
      var v := vs[|vs| - 1];
      RenderNoBreak(v);
      NoBreakCountsNothing(Render(v));
      LineCountConcat(Render(v), "\n");
      LineCountConcat(Lines(vs[..|vs| - 1]), Line(v));
      LinesCount(vs[..|vs| - 1]);
    }
  }

  lemma {:induction false} LinesConcat(a: seq<Json>, b: seq<Json>)
    ensures Lines(a + b) == Lines(a) + Lines(b)
  {
    hide Render;
    if b == [] {
      assert a + b == a;
    } else {
      assert (a + b)[..|a + b| - 1] == a + b[..|b| - 1];
      LinesConcat(a, b[..|b| - 1]);
    }
  }

  lemma LinesCons(v: Json, vs: seq<Json>)
    ensures Lines([v] + vs) == Render(v) + ("\n" + Lines(vs))
  {
    LinesConcat([v], vs);
    assert [v][..0] == [] && Lines([v]) == Line(v);
  }

  /** A file of lines determines the values in it: equal digests mean equal histories. */
  lemma {:induction false} LinesInjective(a: seq<Json>, b: seq<Json>)
    requires Lines(a) == Lines(b)
    ensures a == b
  {
    hide Render;
    LinesCount(a);
    LinesCount(b);
    if a != [] {
      var a', b' := a[1..], b[1..];
      assert a == [a[0]] + a' && b == [b[0]] + b';
      LinesCons(a[0], a');
      LinesCons(b[0], b');
      var x, y := "\n" + Lines(a'), "\n" + Lines(b');
      RenderReadable(a[0], b[0], x, y);
      assert Lines(a') == x[1..] && Lines(b') == y[1..];
      LinesInjective(a', b');
    }
  }

  // ---------------------------------------------------------------- what the text says

  /** The number that a text of digits denotes. */
  function ValueOf(digits: string): int
  {
    if digits == [] then 0
    else 10 * ValueOf(digits[..|digits| - 1]) + (digits[|digits| - 1] as int - '0' as int)
  }

  /** A number is written in decimal, without a leading zero. */
  lemma {:induction false} DecimalDenotes(n: nat)
    ensures ValueOf(Decimal(n)) == n && (n > 0 ==> Decimal(n)[0] != '0')
  {
    DecimalDigits(n);
    if n < 10 {
      assert Decimal(n)[..0] == [];
    } else {
      DecimalDenotes(n / 10);
      DecimalDigits(n / 10);
      assert Decimal(n)[..|Decimal(n)| - 1] == Decimal(n / 10);
    }
  }

  /** The fixed texts of JSON. */
  lemma Literals()
    ensures Render(Null) == "null" && Render(Bool(true)) == "true" && Render(Bool(false)) == "false"
    ensures Render(Arr(NoItems)) == "[]" && Render(Obj(NoMembers)) == "{}" && Render(Str("")) == "\"\""
  {
  }

  /** A string is written as it is, but for the five characters that have a short escape. */
  lemma Escapes(c: char)
    ensures Escape([c]) == if c == '\n' then "\\n" else if c == '\r' then "\\r" else if c == '\t' then "\\t"
                           else if c == '\"' then "\\\"" else if c == '\\' then "\\\\" else [c]
  {
    assert Escape([]) == [];
  }

  /** A list separates its values by single commas. */
  lemma {:induction false} ListPunctuation(a: Json, b: Json)
    ensures Render(Arr(Item(a, Item(b, NoItems)))) == "[" + Render(a) + "," + Render(b) + "]"
  {
    hide Render;
    assert RenderItems(Item(b, NoItems), false) == "," + Render(b) + "]";
    ArrIs(Item(a, Item(b, NoItems)));
  }

  lemma ArrIs(items: Items)
    ensures Render(Arr(items)) == "[" + RenderItems(items, true)
  {
  }

  /** And an object its members, each a quoted name, a colon and a value. */
  lemma {:induction false} ObjectPunctuation(a: Json, b: Json, k: string, l: string)
    ensures Render(Obj(Member(k, a, Member(l, b, NoMembers))))
            == "{" + Quote(k) + ":" + Render(a) + "," + Quote(l) + ":" + Render(b) + "}"
  {
    hide Render, Quote;
    assert RenderMembers(Member(l, b, NoMembers), false) == "," + Quote(l) + ":" + Render(b) + "}";
    ObjIs(Member(k, a, Member(l, b, NoMembers)));
  }

  lemma ObjIs(members: Members)
    ensures Render(Obj(members)) == "{" + RenderMembers(members, true)
  {
  }
}

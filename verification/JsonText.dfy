/** JSON values and their compact text, and the fact the canonicaliser's tie-break
    rests on: no two values print alike. */
module JsonText {
  import opened Common

  datatype Value =
    | Null
    | Bool(flag: bool)
    | Number(digits: string)
    | String(text: string)
    | Array(items: seq<Value>)
    | Object(entries: seq<Entry>)

  datatype Entry = Entry(key: string, value: Value)

  predicate NumberChar(c: char) { '0' <= c <= '9' || c in "+-.eE" }

  /** How a number prints: it starts with a digit or a minus sign. */
  predicate NumberText(s: string)
  {
    s != "" && ('0' <= s[0] <= '9' || s[0] == '-') && forall i :: 0 <= i < |s| ==> NumberChar(s[i])
  }

  ghost predicate DistinctKeys(es: seq<Entry>)
  {
    forall i, j :: 0 <= i < j < |es| ==> es[i].key != es[j].key
  }

  /** An object's map has one entry a key, at every depth. */
  ghost predicate WellFormed(v: Value)
  {
    match v
    case Number(digits) => NumberText(digits)
    case Array(items) => forall i :: 0 <= i < |items| ==> WellFormed(items[i])
    case Object(es) => DistinctKeys(es) && forall i :: 0 <= i < |es| ==> WellFormed(es[i].value)
    case _ => true
  }

  // ------------------------------------------------------------- printer

  function Hex(n: nat): char
    requires n < 16
  {
    "0123456789abcdef"[n]
  }

  /** The letter behind the backslash of a two-character escape. */
  function EscapeLetter(c: char): Option<char>
  {
    var u := c as int;
    if c == '"' then Some('"') else if c == '\\' then Some('\\')
    else if u == 8 then Some('b') else if u == 9 then Some('t') else if u == 10 then Some('n')
    else if u == 12 then Some('f') else if u == 13 then Some('r')
    else None
  }

  function Escape(c: char): string
  {
    if EscapeLetter(c).Some? then ['\\', EscapeLetter(c).value]
    else if c as int < 0x20 then ['\\', 'u', '0', '0', Hex(c as int / 16), Hex(c as int % 16)]
    else [c]
  }

  /** The rest of a string literal, up to and including its closing quote. */
  function QuoteRest(s: string): string
  {
    if s == "" then "\"" else Escape(s[0]) + QuoteRest(s[1..])
  }

  function Quote(s: string): string { "\"" + QuoteRest(s) }

  function Print(v: Value): string
    decreases v, 1
  {
    match v
    case Null => "null"
    case Bool(flag) => if flag then "true" else "false"
    case Number(digits) => digits
    case String(text) => Quote(text)
    case Array(items) => if items == [] then "[]" else "[" + Print(items[0]) + ItemsRest(items[1..])
    case Object(es) => if es == [] then "{}" else "{" + EntryText(es[0]) + EntriesRest(es[1..])
  }

  function EntryText(e: Entry): string
    decreases e, 1
  {
    Quote(e.key) + (":" + Print(e.value))
  }

  function ItemsRest(items: seq<Value>): string
    decreases items, 0
  {
    if items == [] then "]" else "," + Print(items[0]) + ItemsRest(items[1..])
  }

  function EntriesRest(es: seq<Entry>): string
    decreases es, 0
  {
    if es == [] then "}" else "," + EntryText(es[0]) + EntriesRest(es[1..])
  }

  // ------------------------------------------------------- unique reading

  /** Text that cannot continue a number. */
  predicate Stops(rest: string) { rest == "" || !NumberChar(rest[0]) }

  lemma CancelPrefix(p: string, x: string, y: string)
    requires p + x == p + y
    ensures x == y
  {
    assert x == (p + x)[|p|..] && y == (p + y)[|p|..];
  }

  lemma Group(a: string, r: string, x: string)
    ensures a + r + x == a + (r + x)
  {
  }

  /** Removes a common mark and regroups what follows it. */
  lemma CancelMark(p: string, a: string, r: string, x: string, b: string, q: string, y: string)
    requires p + a + r + x == p + b + q + y
    ensures a + (r + x) == b + (q + y)
  {
    Group(p + a, r, x);
    Group(p, a, r + x);
    Group(p + b, q, y);
    Group(p, b, q + y);
    CancelPrefix(p, a + (r + x), b + (q + y));
  }

  lemma HexTells(m: nat, n: nat)
    requires m < 16 && n < 16 && Hex(m) == Hex(n)
    ensures m == n
  {
  }

  lemma EscapeTells(c: char, d: char)
    requires |Escape(c)| == |Escape(d)| && Escape(c) == Escape(d)
    ensures c == d
  {
    hide Hex;
    if |Escape(c)| == 6 {
      assert Escape(c)[4] == Escape(d)[4] && Escape(c)[5] == Escape(d)[5];
      HexTells(c as int / 16, d as int / 16);
      HexTells(c as int % 16, d as int % 16);
    }
  }

  lemma EscapeReads(c: char, d: char, x: string, y: string)
    requires Escape(c) + x == Escape(d) + y
    ensures c == d && x == y
  {
    hide Hex;
    var s := Escape(c) + x;
    assert s[0] == Escape(c)[0] == Escape(d)[0];
    assert s[0] == '\\' ==> s[1] == Escape(c)[1] == Escape(d)[1];
    assert |Escape(c)| == |Escape(d)|;
    assert Escape(c) == s[..|Escape(c)|] == Escape(d);
    EscapeTells(c, d);
    CancelPrefix(Escape(c), x, y);
  }

  lemma QuoteRestStarts(s: string, x: string)
    ensures QuoteRest(s) != "" && (s == "" <==> (QuoteRest(s) + x)[0] == '"')
  {
    if s != "" { assert Escape(s[0])[0] != '"'; }
  }

  lemma {:induction false} QuoteRestReads(s: string, t: string, x: string, y: string)
    requires QuoteRest(s) + x == QuoteRest(t) + y
    ensures s == t && x == y
    decreases |s|
  {
    hide Escape;
    QuoteRestStarts(s, x);
    QuoteRestStarts(t, y);
    if s == "" {
      CancelPrefix("\"", x, y);
    } else {
      Group(Escape(s[0]), QuoteRest(s[1..]), x);
      Group(Escape(t[0]), QuoteRest(t[1..]), y);
      EscapeReads(s[0], t[0], QuoteRest(s[1..]) + x, QuoteRest(t[1..]) + y);
      QuoteRestReads(s[1..], t[1..], x, y);
      assert s == [s[0]] + s[1..] && t == [t[0]] + t[1..];
    }
  }

  lemma QuoteReads(s: string, t: string, x: string, y: string)
    requires Quote(s) + x == Quote(t) + y
    ensures s == t && x == y
  {
    hide QuoteRest;
    Group("\"", QuoteRest(s), x);
    Group("\"", QuoteRest(t), y);
    CancelPrefix("\"", QuoteRest(s) + x, QuoteRest(t) + y);
    QuoteRestReads(s, t, x, y);
  }

  lemma NumberReads(a: string, b: string, x: string, y: string)
    requires NumberText(a) && NumberText(b) && Stops(x) && Stops(y) && a + x == b + y
    ensures a == b && x == y
  {
    var all := a + x;
    assert forall i :: 0 <= i < |a| ==> all[i] == a[i];
    assert forall i :: 0 <= i < |b| ==> all[i] == b[i];
    assert x != "" ==> all[|a|] == x[0];
    assert y != "" ==> all[|b|] == y[0];
    assert |a| == |b|;
    assert a == all[..|a|] && b == all[..|b|];
    CancelPrefix(a, x, y);
  }

  /** The first character of a value's text names its kind. */
  lemma PrintStarts(v: Value)
    requires WellFormed(v)
    ensures Print(v) != ""
    ensures var c := Print(v)[0];
      && (v.Null? <==> c == 'n') && (v.String? <==> c == '"') && (v.Array? <==> c == '[') && (v.Object? <==> c == '{')
      && (v.Bool? <==> c == 't' || c == 'f') && (v.Bool? ==> (v.flag <==> c == 't'))
      && (v.Number? <==> '0' <= c <= '9' || c == '-')
  {
  }

  lemma ArrayStarts(v: Value, x: string)
    requires WellFormed(v) && v.Array?
    ensures |Print(v)| >= 2 && (v.items == [] <==> (Print(v) + x)[1] == ']')
  {
    if v.items != [] { PrintStarts(v.items[0]); }
  }

  lemma ObjectStarts(v: Value, x: string)
    requires v.Object?
    ensures |Print(v)| >= 2 && (v.entries == [] <==> (Print(v) + x)[1] == '}')
  {
    if v.entries != [] { assert EntryText(v.entries[0])[0] == '"'; }
  }

  /** A value can be read off the front of any text that its print begins. */
  lemma {:induction false} PrintReads(v: Value, w: Value, x: string, y: string)
    requires WellFormed(v) && WellFormed(w) && Stops(x) && Stops(y) && Print(v) + x == Print(w) + y
    ensures v == w && x == y
    decreases v, 1
  {
    PrintStarts(v);
    PrintStarts(w);
    assert (Print(v) + x)[0] == Print(v)[0] == Print(w)[0];
    match v
    case Null => CancelPrefix("null", x, y);
    case Bool(flag) => CancelPrefix(Print(v), x, y);
    case Number(digits) => NumberReads(digits, w.digits, x, y);
    case String(text) => QuoteReads(text, w.text, x, y);
    case Array(items) => ArrayReads(v, w, x, y);
    case Object(es) => ObjectReads(v, w, x, y);
  }

  lemma {:induction false} ArrayReads(v: Value, w: Value, x: string, y: string)
    requires WellFormed(v) && WellFormed(w) && Print(v) + x == Print(w) + y && v.Array? && w.Array?
    ensures v == w && x == y
    decreases v, 0
  {
    var a, b := v.items, w.items;
    ArrayStarts(v, x);
    ArrayStarts(w, y);
    if a == [] {
      CancelPrefix("[]", x, y);
    } else {
      var ra, rb := ItemsRest(a[1..]) + x, ItemsRest(b[1..]) + y;
      CancelMark("[", Print(a[0]), ItemsRest(a[1..]), x, Print(b[0]), ItemsRest(b[1..]), y);
      PrintReads(a[0], b[0], ra, rb);
      ItemsRead(a[1..], b[1..], x, y);
      assert a == [a[0]] + a[1..] && b == [b[0]] + b[1..];
    }
  }

  lemma {:induction false} ItemsRead(a: seq<Value>, b: seq<Value>, x: string, y: string)
    requires forall i :: 0 <= i < |a| ==> WellFormed(a[i])
    requires forall i :: 0 <= i < |b| ==> WellFormed(b[i])
    requires ItemsRest(a) + x == ItemsRest(b) + y
    ensures a == b && x == y
    decreases a, 0
  {
    var all := ItemsRest(a) + x;
    assert all[0] == if a == [] then ']' else ',';
    assert all[0] == if b == [] then ']' else ',';
    if a == [] {
      CancelPrefix("]", x, y);
    } else {
      var ra, rb := ItemsRest(a[1..]) + x, ItemsRest(b[1..]) + y;
      CancelMark(",", Print(a[0]), ItemsRest(a[1..]), x, Print(b[0]), ItemsRest(b[1..]), y);
      PrintReads(a[0], b[0], ra, rb);
      ItemsRead(a[1..], b[1..], x, y);
      assert a == [a[0]] + a[1..] && b == [b[0]] + b[1..];
    }
  }

  lemma {:induction false} EntryReads(e: Entry, f: Entry, x: string, y: string)
    requires WellFormed(e.value) && WellFormed(f.value) && Stops(x) && Stops(y) && EntryText(e) + x == EntryText(f) + y
    ensures e == f && x == y
    decreases e, 1
  {
    hide Quote, Print;
    var p, q := ":" + Print(e.value), ":" + Print(f.value);
    Group(Quote(e.key), p, x);
    Group(Quote(f.key), q, y);
    QuoteReads(e.key, f.key, p + x, q + y);
    Group(":", Print(e.value), x);
    Group(":", Print(f.value), y);
    CancelPrefix(":", Print(e.value) + x, Print(f.value) + y);
    PrintReads(e.value, f.value, x, y);
  }

  lemma {:induction false} ObjectReads(v: Value, w: Value, x: string, y: string)
    requires WellFormed(v) && WellFormed(w) && Print(v) + x == Print(w) + y && v.Object? && w.Object?
    ensures v == w && x == y
    decreases v, 0
  {
    var a, b := v.entries, w.entries;
    ObjectStarts(v, x);
    ObjectStarts(w, y);
    if a == [] {
      CancelPrefix("{}", x, y);
    } else {
      var ra, rb := EntriesRest(a[1..]) + x, EntriesRest(b[1..]) + y;
      CancelMark("{", EntryText(a[0]), EntriesRest(a[1..]), x, EntryText(b[0]), EntriesRest(b[1..]), y);
      EntryReads(a[0], b[0], ra, rb);
      EntriesRead(a[1..], b[1..], x, y);
      assert a == [a[0]] + a[1..] && b == [b[0]] + b[1..];
    }
  }

  lemma {:induction false} EntriesRead(a: seq<Entry>, b: seq<Entry>, x: string, y: string)
    requires forall i :: 0 <= i < |a| ==> WellFormed(a[i].value)
    requires forall i :: 0 <= i < |b| ==> WellFormed(b[i].value)
    requires EntriesRest(a) + x == EntriesRest(b) + y
    ensures a == b && x == y
    decreases a, 0
  {
    var all := EntriesRest(a) + x;
    assert all[0] == if a == [] then '}' else ',';
    assert all[0] == if b == [] then '}' else ',';
    if a == [] {
      CancelPrefix("}", x, y);
    } else {
      var ra, rb := EntriesRest(a[1..]) + x, EntriesRest(b[1..]) + y;
      CancelMark(",", EntryText(a[0]), EntriesRest(a[1..]), x, EntryText(b[0]), EntriesRest(b[1..]), y);
      EntryReads(a[0], b[0], ra, rb);
      EntriesRead(a[1..], b[1..], x, y);
      assert a == [a[0]] + a[1..] && b == [b[0]] + b[1..];
    }
  }

  /** No two values print alike. */
  lemma PrintIsInjective(v: Value, w: Value)
    requires WellFormed(v) && WellFormed(w) && Print(v) == Print(w)
    ensures v == w
  {
    assert Print(v) + "" == Print(v) && Print(w) + "" == Print(w);
    PrintReads(v, w, "", "");
  }
}

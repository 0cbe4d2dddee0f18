/** The nesting scan that guards the JSON parser: one pass over the characters that knows
    about strings and escapes, proved against the depth of the JSON value itself. */
module JsonNesting {
  import opened Common

  const MAX_JSON_NESTING: int := 128

  datatype Scanner = Scanner(nesting: int, inString: bool, escaped: bool)

  const START := Scanner(0, false, false)

  /** One character; None stands for the raised error. */
  function Step(s: Scanner, c: char): Option<Scanner> {
    if s.inString then
      if s.escaped then Some(s.(escaped := false))
      else if c == '\\' then Some(s.(escaped := true))
      else if c == '"' then Some(s.(inString := false))
      else Some(s)
    else if c == '"' then Some(s.(inString := true))
    else if c == '[' || c == '{' then
      if s.nesting + 1 > MAX_JSON_NESTING then None else Some(s.(nesting := s.nesting + 1))
    else if c == ']' || c == '}' then Some(s.(nesting := s.nesting - 1))
    else Some(s)
  }

  function Scan(s: Scanner, text: string): Option<Scanner>
    decreases |text|
  {
    if text == "" then Some(s) else
    match Step(s, text[0])
    case None => None
    case Some(next) => Scan(next, text[1..])
  }

  /** The loop of the parser's guard. */
  method CheckNesting(text: string) returns (ok: bool, nesting: int, inString: bool)
    ensures ok <==> Scan(START, text).Some?
    ensures ok ==> nesting == Scan(START, text).value.nesting && inString == Scan(START, text).value.inString
  {
    nesting, inString := 0, false;
    var escaped := false;
    for i := 0 to |text|
      invariant Scan(Scanner(nesting, inString, escaped), text[i..]) == Scan(START, text)
    {
      var character := text[i];
      assert text[i..][0] == character && text[i..][1..] == text[i + 1..];
      if inString {
        if escaped {
          escaped := false;
        } else if character == '\\' {
          escaped := true;
        } else if character == '"' {
          inString := false;
        }
      } else if character == '"' {
        inString := true;
      } else if character == '[' || character == '{' {
        nesting := nesting + 1;
        if nesting > MAX_JSON_NESTING { return false, nesting, inString; }
      } else if character == ']' || character == '}' {
        nesting := nesting - 1;
      }
    }
    return true, nesting, inString;
  }

  // ---------------------------------------------------------------------------
  // JSON values with a serialisation (RFC 8259, sections 2, 4, 5 and 7)
  // ---------------------------------------------------------------------------

  /** One unit of a string: a character that stands for itself, or an escape. The four
      digits of a \u escape are characters that stand for themselves. */
  datatype Unit = Plain(c: char) | Escape(c: char)

  /** A value together with the white space inside it. `Atom` is a number or a literal. */
  datatype Json =
    | Atom(lexeme: string)
    | Text(units: seq<Unit>)
    | Array(pad: string, items: Items)
    | Object(pad: string, members: Members)

  datatype Items = NoItem | Item(before: string, value: Json, after: string, rest: Items)

  datatype Members = NoMember | Member(before: string, key: seq<Unit>, mid: string, lead: string, value: Json,
      after: string, rest: Members)

  function StringText(units: seq<Unit>): string {
    if units == [] then "" else
    (match units[0] case Plain(c) => [c] case Escape(c) => ['\\', c]) + StringText(units[1..])
  }

  function Quoted(units: seq<Unit>): string { "\"" + StringText(units) + "\"" }

  function JsonText(v: Json): string {
    match v
    case Atom(lexeme) => lexeme
    case Text(units) => Quoted(units)
    case Array(pad, items) => "[" + pad + ItemsText(items) + "]"
    case Object(pad, members) => "{" + pad + MembersText(members) + "}"
  }

  function ItemsText(items: Items): string {
    match items
    case NoItem => ""
    case Item(before, value, after, rest) =>
      before + JsonText(value) + after
      + (if rest.NoItem? then "" else ",") + ItemsText(rest)
  }

  function MembersText(members: Members): string {
    match members
    case NoMember => ""
    case Member(before, key, mid, lead, value, after, rest) =>
      before + Quoted(key) + mid + ":" + lead + JsonText(value) + after
      + (if rest.NoMember? then "" else ",") + MembersText(rest)
  }

  predicate Blank(s: string) {
    forall c :: c in s ==> c == ' ' || c == '\t' || c == '\n' || c == '\r'
  }

  /** No quote and no bracket: every number and literal, and every separator. */
  predicate Flat(s: string) {
    forall c :: c in s ==> c !in {'"', '[', ']', '{', '}'}
  }

  predicate StringOk(units: seq<Unit>) {
    forall u :: u in units && u.Plain? ==> u.c != '"' && u.c != '\\'
  }

  predicate WellFormed(v: Json) {
    match v
    case Atom(lexeme) => Flat(lexeme)
    case Text(units) => StringOk(units)
    case Array(pad, items) => Blank(pad) && ItemsOk(items)
    case Object(pad, members) => Blank(pad) && MembersOk(members)
  }

  predicate ItemsOk(items: Items) {
    match items
    case NoItem => true
    case Item(before, value, after, rest) => Blank(before) && WellFormed(value) && Blank(after) && ItemsOk(rest)
  }

  predicate MembersOk(members: Members) {
    match members
    case NoMember => true
    case Member(before, key, mid, lead, value, after, rest) =>
      && Blank(before) && StringOk(key) && Blank(mid) && Blank(lead) && WellFormed(value) && Blank(after)
      && MembersOk(rest)
  }

  /** How many arrays and objects are open around the innermost one, itself included. */
  function Depth(v: Json): nat {
    match v
    case Atom(_) => 0
    case Text(_) => 0
    case Array(_, items) => 1 + ItemsDepth(items)
    case Object(_, members) => 1 + MembersDepth(members)
  }

  function Max(x: nat, y: nat): nat { if x < y then y else x }

  function ItemsDepth(items: Items): nat {
    if items.NoItem? then 0 else Max(Depth(items.value), ItemsDepth(items.rest))
  }

  function MembersDepth(members: Members): nat {
    if members.NoMember? then 0 else Max(Depth(members.value), MembersDepth(members.rest))
  }

  // ---------------------------------------------------------------------------
  // The scan against the value
  // ---------------------------------------------------------------------------

  lemma {:induction false} ScanConcat(s: Scanner, x: string, y: string)
    ensures Scan(s, x + y) == match Scan(s, x) { case None => None case Some(next) => Scan(next, y) }
    decreases |x|
  {
    if x == "" {
      assert x + y == y;
    } else {
      assert (x + y)[0] == x[0] && (x + y)[1..] == x[1..] + y;
      if Step(s, x[0]).Some? { ScanConcat(Step(s, x[0]).value, x[1..], y); }
    }
  }

  /** Outside strings, text without quotes and brackets leaves the scanner alone. */
  lemma {:induction false} FlatIsSkipped(s: Scanner, text: string)
    requires !s.inString && !s.escaped && Flat(text)
    ensures Scan(s, text) == Some(s)
    decreases |text|
  {
    if text != "" {
      assert text[0] in text;
      forall c | c in text[1..] ensures c in text {}
      FlatIsSkipped(s, text[1..]);
    }
  }

  /** A string body, whatever brackets and escapes it holds, stays inside the string. */
  lemma {:induction false} BodyIsSkipped(n: int, units: seq<Unit>)
    requires StringOk(units)
    ensures Scan(Scanner(n, true, false), StringText(units)) == Some(Scanner(n, true, false))
    decreases |units|
  {
    if units != [] {
      assert units[0] in units;
      forall u | u in units[1..] ensures u in units {}
      BodyIsSkipped(n, units[1..]);
      var head := match units[0] case Plain(c) => [c] case Escape(c) => ['\\', c];
      ScanConcat(Scanner(n, true, false), head, StringText(units[1..]));
      UnitIsSkipped(n, units[0]);
    }
  }

  lemma UnitIsSkipped(n: int, u: Unit)
    requires u.Plain? ==> u.c != '"' && u.c != '\\'
    ensures Scan(Scanner(n, true, false), match u case Plain(c) => [c] case Escape(c) => ['\\', c]) ==
              Some(Scanner(n, true, false))
  {
    assert [u.c][1..] == "";
    assert ['\\', u.c][1..] == [u.c];
    assert Scan(Scanner(n, true, false), "") == Some(Scanner(n, true, false));
  }

  lemma QuotedIsSkipped(n: int, units: seq<Unit>)
    requires StringOk(units)
    ensures Scan(Scanner(n, false, false), Quoted(units)) == Some(Scanner(n, false, false))
  {
    BodyIsSkipped(n, units);
    ScanConcat(Scanner(n, false, false), "\"" + StringText(units), "\"");
    ScanConcat(Scanner(n, false, false), "\"", StringText(units));
    assert "\""[1..] == "";
  }

  /** The outcome at level `n` of text that closes what it opens and nests `d` deeper. */
  function Verdict(n: int, d: nat): Option<Scanner> {
    if n + d > MAX_JSON_NESTING then None else Some(Scanner(n, false, false))
  }

  lemma SeparatorIsSkipped(n: int, s: string)
    requires Blank(s) || s == "," || s == ":" || s == ""
    ensures Scan(Scanner(n, false, false), s) == Some(Scanner(n, false, false))
  {
    FlatIsSkipped(Scanner(n, false, false), s);
  }

  lemma BracketScan(n: int, open: char, close: char, inner: string, d: nat)
    requires n <= MAX_JSON_NESTING
    requires (open == '[' && close == ']') || (open == '{' && close == '}')
    requires n + 1 <= MAX_JSON_NESTING ==> Scan(Scanner(n + 1, false, false), inner) == Verdict(n + 1, d)
    ensures Scan(Scanner(n, false, false), [open] + inner + [close]) == Verdict(n, 1 + d)
  {
    var s := Scanner(n, false, false);
    ScanConcat(s, [open] + inner, [close]);
    ScanConcat(s, [open], inner);
    assert [open][1..] == "" && [close][1..] == "";
    if n + 1 <= MAX_JSON_NESTING && n + 1 + d <= MAX_JSON_NESTING {
      assert Scan(Scanner(n + 1, false, false), [close]) == Some(s);
    }
  }

  lemma {:induction false} ValueScan(n: int, v: Json)
    requires WellFormed(v) && n <= MAX_JSON_NESTING
    ensures Scan(Scanner(n, false, false), JsonText(v)) == Verdict(n, Depth(v))
    decreases v
  {
    match v {
      case Atom(lexeme) => FlatIsSkipped(Scanner(n, false, false), lexeme);
      case Text(units) => QuotedIsSkipped(n, units);
      case Array(pad, items) =>
        if n + 1 <= MAX_JSON_NESTING {
          SeparatorIsSkipped(n + 1, pad);
          ItemsScan(n + 1, items);
          ScanConcat(Scanner(n + 1, false, false), pad, ItemsText(items));
        }
        BracketScan(n, '[', ']', pad + ItemsText(items), ItemsDepth(items));
        assert JsonText(v) == ['['] + (pad + ItemsText(items)) + [']'];
      case Object(pad, members) =>
        if n + 1 <= MAX_JSON_NESTING {
          SeparatorIsSkipped(n + 1, pad);
          MembersScan(n + 1, members);
          ScanConcat(Scanner(n + 1, false, false), pad, MembersText(members));
        }
        BracketScan(n, '{', '}', pad + MembersText(members), MembersDepth(members));
        assert JsonText(v) == ['{'] + (pad + MembersText(members)) + ['}'];
    }
  }

  /** Skipped text, then a value, then skipped text, then the rest of the list. */
  lemma SequenceScan(n: int, lead: string, value: string, trail: string, rest: string, d: nat, e: nat)
    requires Scan(Scanner(n, false, false), lead) == Some(Scanner(n, false, false))
    requires Scan(Scanner(n, false, false), value) == Verdict(n, d)
    requires Scan(Scanner(n, false, false), trail) == Some(Scanner(n, false, false))
    requires Scan(Scanner(n, false, false), rest) == Verdict(n, e)
    ensures Scan(Scanner(n, false, false), lead + value + trail + rest) == Verdict(n, Max(d, e))
  {
    var s := Scanner(n, false, false);
    ScanConcat(s, lead + value + trail, rest);
    ScanConcat(s, lead + value, trail);
    ScanConcat(s, lead, value);
  }

  lemma {:induction false} ItemsScan(n: int, items: Items)
    requires ItemsOk(items) && n <= MAX_JSON_NESTING
    ensures Scan(Scanner(n, false, false), ItemsText(items)) == Verdict(n, ItemsDepth(items))
    decreases items
  {
    match items {
      case NoItem =>
      case Item(before, value, after, rest) =>
        var comma := if rest.NoItem? then "" else ",";
        SeparatorIsSkipped(n, before);
        SeparatorIsSkipped(n, after);
        SeparatorIsSkipped(n, comma);
        ScanConcat(Scanner(n, false, false), after, comma);
        ValueScan(n, value);
        ItemsScan(n, rest);
        SequenceScan(n, before, JsonText(value), after + comma, ItemsText(rest), Depth(value), ItemsDepth(rest));
        assert ItemsText(items) == before + JsonText(value) + (after + comma) + ItemsText(rest);
    }
  }

  lemma KeyScan(n: int, before: string, key: seq<Unit>, mid: string, lead: string)
    requires Blank(before) && StringOk(key) && Blank(mid) && Blank(lead)
    ensures Scan(Scanner(n, false, false), before + Quoted(key) + mid + ":" + lead) == Some(Scanner(n, false, false))
  {
    var s := Scanner(n, false, false);
    SeparatorIsSkipped(n, before);
    QuotedIsSkipped(n, key);
    SeparatorIsSkipped(n, mid);
    SeparatorIsSkipped(n, ":");
    SeparatorIsSkipped(n, lead);
    ScanConcat(s, before + Quoted(key) + mid + ":", lead);
    ScanConcat(s, before + Quoted(key) + mid, ":");
    ScanConcat(s, before + Quoted(key), mid);
    ScanConcat(s, before, Quoted(key));
  }

  lemma {:induction false} MembersScan(n: int, members: Members)
    requires MembersOk(members) && n <= MAX_JSON_NESTING
    ensures Scan(Scanner(n, false, false), MembersText(members)) == Verdict(n, MembersDepth(members))
    decreases members
  {
    match members {
      case NoMember =>
      case Member(before, key, mid, lead, value, after, rest) =>
        var comma := if rest.NoMember? then "" else ",";
        var head := before + Quoted(key) + mid + ":" + lead;
        KeyScan(n, before, key, mid, lead);
        SeparatorIsSkipped(n, after);
        SeparatorIsSkipped(n, comma);
        ScanConcat(Scanner(n, false, false), after, comma);
        ValueScan(n, value);
        MembersScan(n, rest);
        SequenceScan(n, head, JsonText(value), after + comma, MembersText(rest), Depth(value), MembersDepth(rest));
        assert MembersText(members) == head + JsonText(value) + (after + comma) + MembersText(rest);
    }
  }

  /** For every JSON value and every serialisation of it, with any white space, escapes
      and brackets inside strings: the scan rejects iff arrays and objects nest deeper than
      the limit, and when it accepts it ends outside strings, at level 0. */
  lemma ScanDecidesDepth(v: Json, before: string, after: string)
    requires WellFormed(v) && Blank(before) && Blank(after)
    ensures Scan(START, before + JsonText(v) + after) == if Depth(v) > 128 then None else Some(START)
  {
    SeparatorIsSkipped(0, before);
    SeparatorIsSkipped(0, after);
    ValueScan(0, v);
    ScanConcat(START, before + JsonText(v), after);
    ScanConcat(START, before, JsonText(v));
  }
}

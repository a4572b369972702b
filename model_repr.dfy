/**
 * `BaseModel.__repr__` (atmdb/models.py) and the Python `repr` of the values
 * a model holds: `ClassName(attr=repr(value), ...)` over JSON_MAPPING.
 */
module ModelRepr {
  import opened Wrappers
  import opened Models

  // ---------------------------------------------------------------------
  // repr of int
  // ---------------------------------------------------------------------

  function DigitChar(d: nat): char
    requires d < 10
  {
    ('0' as int + d) as char
  }

  predicate IsDigit(c: char)
  {
    '0' as int <= c as int <= '9' as int
  }

  /** The decimal digits of n, without leading zeros. */
  function NatRepr(n: nat): (r: string)
    ensures |r| >= 1
    ensures forall i :: 0 <= i < |r| ==> IsDigit(r[i])
    ensures r[0] == '0' ==> n == 0
  {
    if n < 10 then [DigitChar(n)] else NatRepr(n / 10) + [DigitChar(n % 10)]
  }

  /** `repr(n)` of an int: an optional minus sign and the decimal digits. */
  function IntRepr(n: int): string
  {
    if n < 0 then "-" + NatRepr(-n) else NatRepr(n)
  }

  /** The value of a string of decimal digits. */
  function ParseNat(t: string): nat
    requires forall i :: 0 <= i < |t| ==> IsDigit(t[i])
  {
    if t == [] then 0
    else
      assert IsDigit(t[|t| - 1]);
      10 * ParseNat(t[..|t| - 1]) + (t[|t| - 1] as int - '0' as int)
  }

  /** `int(t)` for the strings IntRepr produces; None for anything else. */
  function ParseInt(t: string): Option<int>
  {
    if |t| >= 2 && t[0] == '-' && forall i :: 1 <= i < |t| ==> IsDigit(t[i]) then Some(0 - ParseNat(t[1..]) as int)
    else if |t| >= 1 && forall i :: 0 <= i < |t| ==> IsDigit(t[i]) then Some(ParseNat(t))
    else None
  }

  lemma {:induction false} NatReprRoundTrip(n: nat)
    ensures ParseNat(NatRepr(n)) == n
  {
    if n >= 10 {
      NatReprRoundTrip(n / 10);
      var r := NatRepr(n);
      assert r[..|r| - 1] == NatRepr(n / 10);
    }
  }

  /** `int(repr(n)) == n` */
  lemma IntReprRoundTrip(n: int)
    ensures ParseInt(IntRepr(n)) == Some(n)
  {
    var t := IntRepr(n);
    if n < 0 {
      NatReprRoundTrip(-n);
      assert t[1..] == NatRepr(-n);
      assert forall i :: 1 <= i < |t| ==> IsDigit(t[i]) by {
        forall i | 1 <= i < |t| ensures IsDigit(t[i]) { assert t[i] == NatRepr(-n)[i - 1]; }
      }
    } else {
      NatReprRoundTrip(n);
      assert IsDigit(t[0]);
    }
  }

  // ---------------------------------------------------------------------
  // repr of str
  // ---------------------------------------------------------------------

  /** The quote `repr` puts around s: double quotes only when s has a single quote and no double quote. */
  function QuoteFor(s: string): char
  {
    if '\'' in s && '"' !in s then '"' else '\''
  }

  function HexDigit(d: nat): char
    requires d < 16
  {
    if d < 10 then ('0' as int + d) as char else ('a' as int + d - 10) as char
  }

  function HexValue(c: char): Option<nat>
  {
    if '0' <= c <= '9' then Some(c as int - '0' as int)
    else if 'a' <= c <= 'f' then Some(c as int - 'a' as int + 10)
    else None
  }

  /** How `repr` writes one character of a string quoted with q. */
  function EscapeChar(c: char, q: char): string
  {
    if c == '\\' then "\\\\"
    else if c == q then ['\\', q]
    else if c == '\n' then "\\n"
    else if c == '\r' then "\\r"
    else if c == '\t' then "\\t"
    else if c as int < 0x20 || c as int == 0x7f then "\\x" + [HexDigit(c as int / 16), HexDigit(c as int % 16)]
    else [c]
  }

  function Escape(s: string, q: char): string
  {
    if s == [] then [] else EscapeChar(s[0], q) + Escape(s[1..], q)
  }

  /** `repr(s)` of a str. */
  function StrRepr(s: string): string
  {
    var q := QuoteFor(s);
    [q] + Escape(s, q) + [q]
  }

  /** The character that a backslash followed by e stands for. */
  function SimpleEscape(e: char): Option<char>
  {
    if e == '\\' || e == '\'' || e == '"' then Some(e)
    else if e == 'n' then Some('\n')
    else if e == 'r' then Some('\r')
    else if e == 't' then Some('\t')
    else None
  }

  /** Reads back the escapes EscapeChar writes; None on a malformed escape. */
  function Unescape(t: string): Option<string>
  {
    if t == [] then Some([])
    else if t[0] != '\\' then
      match Unescape(t[1..])
      case None => None
      case Some(r) => Some([t[0]] + r)
    else if |t| < 2 then None
    else if t[1] == 'x' then
      if |t| < 4 || HexValue(t[2]).None? || HexValue(t[3]).None? then None
      else
        var c := (16 * HexValue(t[2]).value + HexValue(t[3]).value) as char;
        match Unescape(t[4..])
        case None => None
        case Some(r) => Some([c] + r)
    else
      match SimpleEscape(t[1])
      case None => None
      case Some(c) =>
        match Unescape(t[2..])
        case None => None
        case Some(r) => Some([c] + r)
  }

  /** A character below 0x20 without a named escape, or DEL, is written `\\xhh`. */
  lemma UnescapeHex(c: char, rest: string)
    requires Unescape(rest).Some?
    requires c as int < 0x20 || c as int == 0x7f
    ensures Unescape("\\x" + [HexDigit(c as int / 16), HexDigit(c as int % 16)] + rest) == Some([c] + Unescape(rest).value)
  {
    var t := "\\x" + [HexDigit(c as int / 16), HexDigit(c as int % 16)] + rest;
    assert t[4..] == rest;
    assert t[0] == '\\' && t[1] == 'x';
    assert HexValue(t[2]) == Some(c as int / 16);
    assert HexValue(t[3]) == Some(c as int % 16);
  }

  lemma UnescapePair(e: char, rest: string)
    requires Unescape(rest).Some? && SimpleEscape(e).Some?
    ensures Unescape(['\\', e] + rest) == Some([SimpleEscape(e).value] + Unescape(rest).value)
  {
    var t := ['\\', e] + rest;
    assert t[2..] == rest;
  }

  lemma UnescapeChar(c: char, q: char, rest: string)
    requires q == '\'' || q == '"'
    requires Unescape(rest).Some?
    ensures Unescape(EscapeChar(c, q) + rest) == Some([c] + Unescape(rest).value)
  {
    if c == '\\' {
      UnescapePair('\\', rest);
    } else if c == q {
      UnescapePair(q, rest);
    } else if c == '\n' {
      UnescapePair('n', rest);
    } else if c == '\r' {
      UnescapePair('r', rest);
    } else if c == '\t' {
      UnescapePair('t', rest);
    } else if c as int < 0x20 || c as int == 0x7f {
      UnescapeHex(c, rest);
    } else {
      var t := [c] + rest;
      assert t[1..] == rest;
    }
  }

  lemma {:induction false} UnescapeEscape(s: string, q: char)
    requires q == '\'' || q == '"'
    ensures Unescape(Escape(s, q)) == Some(s)
  {
    if s != [] {
      UnescapeEscape(s[1..], q);
      UnescapeChar(s[0], q, Escape(s[1..], q));
      assert s == [s[0]] + s[1..];
    }
  }

  /** `eval(repr(s)) == s`: the literal is quoted on both ends and its body reads back as s. */
  lemma StrReprRoundTrip(s: string)
    ensures var r := StrRepr(s);
      |r| >= 2 && r[0] == QuoteFor(s) && r[|r| - 1] == QuoteFor(s) && Unescape(r[1..|r| - 1]) == Some(s)
  {
    var r := StrRepr(s);
    assert r[1..|r| - 1] == Escape(s, QuoteFor(s));
    UnescapeEscape(s, QuoteFor(s));
  }

  // ---------------------------------------------------------------------
  // repr of values and models
  // ---------------------------------------------------------------------

  /** `repr(v)`; a dict lists its keys in insertion order, a set in its stored order. */
  function ReprValue(v: Value): (r: string)
    ensures r != []
    ensures v.PInt? ==> ParseInt(r) == Some(v.i)
    ensures v.PStr? ==> |r| >= 2 && r[0] == QuoteFor(v.s) && r[|r| - 1] == QuoteFor(v.s) && Unescape(r[1..|r| - 1]) == Some(v.s)
    ensures v.PModel? ==> ClassName(KindOf(v.model)) + "(" <= r
    decreases v, 2
  {
    match v
    case PNone => "None"
    case PBool(b) => if b then "True" else "False"
    case PInt(i) => IntReprRoundTrip(i); IntRepr(i)
    case PStr(s) => StrReprRoundTrip(s); StrRepr(s)
    case PList(items) => "[" + ReprItems(items, 0) + "]"
    case PDict(_, _) => "{" + ReprEntries(v, 0) + "}"
    case PSet(members) => if members == [] then "set()" else "{" + ReprMembers(members, 0) + "}"
    case PModel(e) => Repr(e)
  }

  function ReprItems(items: seq<Value>, i: nat): string
    requires i <= |items|
    decreases PList(items), 0, |items| - i
  {
    if i == |items| then ""
    else if i == |items| - 1 then ReprValue(items[i])
    else ReprValue(items[i]) + ", " + ReprItems(items, i + 1)
  }

  /** The entries of a dict in key order; a key without an entry, which no decoded JSON holds, is written with an empty value. */
  function ReprEntries(d: Value, i: nat): string
    requires d.PDict? && i <= |d.order|
    decreases d, 0, |d.order| - i
  {
    if i == |d.order| then ""
    else
      var key := d.order[i];
      var entry := StrRepr(key) + ": " + (if key in d.entries then ReprValue(d.entries[key]) else "");
      if i == |d.order| - 1 then entry else entry + ", " + ReprEntries(d, i + 1)
  }

  function ReprMembers(members: seq<Entity>, i: nat): string
    requires i <= |members|
    decreases PSet(members), 0, |members| - i
  {
    if i == |members| then ""
    else if i == |members| - 1 then Repr(members[i])
    else Repr(members[i]) + ", " + ReprMembers(members, i + 1)
  }

  /** `repr(model)`: the class name and `attr=repr(value)` for each JSON_MAPPING attribute, in order. */
  function Repr(e: Entity): (r: string)
    ensures ClassName(KindOf(e)) + "(" <= r && r[|r| - 1] == ')'
    decreases e, 1
  {
    var attrs := match e
      case BaseModel(id) => [AttrRepr("id_", id)]
      case Movie(cast, poster, title, id) =>
        [AttrRepr("cast", cast), AttrRepr("poster", poster), AttrRepr("title", title), AttrRepr("id_", id)]
      case Person(credits, name, profile, id) =>
        [AttrRepr("movie_credits", credits), AttrRepr("name", name), AttrRepr("profile", profile), AttrRepr("id_", id)];
    ClassName(KindOf(e)) + "(" + Join(attrs, ", ") + ")"
  }

  /** `'{}={!r}'.format(attr, value)` */
  function AttrRepr(attr: string, v: Value): string
    decreases v, 3
  {
    attr + "=" + ReprValue(v)
  }

  /** `sep.join(parts)` */
  function Join(parts: seq<string>, sep: string): string
  {
    if |parts| == 0 then "" else if |parts| == 1 then parts[0] else parts[0] + sep + Join(parts[1..], sep)
  }

  /** `'{}={!r}'.format(attr, getattr(e, attr))` for each attribute of the mapping m. */
  function AttrReprs(e: Entity, m: seq<(string, string)>): seq<string>
  {
    seq(|m|, i requires 0 <= i < |m| =>
      match GetAttr(e, m[i].0) case Some(v) => AttrRepr(m[i].0, v) case None => m[i].0 + "=")
  }

  /** The repr is built from JSON_MAPPING: every attribute, in mapping order, read with getattr. */
  lemma ReprFollowsMapping(e: Entity)
    ensures Repr(e) == ClassName(KindOf(e)) + "(" + Join(AttrReprs(e, JsonMapping(KindOf(e))), ", ") + ")"
  {
    var parts := AttrReprs(e, JsonMapping(KindOf(e)));
    match e
    case BaseModel(id) =>
      assert parts == [AttrRepr("id_", id)];
    case Movie(cast, poster, title, id) =>
      assert parts == [AttrRepr("cast", cast), AttrRepr("poster", poster), AttrRepr("title", title), AttrRepr("id_", id)];
    case Person(credits, name, profile, id) =>
      assert parts == [AttrRepr("movie_credits", credits), AttrRepr("name", name), AttrRepr("profile", profile),
        AttrRepr("id_", id)];
  }

  /** `repr(BaseModel.from_json(dict(id=1))) == 'BaseModel(id_=1)'` */
  lemma ReprExample()
    ensures Repr(BaseModel(PInt(1))) == "BaseModel(id_=1)"
  {
    assert ReprValue(PInt(1)) == "1";
  }

  /** A str with a single quote and no double quote is written in double quotes. */
  lemma StrReprQuoteExample()
    ensures StrRepr("it's") == "\"it's\""
  {
    assert Escape("it's", '"') == "it's" by {
      assert Escape("s", '"') == "s";
      assert Escape("'s", '"') == "'s";
      assert Escape("t's", '"') == "t's";
    }
  }

  lemma StrReprEscapeExample()
    ensures StrRepr("a\n") == "'a\\n'"
  {
    assert Escape("a\n", '\'') == "a\\n" by {
      assert Escape("\n", '\'') == "\\n";
    }
  }
}

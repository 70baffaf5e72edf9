/** The canonical JSON text the repository hashes
    (`json.dumps(..., sort_keys=True, separators=(",", ":"))`, ASCII only), a reader for it, and the
    proof that the text determines the value.  `char` is a Unicode scalar value. */
module Json {
  import opened Options
  import opened Ordering
  import opened Sequences

  /** `members` lists a dict's items in insertion order. */
  datatype Json =
    | Null
    | Bool(b: bool)
    | Int(i: int)
    | Str(s: string)
    | Arr(items: seq<Json>)
    | Obj(members: seq<Member>)

  datatype Member = Member(key: string, value: Json)

  /* ---------- Strings, section 7 of RFC 8259 ---------- */

  const BACKSPACE: char := 8 as char
  const FORM_FEED: char := 12 as char

  function HexDigit(n: nat): char
    requires n < 16
  {
    if n < 10 then ('0' as int + n) as char else ('a' as int + n - 10) as char
  }

  function Hex4(n: nat): string
    requires n < 0x1_0000
  {
    [HexDigit(n / 4096), HexDigit(n / 256 % 16), HexDigit(n / 16 % 16), HexDigit(n % 16)]
  }

  function EscapeChar(c: char): string {
    if c == '"' then "\\\""
    else if c == '\\' then "\\\\"
    else if c == '\n' then "\\n"
    else if c == '\r' then "\\r"
    else if c == '\t' then "\\t"
    else if c == FORM_FEED then "\\f"
    else if c == BACKSPACE then "\\b"
    else if ' ' <= c <= '~' then [c]
    else if c as int < 0x1_0000 then "\\u" + Hex4(c as int)
    else "\\u" + SurrogatePair(c as int - 0x1_0000)
  }

  /** The two code units of a character beyond the basic plane, without the first `\u`. */
  function SurrogatePair(v: nat): string
    requires v < 0x10_0000
  {
    Hex4(0xD800 + v / 0x400) + "\\u" + Hex4(0xDC00 + v % 0x400)
  }

  /** The escaped characters of `s`, then `rest`. */
  function EscapeOn(s: string, rest: string): string {
    if s == "" then rest else EscapeChar(s[0]) + EscapeOn(s[1..], rest)
  }

  function QuoteOn(s: string, rest: string): string {
    "\"" + EscapeOn(s, "\"" + rest)
  }

  function HexValue(c: char): Option<nat> {
    if '0' <= c <= '9' then Some(c as int - '0' as int)
    else if 'a' <= c <= 'f' then Some(c as int - 'a' as int + 10)
    else if 'A' <= c <= 'F' then Some(c as int - 'A' as int + 10)
    else None
  }

  /** The code unit written by the four hex digits that open `s`. */
  function ReadUnit(s: string): (r: Option<nat>)
    ensures r.Some? ==> |s| >= 4 && r.value < 0x1_0000
  {
    if |s| < 4 then None
    else
      match (HexValue(s[0]), HexValue(s[1]), HexValue(s[2]), HexValue(s[3]))
      case (Some(a), Some(b), Some(c), Some(d)) =>
        var v := a * 4096 + b * 256 + c * 16 + d;
        if v < 0x1_0000 then Some(v) else None
      case _ => None
  }

  /** One character of a string body, escaped or not, and the text after it. */
  function ReadChar(s: string): (r: Option<(char, string)>)
    ensures r.Some? ==> |r.value.1| < |s|
  {
    if s == "" || s[0] == '"' || s[0] < ' ' then None
    else if s[0] != '\\' then Some((s[0], s[1..]))
    else if |s| < 2 then None
    else
      match s[1]
      case '"' => Some(('"', s[2..]))
      case '\\' => Some(('\\', s[2..]))
      case '/' => Some(('/', s[2..]))
      case 'b' => Some((BACKSPACE, s[2..]))
      case 'f' => Some((FORM_FEED, s[2..]))
      case 'n' => Some(('\n', s[2..]))
      case 'r' => Some(('\r', s[2..]))
      case 't' => Some(('\t', s[2..]))
      case 'u' => ReadEscape(s[2..])
      case _ => None
  }

  /** What follows `\u`: one unit, or the two halves of a surrogate pair. */
  function ReadEscape(s: string): (r: Option<(char, string)>)
    ensures r.Some? ==> |r.value.1| < |s|
  {
    match ReadUnit(s)
    case None => None
    case Some(u) =>
      if u < 0xD800 || 0xE000 <= u then Some((u as char, s[4..]))
      else if 0xDC00 <= u || |s| < 6 || s[4..6] != "\\u" then None
      else
        match ReadUnit(s[6..])
        case None => None
        case Some(w) =>
          if w < 0xDC00 || 0xE000 <= w then None
          else Some(((0x1_0000 + (u - 0xD800) * 0x400 + (w - 0xDC00)) as char, s[10..]))
  }

  /** A string body up to and including its closing quote. */
  function ReadString(s: string): (r: Option<(string, string)>)
    ensures r.Some? ==> |r.value.1| < |s|
  {
    if s == "" then None
    else if s[0] == '"' then Some(("", s[1..]))
    else
      match ReadChar(s)
      case None => None
      case Some((c, rest)) =>
        match ReadString(rest)
        case None => None
        case Some((t, rest')) => Some(([c] + t, rest'))
  }

  lemma FourDigits(n: nat)
    requires n < 0x1_0000
    ensures n / 4096 < 16
    ensures n / 4096 * 4096 + n / 256 % 16 * 256 + n / 16 % 16 * 16 + n % 16 == n
  {
    assert n / 16 == n / 256 * 16 + n / 16 % 16;
    assert n / 256 == n / 4096 * 16 + n / 256 % 16;
  }

  lemma ReadUnitOfHex4(n: nat, rest: string)
    requires n < 0x1_0000
    ensures ReadUnit(Hex4(n) + rest) == Some(n)
  {
    var t, h := Hex4(n) + rest, Hex4(n);
    assert t[0] == h[0] && t[1] == h[1] && t[2] == h[2] && t[3] == h[3];
    FourDigits(n);
    HexRoundTrip(n / 4096);
    HexRoundTrip(n / 256 % 16);
    HexRoundTrip(n / 16 % 16);
    HexRoundTrip(n % 16);
  }

  lemma HexRoundTrip(n: nat)
    requires n < 16
    ensures HexValue(HexDigit(n)) == Some(n)
  {}

  lemma ReadEscapeChar(c: char, rest: string)
    ensures ReadChar(EscapeChar(c) + rest) == Some((c, rest))
  {
    var e := EscapeChar(c);
    var t := e + rest;
    assert t[0] == e[0];
    assert t[|e|..] == rest;
    if |e| >= 2 {
      assert t[1] == e[1];
    }
    if |e| == 6 {
      ReadBmpEscape(c, rest);
      assert t[2..] == Hex4(c as int) + rest;
    } else if |e| == 12 {
      var v := c as int - 0x1_0000;
      ReadPairEscape(v, rest);
      assert t[2..] == SurrogatePair(v) + rest;
    }
  }

  lemma ReadBmpEscape(c: char, rest: string)
    requires c as int < 0x1_0000
    ensures ReadEscape(Hex4(c as int) + rest) == Some((c, rest))
  {
    ReadUnitOfHex4(c as int, rest);
    assert (Hex4(c as int) + rest)[4..] == rest;
  }

  lemma ReadPairEscape(v: nat, rest: string)
    requires v < 0x10_0000
    ensures ReadEscape(SurrogatePair(v) + rest) == Some(((0x1_0000 + v) as char, rest))
  {
    var u, w := 0xD800 + v / 0x400, 0xDC00 + v % 0x400;
    var tail := "\\u" + (Hex4(w) + rest);
    var t := Hex4(u) + tail;
    assert SurrogatePair(v) + rest == t;
    ReadUnitOfHex4(u, tail);
    ReadUnitOfHex4(w, rest);
    assert t[4..6] == "\\u";
    assert t[6..] == Hex4(w) + rest;
    assert t[10..] == rest;
    assert (u - 0xD800) * 0x400 + (w - 0xDC00) == v;
  }

  lemma {:induction false} ReadStringOfEscape(s: string, rest: string)
    ensures ReadString(EscapeOn(s, "\"" + rest)) == Some((s, rest))
  {
    if s != "" {
      var tail := EscapeOn(s[1..], "\"" + rest);
      var e := EscapeChar(s[0]);
      ReadEscapeChar(s[0], tail);
      ReadStringOfEscape(s[1..], rest);
      assert (e + tail)[0] == e[0] != '"';
      assert s == [s[0]] + s[1..];
    }
  }

  /* ---------- Integers ---------- */

  predicate IsDigit(c: char) { '0' <= c <= '9' }

  function Digits(n: nat): string {
    if n < 10 then [HexDigit(n)] else Digits(n / 10) + [HexDigit(n % 10)]
  }

  /** `str(i)`. */
  function Decimal(i: int): string {
    if i < 0 then "-" + Digits(-i) else Digits(i)
  }

  /** Reads digits as long as there are any, after a prefix worth `acc`. */
  function ReadDigits(s: string, acc: nat): (r: (nat, string))
    ensures |r.1| <= |s|
  {
    if s != "" && IsDigit(s[0]) then ReadDigits(s[1..], acc * 10 + (s[0] as int - '0' as int))
    else (acc, s)
  }

  lemma {:induction false} ReadDigitsOfDigits(n: nat, rest: string)
    ensures ReadDigits(Digits(n) + rest, 0) == ReadDigits(rest, n)
    ensures IsDigit(Digits(n)[0])
  {
    if n < 10 {
      assert (Digits(n) + rest)[1..] == rest;
    } else {
      var last := [HexDigit(n % 10)] + rest;
      assert Digits(n) + rest == Digits(n / 10) + last;
      ReadDigitsOfDigits(n / 10, last);
      assert last[1..] == rest;
    }
  }

  /* ---------- Values ---------- */

  /** The text of a value, dict members in the order given, then `rest`. */
  function EmitOn(j: Json, rest: string): string
    decreases j, 2
  {
    match j
    case Null => "null" + rest
    case Bool(b) => (if b then "true" else "false") + rest
    case Int(i) => if i < 0 then "-" + (Digits(-i) + rest) else Digits(i) + rest
    case Str(s) => QuoteOn(s, rest)
    case Arr(items) => "[" + EmitArrayOn(items, rest)
    case Obj(members) => "{" + EmitObjectOn(members, rest)
  }

  function EmitArrayOn(items: seq<Json>, rest: string): string
    decreases items, 1
  {
    if items == [] then "]" + rest else EmitOn(items[0], EmitItemsOn(items[1..], rest))
  }

  function EmitObjectOn(members: seq<Member>, rest: string): string
    decreases members, 1
  {
    if members == [] then "}" + rest else EmitMemberOn(members[0], EmitMembersOn(members[1..], rest))
  }

  function EmitItemsOn(items: seq<Json>, rest: string): string
    decreases items, 0
  {
    if items == [] then "]" + rest else "," + EmitOn(items[0], EmitItemsOn(items[1..], rest))
  }

  function EmitMembersOn(members: seq<Member>, rest: string): string
    decreases members, 0
  {
    if members == [] then "}" + rest else "," + EmitMemberOn(members[0], EmitMembersOn(members[1..], rest))
  }

  function EmitMemberOn(m: Member, rest: string): string
    decreases m, 0
  {
    QuoteOn(m.key, ":" + EmitOn(m.value, rest))
  }

  predicate StartsWith(s: string, prefix: string) {
    |prefix| <= |s| && s[..|prefix|] == prefix
  }

  function Read(s: string): (r: Option<(Json, string)>)
    ensures r.Some? ==> |r.value.1| < |s|
    decreases |s|, 1
  {
    if s == "" then None
    else
      match s[0]
      case 'n' => if StartsWith(s, "null") then Some((Null, s[4..])) else None
      case 't' => if StartsWith(s, "true") then Some((Bool(true), s[4..])) else None
      case 'f' => if StartsWith(s, "false") then Some((Bool(false), s[5..])) else None
      case '"' =>
        (match ReadString(s[1..])
         case None => None
         case Some((t, rest)) => Some((Str(t), rest)))
      case '[' =>
        (match ReadArray(s[1..])
         case None => None
         case Some((items, rest)) => Some((Arr(items), rest)))
      case '{' =>
        (match ReadObject(s[1..])
         case None => None
         case Some((members, rest)) => Some((Obj(members), rest)))
      case _ => ReadNumber(s)
  }

  function ReadNumber(s: string): (r: Option<(Json, string)>)
    requires s != ""
    ensures r.Some? ==> |r.value.1| < |s|
  {
    if IsDigit(s[0]) then
      var (n, rest) := ReadDigits(s[1..], s[0] as int - '0' as int);
      Some((Int(n), rest))
    else if s[0] == '-' && |s| > 1 && IsDigit(s[1]) then
      var (n, rest) := ReadDigits(s[1..], 0);
      var i: int := n;
      Some((Int(-i), rest))
    else None
  }

  /** An array after its opening bracket. */
  function ReadArray(s: string): (r: Option<(seq<Json>, string)>)
    ensures r.Some? ==> |r.value.1| < |s|
    decreases |s|, 2
  {
    if s == "" then None
    else if s[0] == ']' then Some(([], s[1..]))
    else
      match Read(s)
      case None => None
      case Some((j, rest)) =>
        match ReadItems(rest)
        case None => None
        case Some((items, rest')) => Some(([j] + items, rest'))
  }

  /** The rest of an array: a comma before every element, then the closing bracket. */
  function ReadItems(s: string): (r: Option<(seq<Json>, string)>)
    ensures r.Some? ==> |r.value.1| < |s|
    decreases |s|, 0
  {
    if s == "" then None
    else if s[0] == ']' then Some(([], s[1..]))
    else if s[0] != ',' then None
    else
      match Read(s[1..])
      case None => None
      case Some((j, rest)) =>
        match ReadItems(rest)
        case None => None
        case Some((items, rest')) => Some(([j] + items, rest'))
  }

  /** An object after its opening brace. */
  function ReadObject(s: string): (r: Option<(seq<Member>, string)>)
    ensures r.Some? ==> |r.value.1| < |s|
    decreases |s|, 2
  {
    if s == "" then None
    else if s[0] == '}' then Some(([], s[1..]))
    else
      match ReadMember(s)
      case None => None
      case Some((m, rest)) =>
        match ReadMembers(rest)
        case None => None
        case Some((members, rest')) => Some(([m] + members, rest'))
  }

  function ReadMembers(s: string): (r: Option<(seq<Member>, string)>)
    ensures r.Some? ==> |r.value.1| < |s|
    decreases |s|, 0
  {
    if s == "" then None
    else if s[0] == '}' then Some(([], s[1..]))
    else if s[0] != ',' then None
    else
      match ReadMember(s[1..])
      case None => None
      case Some((m, rest)) =>
        match ReadMembers(rest)
        case None => None
        case Some((members, rest')) => Some(([m] + members, rest'))
  }

  /** A quoted key, a colon, a value. */
  function ReadMember(s: string): (r: Option<(Member, string)>)
    ensures r.Some? ==> |r.value.1| < |s|
    decreases |s|, 0
  {
    if s == "" || s[0] != '"' then None
    else
      match ReadString(s[1..])
      case None => None
      case Some((key, rest)) =>
        if rest == "" || rest[0] != ':' then None
        else
          match Read(rest[1..])
          case None => None
          case Some((value, rest')) => Some((Member(key, value), rest'))
  }

  /** `json.loads` on the texts this module writes. */
  function Loads(s: string): Option<Json> {
    match Read(s)
    case Some((j, "")) => Some(j)
    case _ => None
  }

  predicate NoDigitNext(rest: string) { rest == "" || !IsDigit(rest[0]) }

  lemma {:induction false} ReadOfEmit(j: Json, rest: string)
    requires NoDigitNext(rest)
    ensures Read(EmitOn(j, rest)) == Some((j, rest))
    decreases j, 2
  {
    match j
    case Null => ReadOfWord(j, rest);
    case Bool(_) => ReadOfWord(j, rest);
    case Int(i) => ReadOfInt(i, rest);
    case Str(s) => ReadStringOfEscape(s, rest);
    case Arr(items) =>
      ReadArrayOfEmit(items, rest);
      ReadOfArr(items, rest);
    case Obj(members) =>
      ReadObjectOfEmit(members, rest);
      ReadOfObj(members, rest);
  }

  lemma ReadOfArr(items: seq<Json>, rest: string)
    requires ReadArray(EmitArrayOn(items, rest)) == Some((items, rest))
    ensures Read(EmitOn(Arr(items), rest)) == Some((Arr(items), rest))
  {
    assert ("[" + EmitArrayOn(items, rest))[1..] == EmitArrayOn(items, rest);
  }

  lemma ReadOfObj(members: seq<Member>, rest: string)
    requires ReadObject(EmitObjectOn(members, rest)) == Some((members, rest))
    ensures Read(EmitOn(Obj(members), rest)) == Some((Obj(members), rest))
  {
    assert ("{" + EmitObjectOn(members, rest))[1..] == EmitObjectOn(members, rest);
  }

  lemma ReadOfWord(j: Json, rest: string)
    requires j.Null? || j.Bool?
    ensures Read(EmitOn(j, rest)) == Some((j, rest))
  {
    assert ("null" + rest)[4..] == rest;
    assert ("true" + rest)[4..] == rest && ("false" + rest)[5..] == rest;
  }

  lemma ReadOfInt(i: int, rest: string)
    requires NoDigitNext(rest)
    ensures Read(EmitOn(Int(i), rest)) == Some((Int(i), rest))
  {
    var n: nat := if i < 0 then -i else i;
    var t := Digits(n) + rest;
    ReadDigitsOfDigits(n, rest);
    assert t[0] == Digits(n)[0];
    assert ReadDigits(rest, n) == (n, rest);
    assert ReadDigits(t, 0) == ReadDigits(t[1..], t[0] as int - '0' as int);
  }

  /** No value's text opens with a closing bracket. */
  lemma EmitStart(j: Json, rest: string)
    ensures EmitOn(j, rest) != "" && EmitOn(j, rest)[0] != ']'
  {
    match j
    case Int(i) => ReadDigitsOfDigits(if i < 0 then -i else i, rest);
    case _ =>
  }

  lemma {:induction false} ReadArrayOfEmit(items: seq<Json>, rest: string)
    ensures ReadArray(EmitArrayOn(items, rest)) == Some((items, rest))
    decreases items, 1
  {
    if items != [] {
      var tail := EmitItemsOn(items[1..], rest);
      EmitStart(items[0], tail);
      ReadOfEmit(items[0], tail);
      ReadItemsOfEmit(items[1..], rest);
      assert items == [items[0]] + items[1..];
    }
  }

  lemma {:induction false} ReadItemsOfEmit(items: seq<Json>, rest: string)
    ensures ReadItems(EmitItemsOn(items, rest)) == Some((items, rest))
    decreases items, 0
  {
    if items != [] {
      ReadOfEmit(items[0], EmitItemsOn(items[1..], rest));
      ReadItemsOfEmit(items[1..], rest);
      assert items == [items[0]] + items[1..];
    }
  }

  lemma {:induction false} ReadObjectOfEmit(members: seq<Member>, rest: string)
    ensures ReadObject(EmitObjectOn(members, rest)) == Some((members, rest))
    decreases members, 1
  {
    if members != [] {
      ReadMemberOfEmit(members[0], EmitMembersOn(members[1..], rest));
      ReadMembersOfEmit(members[1..], rest);
      assert members == [members[0]] + members[1..];
    }
  }

  lemma {:induction false} ReadMembersOfEmit(members: seq<Member>, rest: string)
    ensures ReadMembers(EmitMembersOn(members, rest)) == Some((members, rest))
    decreases members, 0
  {
    if members != [] {
      ReadMemberOfEmit(members[0], EmitMembersOn(members[1..], rest));
      ReadMembersOfEmit(members[1..], rest);
      assert members == [members[0]] + members[1..];
    }
  }

  lemma {:induction false} ReadMemberOfEmit(m: Member, rest: string)
    requires NoDigitNext(rest)
    ensures ReadMember(EmitMemberOn(m, rest)) == Some((m, rest))
    ensures EmitMemberOn(m, rest)[0] == '"'
    decreases m, 0
  {
    var afterKey := ":" + EmitOn(m.value, rest);
    ReadStringOfEscape(m.key, afterKey);
    ReadOfEmit(m.value, rest);
    assert EmitMemberOn(m, rest)[1..] == EscapeOn(m.key, "\"" + afterKey);
  }

  /* ---------- The canonical text: dict members sorted by key, at every level ---------- */

  function KeyOf(m: Member): string { m.key }

  function Canonical(j: Json): Json {
    match j
    case Arr(items) => Arr(CanonicalItems(items))
    case Obj(members) => Obj(SortBy(KeyOf, CanonicalMembers(members)))
    case _ => j
  }

  function CanonicalItems(items: seq<Json>): (r: seq<Json>)
    ensures |r| == |items|
    ensures forall i | 0 <= i < |r| :: r[i] == Canonical(items[i])
  {
    if items == [] then [] else [Canonical(items[0])] + CanonicalItems(items[1..])
  }

  function CanonicalMembers(members: seq<Member>): (r: seq<Member>)
    ensures |r| == |members|
    ensures forall i | 0 <= i < |r| :: r[i] == Member(members[i].key, Canonical(members[i].value))
  {
    if members == [] then []
    else [Member(members[0].key, Canonical(members[0].value))] + CanonicalMembers(members[1..])
  }

  /** `json.dumps(j, sort_keys=True, separators=(",", ":"))`. */
  function Dumps(j: Json): string {
    EmitOn(Canonical(j), "")
  }

  /** Every dict holds each key once, as a Python dict does. */
  ghost predicate WellFormed(j: Json) {
    match j
    case Arr(items) => forall i | 0 <= i < |items| :: WellFormed(items[i])
    case Obj(members) =>
      && (forall i, j | 0 <= i < j < |members| :: members[i].key != members[j].key)
      && (forall i | 0 <= i < |members| :: WellFormed(members[i].value))
    case _ => true
  }

  /** Lists compare in order, dicts by key whatever the order of insertion, and all else must be the same. */
  ghost predicate Equal(a: Json, b: Json)
    decreases a
  {
    match (a, b)
    case (Arr(xs), Arr(ys)) => |xs| == |ys| && forall i | 0 <= i < |xs| :: Equal(xs[i], ys[i])
    case (Obj(ms), Obj(ns)) =>
      |ms| == |ns| && forall i | 0 <= i < |ms| :: HasMember(ms[i], ns)
    case _ => a == b
  }

  ghost predicate HasMember(m: Member, ns: seq<Member>)
    decreases m, 1
  {
    exists k | 0 <= k < |ns| :: SameMember(m, ns[k])
  }

  ghost predicate SameMember(m: Member, n: Member)
    decreases m, 0
  {
    m.key == n.key && Equal(m.value, n.value)
  }

  /** The hashed text can be read back, at any nesting depth. */
  lemma DumpsRoundTrip(j: Json)
    ensures Loads(Dumps(j)) == Some(Canonical(j))
  {
    ReadOfEmit(Canonical(j), "");
  }

  lemma {:induction false} EqualHaveSameCanonical(a: Json, b: Json)
    requires WellFormed(a) && Equal(a, b)
    ensures Canonical(a) == Canonical(b)
  {
    match (a, b)
    case (Arr(xs), Arr(ys)) =>
      forall i | 0 <= i < |xs| ensures Canonical(xs[i]) == Canonical(ys[i]) {
        EqualHaveSameCanonical(xs[i], ys[i]);
      }
      assert CanonicalItems(xs) == CanonicalItems(ys);
    case (Obj(ms), Obj(ns)) =>
      var cs, ds := CanonicalMembers(ms), CanonicalMembers(ns);
      forall i | 0 <= i < |ms| ensures cs[i] in ds {
        assert HasMember(ms[i], ns);
        var k :| 0 <= k < |ns| && SameMember(ms[i], ns[k]);
        EqualHaveSameCanonical(ms[i].value, ns[k].value);
        assert ds[k] == cs[i];
      }
      SortedAlike(cs, ds);
    case _ =>
  }

  lemma {:induction false} SameCanonicalAreEqual(a: Json, b: Json)
    requires Canonical(a) == Canonical(b)
    ensures Equal(a, b)
  {
    match (a, b)
    case (Arr(xs), Arr(ys)) =>
      forall i | 0 <= i < |xs| && i < |ys| ensures Equal(xs[i], ys[i]) {
        assert CanonicalItems(xs)[i] == CanonicalItems(ys)[i];
        SameCanonicalAreEqual(xs[i], ys[i]);
      }
      assert |CanonicalItems(xs)| == |CanonicalItems(ys)|;
    case (Obj(ms), Obj(ns)) =>
      var cs, ds := CanonicalMembers(ms), CanonicalMembers(ns);
      SortedAlikeLength(cs, ds);
      forall i | 0 <= i < |ms| ensures HasMember(ms[i], ns) {
        var k := SortedAlikeIndex(cs, ds, i);
        SameCanonicalAreEqual(ms[i].value, ns[k].value);
        assert SameMember(ms[i], ns[k]);
      }
    case _ =>
  }

  lemma SortedAlikeLength(cs: seq<Member>, ds: seq<Member>)
    requires SortBy(KeyOf, cs) == SortBy(KeyOf, ds)
    ensures |cs| == |ds|
    ensures multiset(cs) == multiset(ds)
  {
    SortByIsSorted(KeyOf, cs);
    SortByIsSorted(KeyOf, ds);
    PermutationMembers(cs, ds);
  }

  lemma SortedAlike(cs: seq<Member>, ds: seq<Member>)
    requires forall i, j | 0 <= i < j < |cs| :: cs[i].key != cs[j].key
    requires |cs| == |ds| && forall i | 0 <= i < |cs| :: cs[i] in ds
    ensures SortBy(KeyOf, cs) == SortBy(KeyOf, ds)
  {
    InclusionIsPermutation(cs, ds);
    SortForgetsOrder(KeyOf, cs, ds);
  }

  lemma SortedAlikeIndex(cs: seq<Member>, ds: seq<Member>, i: nat) returns (k: nat)
    requires SortBy(KeyOf, cs) == SortBy(KeyOf, ds) && i < |cs|
    ensures k < |ds| && ds[k] == cs[i]
  {
    SortedAlikeLength(cs, ds);
    PermutationMembers(cs, ds);
    assert cs[i] in ds;
    k :| 0 <= k < |ds| && ds[k] == cs[i];
  }

  predicate Ascii(s: string) { forall i | 0 <= i < |s| :: s[i] <= '~' }

  lemma {:induction false} QuoteIsAscii(s: string, rest: string)
    requires Ascii(rest)
    ensures Ascii(EscapeOn(s, rest))
  {
    if s != "" {
      QuoteIsAscii(s[1..], rest);
      EscapeIsAscii(s[0]);
      ConcatIsAscii(EscapeChar(s[0]), EscapeOn(s[1..], rest));
    }
  }

  lemma EscapeIsAscii(c: char)
    ensures Ascii(EscapeChar(c))
  {}

  lemma ConcatIsAscii(a: string, b: string)
    requires Ascii(a) && Ascii(b)
    ensures Ascii(a + b)
  {}

  lemma {:induction false} DigitsAreAscii(n: nat)
    ensures Ascii(Digits(n))
  {
    if n >= 10 {
      DigitsAreAscii(n / 10);
    }
  }

  lemma {:induction false} EmitIsAscii(j: Json, rest: string)
    requires Ascii(rest)
    ensures Ascii(EmitOn(j, rest))
    decreases j, 2
  {
    match j
    case Int(i) => DigitsAreAscii(if i < 0 then -i else i);
    case Str(s) => QuoteIsAscii(s, "\"" + rest);
    case Arr(items) =>
      if items != [] {
        EmitItemsAreAscii(items[1..], rest);
        EmitIsAscii(items[0], EmitItemsOn(items[1..], rest));
      }
    case Obj(members) =>
      if members != [] {
        EmitMembersAreAscii(members[1..], rest);
        EmitMemberIsAscii(members[0], EmitMembersOn(members[1..], rest));
      }
    case _ =>
  }

  lemma {:induction false} EmitItemsAreAscii(items: seq<Json>, rest: string)
    requires Ascii(rest)
    ensures Ascii(EmitItemsOn(items, rest))
    decreases items, 0
  {
    if items != [] {
      EmitItemsAreAscii(items[1..], rest);
      EmitIsAscii(items[0], EmitItemsOn(items[1..], rest));
    }
  }

  lemma {:induction false} EmitMembersAreAscii(members: seq<Member>, rest: string)
    requires Ascii(rest)
    ensures Ascii(EmitMembersOn(members, rest))
    decreases members, 0
  {
    if members != [] {
      EmitMembersAreAscii(members[1..], rest);
      EmitMemberIsAscii(members[0], EmitMembersOn(members[1..], rest));
    }
  }

  lemma {:induction false} EmitMemberIsAscii(m: Member, rest: string)
    requires Ascii(rest)
    ensures Ascii(EmitMemberOn(m, rest))
    decreases m, 0
  {
    EmitIsAscii(m.value, rest);
    QuoteIsAscii(m.key, "\"" + (":" + EmitOn(m.value, rest)));
  }

  /** So encoding the text to bytes before hashing changes nothing. */
  lemma {:induction false} DumpsIsAscii(j: Json)
    ensures Ascii(Dumps(j))
  {
    EmitIsAscii(Canonical(j), "");
  }

  /** Two values share a text exactly when they differ in nothing but the order of insertion. */
  lemma {:induction false} DumpsInjective(a: Json, b: Json)
    requires WellFormed(a)
    ensures Dumps(a) == Dumps(b) <==> Equal(a, b)
  {
    DumpsRoundTrip(a);
    DumpsRoundTrip(b);
    if Equal(a, b) { EqualHaveSameCanonical(a, b); }
    if Dumps(a) == Dumps(b) { SameCanonicalAreEqual(a, b); }
  }

  /* ---------- What the text looks like ---------- */

  predicate IsLowerHex(c: char) { '0' <= c <= '9' || 'a' <= c <= 'f' }

  /** Four lower-case hexadecimal digits with this value. */
  predicate SpellsUnit(h: string, unit: int) {
    |h| == 4 && (forall i | 0 <= i < 4 :: IsLowerHex(h[i])) && ReadUnit(h) == Some(unit)
  }

  lemma Hex4Spells(n: nat)
    requires n < 0x1_0000
    ensures SpellsUnit(Hex4(n), n)
  {
    FourDigits(n);
    assert Hex4(n) + "" == Hex4(n);
    ReadUnitOfHex4(n, "");
  }

  predicate Printable(c: char) { ' ' <= c <= '~' && c != '"' && c != '\\' }

  /** Printable ASCII is written as it is, apart from the quote and the backslash. */
  lemma PrintableIsItself(c: char)
    requires Printable(c)
    ensures EscapeChar(c) == [c]
  {}

  /** Seven characters have a short escape. */
  lemma ShortEscapes()
    ensures EscapeChar('"') == "\\\"" && EscapeChar('\\') == "\\\\"
    ensures EscapeChar('\n') == "\\n" && EscapeChar('\r') == "\\r" && EscapeChar('\t') == "\\t"
    ensures EscapeChar(12 as char) == "\\f" && EscapeChar(8 as char) == "\\b"
  {}

  /** All others are `\u` and lower-case digits. */
  lemma UnicodeEscape(c: char)
    requires c > '~' || (c < ' ' && c as int !in {8, 9, 10, 12, 13})
    requires c as int < 0x1_0000
    ensures exists h :: EscapeChar(c) == "\\u" + h && SpellsUnit(h, c as int)
  {
    assert EscapeChar(c) == "\\u" + Hex4(c as int);
    Hex4Spells(c as int);
  }

  /** Beyond the basic plane, a surrogate pair. */
  lemma PairEscape(c: char, high: nat, low: nat)
    requires c as int >= 0x1_0000
    requires high == (c as int - 0x1_0000) / 0x400 && low == (c as int - 0x1_0000) % 0x400
    ensures exists h, l ::
      EscapeChar(c) == "\\u" + PairText(h, l) && SpellsUnit(h, 0xD800 + high) && SpellsUnit(l, 0xDC00 + low)
  {
    assert high < 0x400 && low < 0x400;
    assert EscapeChar(c) == "\\u" + PairText(Hex4(0xD800 + high), Hex4(0xDC00 + low));
    Hex4Spells(0xD800 + high);
    Hex4Spells(0xDC00 + low);
  }

  function PairText(h: string, l: string): string { h + "\\u" + l }

  function Quote(s: string): string { QuoteOn(s, "") }

  lemma {:induction false} EscapeSplits(s: string, rest: string, more: string)
    ensures EscapeOn(s, rest + more) == EscapeOn(s, rest) + more
  {
    if s != "" {
      EscapeSplits(s[1..], rest, more);
      assert EscapeChar(s[0]) + (EscapeOn(s[1..], rest) + more) == EscapeChar(s[0]) + EscapeOn(s[1..], rest) + more;
    }
  }

  lemma QuoteSplits(s: string, rest: string, more: string)
    ensures QuoteOn(s, rest + more) == QuoteOn(s, rest) + more
  {
    EscapeSplits(s, "\"" + rest, more);
    assert "\"" + (rest + more) == ("\"" + rest) + more;
  }

  predicate Plain(s: string) { forall i | 0 <= i < |s| :: Printable(s[i]) }

  lemma {:induction false} PlainEscape(s: string, rest: string)
    requires Plain(s)
    ensures EscapeOn(s, rest) == s + rest
  {
    if s != "" {
      PlainEscape(s[1..], rest);
      PrintableIsItself(s[0]);
      PrependOne(s, rest);
    }
  }

  lemma PrependOne(s: string, rest: string)
    requires s != ""
    ensures [s[0]] + (s[1..] + rest) == s + rest
  {}

  /** A plain text is quoted as it is. */
  lemma PlainQuote(s: string)
    requires Plain(s)
    ensures Quote(s) == "\"" + (s + "\"")
  {
    assert "\"" + "" == "\"";
    PlainEscape(s, "\"");
  }

  lemma Regroup(a: string, b: string, c: string)
    ensures a + (b + c) == (a + b) + c
  {}

  lemma ScalarSplits(j: Json, rest: string, more: string)
    requires j.Null? || j.Bool? || j.Int?
    ensures EmitOn(j, rest + more) == EmitOn(j, rest) + more
  {
    match j
    case Null => Regroup("null", rest, more);
    case Bool(b) => Regroup(if b then "true" else "false", rest, more);
    case Int(i) =>
      Regroup(Digits(if i < 0 then -i else i), rest, more);
      Regroup("-", Digits(if i < 0 then -i else i) + rest, more);
    case _ =>
  }

  lemma {:induction false} EmitSplits(j: Json, rest: string, more: string)
    ensures EmitOn(j, rest + more) == EmitOn(j, rest) + more
    decreases j, 2
  {
    match j
    case Str(s) => QuoteSplits(s, rest, more);
    case Arr(items) =>
      if items == [] {
        Regroup("]", rest, more);
        Regroup("[", "]" + rest, more);
      } else {
        EmitItemsSplit(items[1..], rest, more);
        EmitSplits(items[0], EmitItemsOn(items[1..], rest), more);
        Regroup("[", EmitArrayOn(items, rest), more);
      }
    case Obj(members) =>
      if members == [] {
        Regroup("}", rest, more);
        Regroup("{", "}" + rest, more);
      } else {
        EmitMembersSplit(members[1..], rest, more);
        EmitMemberSplits(members[0], EmitMembersOn(members[1..], rest), more);
        Regroup("{", EmitObjectOn(members, rest), more);
      }
    case _ => ScalarSplits(j, rest, more);
  }

  lemma {:induction false} EmitItemsSplit(items: seq<Json>, rest: string, more: string)
    ensures EmitItemsOn(items, rest + more) == EmitItemsOn(items, rest) + more
    decreases items, 0
  {
    if items == [] {
      assert "]" + (rest + more) == "]" + rest + more;
    } else {
      EmitItemsSplit(items[1..], rest, more);
      EmitSplits(items[0], EmitItemsOn(items[1..], rest), more);
    }
  }

  lemma {:induction false} EmitMembersSplit(members: seq<Member>, rest: string, more: string)
    ensures EmitMembersOn(members, rest + more) == EmitMembersOn(members, rest) + more
    decreases members, 0
  {
    if members == [] {
      assert "}" + (rest + more) == "}" + rest + more;
    } else {
      EmitMembersSplit(members[1..], rest, more);
      EmitMemberSplits(members[0], EmitMembersOn(members[1..], rest), more);
    }
  }

  lemma {:induction false} EmitMemberSplits(m: Member, rest: string, more: string)
    ensures EmitMemberOn(m, rest + more) == EmitMemberOn(m, rest) + more
    decreases m, 0
  {
    EmitSplits(m.value, rest, more);
    QuoteSplits(m.key, ":" + EmitOn(m.value, rest), more);
    assert ":" + (EmitOn(m.value, rest) + more) == (":" + EmitOn(m.value, rest)) + more;
  }

  /** `",".join(texts)`. */
  function Commas(texts: seq<string>): string {
    if texts == [] then ""
    else if |texts| == 1 then texts[0]
    else texts[0] + "," + Commas(texts[1..])
  }

  function ItemTexts(items: seq<Json>): (r: seq<string>)
    ensures |r| == |items| && forall i | 0 <= i < |r| :: r[i] == EmitOn(items[i], "")
  {
    seq(|items|, i requires 0 <= i < |items| => EmitOn(items[i], ""))
  }

  function MemberTexts(members: seq<Member>): (r: seq<string>)
    ensures |r| == |members|
    ensures forall i | 0 <= i < |r| :: r[i] == MemberText(members[i])
  {
    seq(|members|, i requires 0 <= i < |members| => MemberText(members[i]))
  }

  function MemberText(m: Member): string { Quote(m.key) + ":" + EmitOn(m.value, "") }

  lemma EmitThen(j: Json, rest: string)
    ensures EmitOn(j, rest) == EmitOn(j, "") + rest
  {
    EmitSplits(j, "", rest);
    assert "" + rest == rest;
  }

  lemma EmitRest(items: seq<Json>)
    ensures EmitItemsOn(items, "") == if items == [] then "]" else "," + EmitArrayOn(items, "")
  {}

  lemma CommasCons(text: string, texts: seq<string>, close: string)
    ensures Commas([text] + texts) + close
         == text + if texts == [] then close else "," + (Commas(texts) + close)
  {
    assert ([text] + texts)[1..] == texts;
    if texts != [] {
      assert text + "," + Commas(texts) + close == text + ("," + (Commas(texts) + close));
    }
  }

  lemma {:induction false} ItemsJoin(items: seq<Json>)
    requires items != []
    ensures EmitArrayOn(items, "") == Commas(ItemTexts(items)) + "]"
  {
    var (texts, rest) := (ItemTexts(items), items[1..]);
    EmitThen(items[0], EmitItemsOn(rest, ""));
    EmitRest(rest);
    CommasCons(texts[0], ItemTexts(rest), "]");
    assert texts == [texts[0]] + ItemTexts(rest);
    if rest != [] {
      ItemsJoin(rest);
    }
  }

  lemma EmitMemberIs(m: Member, rest: string)
    ensures EmitMemberOn(m, rest) == MemberText(m) + rest
  {
    EmitThen(m.value, rest);
    QuoteSplits(m.key, "", ":" + EmitOn(m.value, rest));
    assert "" + (":" + EmitOn(m.value, rest)) == ":" + EmitOn(m.value, rest);
    assert Quote(m.key) + (":" + (EmitOn(m.value, "") + rest)) == Quote(m.key) + ":" + EmitOn(m.value, "") + rest;
  }

  lemma EmitMembersRest(members: seq<Member>)
    ensures EmitMembersOn(members, "") == if members == [] then "}" else "," + EmitObjectOn(members, "")
  {}

  lemma {:induction false} MembersJoin(members: seq<Member>)
    requires members != []
    ensures EmitObjectOn(members, "") == Commas(MemberTexts(members)) + "}"
  {
    var (texts, rest) := (MemberTexts(members), members[1..]);
    EmitMemberIs(members[0], EmitMembersOn(rest, ""));
    EmitMembersRest(rest);
    CommasCons(texts[0], MemberTexts(rest), "}");
    assert texts == [texts[0]] + MemberTexts(rest);
    if rest != [] {
      MembersJoin(rest);
    }
  }

  /** The text of a value from the texts of its parts: no white space, items in order, members in key order. */
  lemma DumpsReads(j: Json)
    ensures
      match j
      case Null => Dumps(j) == "null"
      case Bool(b) => Dumps(j) == if b then "true" else "false"
      case Int(i) => Dumps(j) == Decimal(i)
      case Str(s) => Dumps(j) == Quote(s)
      case Arr(items) => Dumps(j) == "[" + (Commas(ItemTexts(CanonicalItems(items))) + "]")
      case Obj(members) =>
        Dumps(j) == "{" + (Commas(MemberTexts(SortBy(KeyOf, CanonicalMembers(members)))) + "}")
  {
    match j
    case Arr(items) =>
      var cs := CanonicalItems(items);
      if cs == [] {
        assert ItemTexts(cs) == [];
      } else {
        ItemsJoin(cs);
      }
    case Obj(members) =>
      var cs := SortBy(KeyOf, CanonicalMembers(members));
      if cs == [] {
        assert MemberTexts(cs) == [];
      } else {
        MembersJoin(cs);
      }
    case _ =>
  }

  /** Decimal numbers have no leading zero. */
  lemma {:induction false} DigitsLead(n: nat)
    ensures Digits(n) != "" && forall i | 0 <= i < |Digits(n)| :: IsDigit(Digits(n)[i])
    ensures n > 0 ==> Digits(n)[0] != '0'
    ensures n == 0 ==> Digits(n) == "0"
  {
    if n >= 10 {
      DigitsLead(n / 10);
    }
  }
}

/** JSON text as Python's `json.dumps` prints it (ASCII only, separators ", " and ": ") and a reader for
    the grammar of RFC 8259. */
module Json {
  import opened Common
  import opened Unicode

  /** A number carries its literal, so that no floating-point conversion is modelled. */
  datatype Json =
    | Null
    | Bool(b: bool)
    | Num(lexeme: string)
    | Text(text: Str)
    | Arr(items: seq<Json>)
    | Obj(fields: seq<Field>)

  datatype Field = Field(key: Str, value: Json)

  // ----- Strings (section 7 of RFC 8259) -----

  function HexDigit(n: int): char
    requires 0 <= n < 16
  {
    if n < 10 then ('0' as int + n) as char else ('a' as int + n - 10) as char
  }

  function HexValue(c: char): Option<int> {
    if '0' <= c <= '9' then Some(c as int - '0' as int)
    else if 'a' <= c <= 'f' then Some(c as int - 'a' as int + 10)
    else if 'A' <= c <= 'F' then Some(c as int - 'A' as int + 10)
    else None
  }

  function Hex4(u: Unit): string {
    [HexDigit(u / 4096), HexDigit(u / 256 % 16), HexDigit(u / 16 % 16), HexDigit(u % 16)]
  }

  function ReadHex4(s: string): Option<Unit>
    requires |s| >= 4
  {
    match (HexValue(s[0]), HexValue(s[1]), HexValue(s[2]), HexValue(s[3]))
    case (Some(a), Some(b), Some(c), Some(d)) =>
      var u := 4096 * a + 256 * b + 16 * c + d;
      if 0 <= u < 0x1_0000 then Some(u) else None
    case _ => None
  }

  function EscapeUnit(u: Unit): string {
    if u == 0x22 then "\\\""
    else if u == 0x5C then "\\\\"
    else if u == 0x0A then "\\n"
    else if u == 0x0D then "\\r"
    else if u == 0x09 then "\\t"
    else if u == 0x0C then "\\f"
    else if u == 0x08 then "\\b"
    else if 0x20 <= u < 0x7F then [u as char]
    else "\\u" + Hex4(u)
  }

  function Escape(us: Units): string {
    if us == [] then "" else EscapeUnit(us[0]) + Escape(us[1..])
  }

  function Quote(s: Str): string {
    "\"" + Escape(Utf16(s)) + "\""
  }

  function ReadEscape(c: char): Option<Unit> {
    match c
    case '"' => Some(0x22)
    case '\\' => Some(0x5C)
    case '/' => Some(0x2F)
    case 'b' => Some(0x08)
    case 'f' => Some(0x0C)
    case 'n' => Some(0x0A)
    case 'r' => Some(0x0D)
    case 't' => Some(0x09)
    case _ => None
  }

  /** One character of a string body and the number of text characters it takes. */
  function ReadChar(s: string): Option<(Units, nat)>
    requires s != ""
    ensures ReadChar(s).Some? ==> 1 <= ReadChar(s).value.1 <= |s|
  {
    if s[0] == '\\' then
      if |s| < 2 then None
      else if s[1] == 'u' then
        if |s| < 6 then None
        else match ReadHex4(s[2..6]) { case Some(u) => Some(([u], 6)) case None => None }
      else match ReadEscape(s[1]) { case Some(u) => Some(([u], 2)) case None => None }
    else if s[0] < ' ' then None
    else Some((UnitsOf(s[0] as int), 1))
  }

  /** Reads a string body up to and including its closing quote. */
  function ReadString(s: string): (r: Option<(Units, string)>)
    ensures r.Some? ==> |r.value.1| < |s|
    decreases |s|
  {
    if s == "" then None
    else if s[0] == '"' then Some(([], s[1..]))
    else match ReadChar(s)
      case None => None
      case Some((us, n)) =>
        match ReadString(s[n..])
        case None => None
        case Some((more, rest)) => Some((us + more, rest))
  }

  lemma HexInverse(n: int)
    requires 0 <= n < 16
    ensures HexValue(HexDigit(n)) == Some(n)
  {
  }

  lemma {:induction false} Hex4Inverse(u: Unit)
    ensures ReadHex4(Hex4(u)) == Some(u)
  {
    HexInverse(u / 4096);
    HexInverse(u / 256 % 16);
    HexInverse(u / 16 % 16);
    HexInverse(u % 16);
    HexDigits(u);
  }

  lemma HexDigits(u: int)
    ensures u == 4096 * (u / 4096) + 256 * (u / 256 % 16) + 16 * (u / 16 % 16) + u % 16
  {
    assert u / 16 == 16 * (u / 256) + u / 16 % 16;
    assert u / 256 == 16 * (u / 4096) + u / 256 % 16;
  }

  lemma {:induction false} EscapeInverse(u: Unit, rest: string)
    ensures EscapeUnit(u) != "" && EscapeUnit(u)[0] != '"'
    ensures ReadChar(EscapeUnit(u) + rest) == Some(([u], |EscapeUnit(u)|))
  {
    var s := EscapeUnit(u) + rest;
    if s[0] == '\\' && s[1] == 'u' {
      assert s[2..6] == Hex4(u);
      Hex4Inverse(u);
    }
  }

  lemma {:induction false} StringRoundTrip(us: Units, rest: string)
    ensures ReadString(Escape(us) + "\"" + rest) == Some((us, rest))
  {
    var s := Escape(us) + "\"" + rest;
    if us == [] {
      assert s == "\"" + rest;
    } else {
      var tail := Escape(us[1..]) + "\"" + rest;
      assert s == EscapeUnit(us[0]) + tail;
      EscapeInverse(us[0], tail);
      assert s[|EscapeUnit(us[0])|..] == tail;
      StringRoundTrip(us[1..], rest);
      assert [us[0]] + us[1..] == us;
    }
  }

  // ----- Numbers (section 6 of RFC 8259) -----

  predicate Digit(c: char) {
    '0' <= c <= '9'
  }

  predicate NumChar(c: char) {
    Digit(c) || c == '-' || c == '+' || c == '.' || c == 'e' || c == 'E'
  }

  function SpanNum(s: string): (n: nat)
    ensures n <= |s|
    ensures forall i | 0 <= i < n :: NumChar(s[i])
    ensures n < |s| ==> !NumChar(s[n])
  {
    if s == "" || !NumChar(s[0]) then 0 else 1 + SpanNum(s[1..])
  }

  predicate Digits(s: string) {
    s != "" && forall i | 0 <= i < |s| :: Digit(s[i])
  }

  function SpanDigits(s: string): (n: nat)
    ensures n <= |s|
  {
    if s == "" || !Digit(s[0]) then 0 else 1 + SpanDigits(s[1..])
  }

  predicate Exponent(s: string) {
    s != "" && (s[0] == 'e' || s[0] == 'E')
    && Digits(if |s| > 1 && (s[1] == '+' || s[1] == '-') then s[2..] else s[1..])
  }

  predicate FractionAndExponent(s: string) {
    if s == "" then true
    else if s[0] == '.' then
      var n := SpanDigits(s[1..]);
      n > 0 && (s[1 + n..] == "" || Exponent(s[1 + n..]))
    else Exponent(s)
  }

  /** The literal of a number: sign, integer part without leading zeros, fraction, exponent. */
  predicate Number(s: string) {
    && (forall i | 0 <= i < |s| :: NumChar(s[i]))
    && var t := if s != "" && s[0] == '-' then s[1..] else s;
       var n := SpanDigits(t);
       n > 0 && (t[0] == '0' ==> n == 1) && FractionAndExponent(t[n..])
  }

  // ----- Printing -----

  function Print(v: Json): string
    decreases v
  {
    match v
    case Null => "null"
    case Bool(b) => if b then "true" else "false"
    case Num(lexeme) => lexeme
    case Text(s) => Quote(s)
    case Arr(items) => if items == [] then "[]" else "[" + Print(items[0]) + PrintItems(items[1..])
    case Obj(fields) => if fields == [] then "{}" else "{" + PrintField(fields[0]) + PrintFields(fields[1..])
  }

  function PrintItems(items: seq<Json>): string
    decreases items
  {
    if items == [] then "]" else ", " + Print(items[0]) + PrintItems(items[1..])
  }

  function PrintField(f: Field): string
    decreases f
  {
    Quote(f.key) + ": " + Print(f.value)
  }

  function PrintFields(fields: seq<Field>): string
    decreases fields
  {
    if fields == [] then "}" else ", " + PrintField(fields[0]) + PrintFields(fields[1..])
  }

  // ----- Reading -----

  predicate Space(c: char) {
    c == ' ' || c == '\t' || c == '\n' || c == '\r'
  }

  function SkipSpace(s: string): (r: string)
    ensures |r| <= |s|
    ensures r != "" ==> !Space(r[0])
  {
    if s != "" && Space(s[0]) then SkipSpace(s[1..]) else s
  }

  function Strip(s: string, literal: string, v: Json): Option<(Json, string)> {
    if literal <= s then Some((v, s[|literal|..])) else None
  }

  function ReadValue(s: string): (r: Option<(Json, string)>)
    ensures r.Some? ==> |r.value.1| < |s|
    decreases |s|, 1
  {
    var t := SkipSpace(s);
    if t == "" then None else ReadToken(t)
  }

  function ReadToken(t: string): (r: Option<(Json, string)>)
    requires t != ""
    ensures r.Some? ==> |r.value.1| < |t|
    decreases |t|, 0
  {
    if t[0] == '"' then
      match ReadString(t[1..]) { case None => None case Some((us, rest)) => Some((Text(us), rest)) }
    else if t[0] == '[' then
      var u := SkipSpace(t[1..]);
      if u != "" && u[0] == ']' then Some((Arr([]), u[1..]))
      else match ReadItems(t[1..]) { case None => None case Some((vs, rest)) => Some((Arr(vs), rest)) }
    else if t[0] == '{' then
      var u := SkipSpace(t[1..]);
      if u != "" && u[0] == '}' then Some((Obj([]), u[1..]))
      else match ReadFields(t[1..]) { case None => None case Some((fs, rest)) => Some((Obj(fs), rest)) }
    else if t[0] == 'n' then Strip(t, "null", Null)
    else if t[0] == 't' then Strip(t, "true", Bool(true))
    else if t[0] == 'f' then Strip(t, "false", Bool(false))
    else
      var n := SpanNum(t);
      if Number(t[..n]) then Some((Num(t[..n]), t[n..])) else None
  }

  function ReadItems(s: string): (r: Option<(seq<Json>, string)>)
    ensures r.Some? ==> |r.value.1| < |s|
    decreases |s|, 2
  {
    match ReadValue(s)
    case None => None
    case Some((v, rest)) =>
      var t := SkipSpace(rest);
      if t == "" then None
      else if t[0] == ']' then Some(([v], t[1..]))
      else if t[0] == ',' then
        match ReadItems(t[1..]) { case None => None case Some((vs, r)) => Some(([v] + vs, r)) }
      else None
  }

  function ReadField(s: string): (r: Option<(Field, string)>)
    ensures r.Some? ==> |r.value.1| < |s|
    decreases |s|, 2
  {
    var t := SkipSpace(s);
    if t == "" || t[0] != '"' then None
    else match ReadString(t[1..])
      case None => None
      case Some((key, r0)) =>
        var u := SkipSpace(r0);
        if u == "" || u[0] != ':' then None
        else match ReadValue(u[1..]) { case None => None case Some((v, rest)) => Some((Field(key, v), rest)) }
  }

  function ReadFields(s: string): (r: Option<(seq<Field>, string)>)
    ensures r.Some? ==> |r.value.1| < |s|
    decreases |s|, 3
  {
    match ReadField(s)
    case None => None
    case Some((f, rest)) =>
      var t := SkipSpace(rest);
      if t == "" then None
      else if t[0] == '}' then Some(([f], t[1..]))
      else if t[0] == ',' then
        match ReadFields(t[1..]) { case None => None case Some((fs, r)) => Some(([f] + fs, r)) }
      else None
  }

  /** A whole text is one value with nothing but white space after it. */
  function Read(s: string): Option<Json> {
    match ReadValue(s)
    case Some((v, rest)) => if SkipSpace(rest) == "" then Some(v) else None
    case None => None
  }

  // ----- The round trip -----

  /** What JavaScript gets: the same value with every string in UTF-16 units. */
  function Wire(v: Json): Json
    decreases v
  {
    match v
    case Text(s) => Text(Utf16(s))
    case Arr(items) => Arr(WireItems(items))
    case Obj(fields) => Obj(WireFields(fields))
    case _ => v
  }

  function WireItems(items: seq<Json>): seq<Json>
    decreases items
  {
    if items == [] then [] else [Wire(items[0])] + WireItems(items[1..])
  }

  function WireField(f: Field): Field
    decreases f
  {
    Field(Utf16(f.key), Wire(f.value))
  }

  function WireFields(fields: seq<Field>): seq<Field>
    decreases fields
  {
    if fields == [] then [] else [WireField(fields[0])] + WireFields(fields[1..])
  }

  /** Every number literal is one. */
  predicate Valid(v: Json)
    decreases v
  {
    match v
    case Num(lexeme) => Number(lexeme)
    case Arr(items) => forall i | 0 <= i < |items| :: Valid(items[i])
    case Obj(fields) => forall i | 0 <= i < |fields| :: Valid(fields[i].value)
    case _ => true
  }

  predicate Delimited(rest: string) {
    rest == "" || !NumChar(rest[0])
  }

  lemma {:induction false} FirstChar(v: Json)
    requires Valid(v)
    ensures Print(v) != "" && !Space(Print(v)[0]) && Print(v)[0] != ']'
  {
  }

  lemma SpaceSkipped(s: string)
    ensures ReadValue(" " + s) == ReadValue(s)
    ensures ReadItems(" " + s) == ReadItems(s)
  {
    assert SkipSpace(" " + s) == SkipSpace(s) by { assert (" " + s)[1..] == s; }
  }

  lemma FieldSpaceSkipped(s: string)
    ensures ReadFields(" " + s) == ReadFields(s)
  {
    assert SkipSpace(" " + s) == SkipSpace(s) by { assert (" " + s)[1..] == s; }
  }

  lemma {:induction false} SpanOfNumber(lexeme: string, rest: string)
    requires forall i | 0 <= i < |lexeme| :: NumChar(lexeme[i])
    requires Delimited(rest)
    ensures SpanNum(lexeme + rest) == |lexeme|
  {
    if lexeme == "" {
      assert lexeme + rest == rest;
    } else {
      assert (lexeme + rest)[1..] == lexeme[1..] + rest;
      SpanOfNumber(lexeme[1..], rest);
    }
  }

  lemma {:induction false} QuoteRead(t: Str, rest: string)
    ensures (Quote(t) + rest)[0] == '"'
    ensures ReadString((Quote(t) + rest)[1..]) == Some((Utf16(t), rest))
  {
    StringRoundTrip(Utf16(t), rest);
    QuoteTail(Escape(Utf16(t)), rest);
  }

  lemma QuoteTail(e: string, rest: string)
    ensures ("\"" + e + "\"" + rest)[0] == '"' && ("\"" + e + "\"" + rest)[1..] == e + "\"" + rest
  {
  }

  lemma {:induction false} TextRoundTrip(t: Str, rest: string)
    ensures ReadToken(Quote(t) + rest) == Some((Text(Utf16(t)), rest))
  {
    QuoteRead(t, rest);
  }

  lemma {:induction false} NumRoundTrip(lexeme: string, rest: string)
    requires Number(lexeme) && Delimited(rest)
    ensures ReadToken(lexeme + rest) == Some((Num(lexeme), rest))
  {
    SpanOfNumber(lexeme, rest);
    var s := lexeme + rest;
    assert s[0] == lexeme[0];
    assert s[..|lexeme|] == lexeme && s[|lexeme|..] == rest;
  }

  lemma ConstantRoundTrip(v: Json, rest: string)
    requires v.Null? || v.Bool?
    ensures ReadToken(Print(v) + rest) == Some((v, rest))
  {
    var s := Print(v) + rest;
    assert s[|Print(v)|..] == rest;
  }

  lemma ArrayToken(body: string)
    requires body != "" && !Space(body[0]) && body[0] != ']'
    ensures ReadToken("[" + body) ==
              match ReadItems(body) { case None => None case Some((vs, rest)) => Some((Arr(vs), rest)) }
  {
    assert ("[" + body)[1..] == body;
    assert SkipSpace(body) == body;
  }

  lemma ObjectToken(body: string)
    requires body != "" && !Space(body[0]) && body[0] != '}'
    ensures ReadToken("{" + body) ==
              match ReadFields(body) { case None => None case Some((fs, rest)) => Some((Obj(fs), rest)) }
  {
    assert ("{" + body)[1..] == body;
    assert SkipSpace(body) == body;
  }

  lemma {:induction false} ValueRoundTrip(v: Json, rest: string)
    requires Valid(v) && Delimited(rest)
    ensures ReadValue(Print(v) + rest) == Some((Wire(v), rest))
    decreases v
  {
    FirstChar(v);
    var s := Print(v) + rest;
    assert SkipSpace(s) == s;
    match v
    case Null => ConstantRoundTrip(v, rest);
    case Bool(_) => ConstantRoundTrip(v, rest);
    case Num(lexeme) => NumRoundTrip(lexeme, rest);
    case Text(t) => TextRoundTrip(t, rest);
    case Arr(items) => ArrayRoundTrip(items, rest);
    case Obj(fields) => ObjectRoundTrip(fields, rest);
  }

  lemma {:induction false} ArrayRoundTrip(items: seq<Json>, rest: string)
    requires (forall i | 0 <= i < |items| :: Valid(items[i]))
    ensures ReadToken(Print(Arr(items)) + rest) == Some((Arr(WireItems(items)), rest))
    decreases items, 1
  {
    if items == [] {
      assert (Print(Arr(items)) + rest)[1..] == "]" + rest;
    } else {
      var body := Print(items[0]) + (PrintItems(items[1..]) + rest);
      Assoc("[" + Print(items[0]), PrintItems(items[1..]), rest);
      Assoc("[", Print(items[0]), PrintItems(items[1..]) + rest);
      FirstChar(items[0]);
      ArrayToken(body);
      ItemsRoundTrip(items, rest);
    }
  }

  lemma {:induction false} ObjectRoundTrip(fields: seq<Field>, rest: string)
    requires (forall i | 0 <= i < |fields| :: Valid(fields[i].value))
    ensures ReadToken(Print(Obj(fields)) + rest) == Some((Obj(WireFields(fields)), rest))
    decreases fields, 1
  {
    if fields == [] {
      assert (Print(Obj(fields)) + rest)[1..] == "}" + rest;
    } else {
      var body := PrintField(fields[0]) + (PrintFields(fields[1..]) + rest);
      Assoc("{" + PrintField(fields[0]), PrintFields(fields[1..]), rest);
      Assoc("{", PrintField(fields[0]), PrintFields(fields[1..]) + rest);
      ObjectToken(body);
      FieldsRoundTrip(fields, rest);
    }
  }

  lemma ItemsEnd(s: string, v: Json, rest: string)
    requires ReadValue(s) == Some((v, "]" + rest))
    ensures ReadItems(s) == Some(([v], rest))
  {
    assert SkipSpace("]" + rest) == "]" + rest;
  }

  lemma ItemsNext(s: string, v: Json, next: string, vs: seq<Json>, rest: string)
    requires ReadValue(s) == Some((v, ", " + next)) && ReadItems(next) == Some((vs, rest))
    ensures ReadItems(s) == Some(([v] + vs, rest))
  {
    var tail := ", " + next;
    assert SkipSpace(tail) == tail;
    assert tail[1..] == " " + next;
    SpaceSkipped(next);
  }

  lemma {:induction false} ItemsRoundTrip(items: seq<Json>, rest: string)
    requires items != [] && (forall i | 0 <= i < |items| :: Valid(items[i]))
    ensures ReadItems(Print(items[0]) + (PrintItems(items[1..]) + rest)) == Some((WireItems(items), rest))
    decreases items, 0
  {
    var tail := PrintItems(items[1..]) + rest;
    var s := Print(items[0]) + tail;
    ValueRoundTrip(items[0], tail);
    var more := items[1..];
    if more == [] {
      assert PrintItems(more) == "]" && WireItems(items) == [Wire(items[0])];
      ItemsEnd(s, Wire(items[0]), rest);
    } else {
      var next := Print(more[0]) + (PrintItems(more[1..]) + rest);
      Assoc(", " + Print(more[0]), PrintItems(more[1..]), rest);
      Assoc(", ", Print(more[0]), PrintItems(more[1..]) + rest);
      ItemsRoundTrip(more, rest);
      ItemsNext(s, Wire(items[0]), next, WireItems(more), rest);
    }
  }

  lemma ColonStep(body: string, value: string, v: Json, rest: string)
    requires body == ": " + value && ReadValue(value) == Some((v, rest))
    ensures SkipSpace(body) == body && body[0] == ':' && ReadValue(body[1..]) == Some((v, rest))
  {
    assert body[1..] == " " + value;
    SpaceSkipped(value);
  }

  lemma FieldStep(key: Str, body: string, value: string, v: Json, rest: string)
    requires body == ": " + value && ReadValue(value) == Some((v, rest))
    ensures ReadField(Quote(key) + body) == Some((Field(Utf16(key), v), rest))
  {
    var s := Quote(key) + body;
    QuoteRead(key, body);
    assert SkipSpace(s) == s;
    ColonStep(body, value, v, rest);
  }

  lemma {:induction false} FieldRoundTrip(f: Field, rest: string)
    requires Valid(f.value) && Delimited(rest)
    ensures ReadField(PrintField(f) + rest) == Some((WireField(f), rest))
    decreases f
  {
    ValueRoundTrip(f.value, rest);
    var value := Print(f.value) + rest;
    var body := ": " + value;
    FieldStep(f.key, body, value, Wire(f.value), rest);
    Assoc(Quote(f.key) + ": ", Print(f.value), rest);
    Assoc(Quote(f.key), ": ", value);
  }

  lemma FieldsEnd(s: string, f: Field, rest: string)
    requires ReadField(s) == Some((f, "}" + rest))
    ensures ReadFields(s) == Some(([f], rest))
  {
    assert SkipSpace("}" + rest) == "}" + rest;
  }

  lemma FieldsNext(s: string, f: Field, next: string, fs: seq<Field>, rest: string)
    requires ReadField(s) == Some((f, ", " + next)) && ReadFields(next) == Some((fs, rest))
    ensures ReadFields(s) == Some(([f] + fs, rest))
  {
    var tail := ", " + next;
    assert SkipSpace(tail) == tail;
    assert tail[1..] == " " + next;
    FieldSpaceSkipped(next);
  }

  lemma {:induction false} FieldsRoundTrip(fields: seq<Field>, rest: string)
    requires fields != [] && (forall i | 0 <= i < |fields| :: Valid(fields[i].value))
    ensures ReadFields(PrintField(fields[0]) + (PrintFields(fields[1..]) + rest)) == Some((WireFields(fields), rest))
    decreases fields, 0
  {
    var tail := PrintFields(fields[1..]) + rest;
    var s := PrintField(fields[0]) + tail;
    FieldRoundTrip(fields[0], tail);
    var more := fields[1..];
    if more == [] {
      assert PrintFields(more) == "}" && WireFields(fields) == [WireField(fields[0])];
      FieldsEnd(s, WireField(fields[0]), rest);
    } else {
      var next := PrintField(more[0]) + (PrintFields(more[1..]) + rest);
      Assoc(", " + PrintField(more[0]), PrintFields(more[1..]), rest);
      Assoc(", ", PrintField(more[0]), PrintFields(more[1..]) + rest);
      FieldsRoundTrip(more, rest);
      FieldsNext(s, WireField(fields[0]), next, WireFields(more), rest);
    }
  }

  /** Reading what was printed gives the value back, every string as JavaScript holds it. */
  lemma {:induction false} RoundTrip(v: Json)
    requires Valid(v)
    ensures Read(Print(v)) == Some(Wire(v))
  {
    ValueRoundTrip(v, "");
    assert Print(v) + "" == Print(v);
  }

  // ----- Reading back in Python -----

  /** What Python's `json.loads` makes of the value that was read. */
  function Decoded(v: Json): Json
    decreases v
  {
    match v
    case Text(s) => Text(Combine(s))
    case Arr(items) => Arr(DecodedItems(items))
    case Obj(fields) => Obj(DecodedFields(fields))
    case _ => v
  }

  function DecodedItems(items: seq<Json>): seq<Json>
    decreases items
  {
    if items == [] then [] else [Decoded(items[0])] + DecodedItems(items[1..])
  }

  function DecodedFields(fields: seq<Field>): seq<Field>
    decreases fields
  {
    if fields == [] then []
    else [Field(Combine(fields[0].key), Decoded(fields[0].value))] + DecodedFields(fields[1..])
  }

  function Loads(s: string): Option<Json> {
    match Read(s) { case Some(v) => Some(Decoded(v)) case None => None }
  }

  ghost predicate AllClean(v: Json)
    decreases v
  {
    match v
    case Text(s) => Clean(s)
    case Arr(items) => forall i | 0 <= i < |items| :: AllClean(items[i])
    case Obj(fields) => forall i | 0 <= i < |fields| :: Clean(fields[i].key) && AllClean(fields[i].value)
    case _ => true
  }

  /** Python reads back exactly what it printed, if and only if no string of the value, key or text,
      holds two adjacent lone surrogates. */
  lemma {:induction false} LoadsDumps(v: Json)
    requires Valid(v)
    ensures Loads(Print(v)) == Some(v) <==> AllClean(v)
  {
    RoundTrip(v);
    DecodedWire(v);
  }

  lemma {:induction false} DecodedWire(v: Json)
    ensures Decoded(Wire(v)) == v <==> AllClean(v)
    decreases v
  {
    match v
    case Text(s) => CombineUtf16(s);
    case Arr(items) => DecodedWireItems(items);
    case Obj(fields) => DecodedWireFields(fields);
    case _ =>
  }

  lemma {:induction false} DecodedWireItems(items: seq<Json>)
    ensures DecodedItems(WireItems(items)) == items <==> forall i | 0 <= i < |items| :: AllClean(items[i])
    decreases items
  {
    if items != [] {
      var d := DecodedItems(WireItems(items));
      DecodedWire(items[0]);
      DecodedWireItems(items[1..]);
      assert WireItems(items)[1..] == WireItems(items[1..]);
      assert d == [Decoded(Wire(items[0]))] + DecodedItems(WireItems(items[1..]));
      assert items == [items[0]] + items[1..];
    }
  }

  lemma {:induction false} DecodedWireFields(fields: seq<Field>)
    ensures DecodedFields(WireFields(fields)) == fields <==>
              forall i | 0 <= i < |fields| :: Clean(fields[i].key) && AllClean(fields[i].value)
    decreases fields
  {
    if fields != [] {
      hide Clean, AllClean, Combine, Utf16, Decoded, Wire;
      var f := fields[0];
      var d := DecodedFields(WireFields(fields));
      CombineUtf16(f.key);
      DecodedWire(f.value);
      DecodedWireFields(fields[1..]);
      assert WireFields(fields)[1..] == WireFields(fields[1..]);
      assert d == [Field(Combine(Utf16(f.key)), Decoded(Wire(f.value)))] + DecodedFields(WireFields(fields[1..]));
      assert fields == [f] + fields[1..];
    }
  }

  /** Two clean values that print alike are equal. */
  lemma {:induction false} PrintInjective(v: Json, w: Json)
    requires Valid(v) && Valid(w) && AllClean(v) && AllClean(w) && Print(v) == Print(w)
    ensures v == w
  {
    LoadsDumps(v);
    LoadsDumps(w);
  }

  // ----- The text is one line of printable ASCII -----

  predicate Printable(s: string) {
    forall i | 0 <= i < |s| :: ' ' <= s[i] <= '~'
  }

  lemma EscapeUnitPrintable(u: Unit)
    ensures Printable(EscapeUnit(u))
  {
    assert forall n | 0 <= n < 16 :: ' ' <= HexDigit(n) <= '~';
  }

  lemma {:induction false} EscapePrintable(us: Units)
    ensures Printable(Escape(us))
  {
    if us != [] {
      EscapeUnitPrintable(us[0]);
      EscapePrintable(us[1..]);
    }
  }

  lemma {:induction false} PrintPrintable(v: Json)
    requires Valid(v)
    ensures Printable(Print(v))
    decreases v
  {
    match v
    case Text(s) => EscapePrintable(Utf16(s));
    case Arr(items) =>
      if items != [] {
        PrintPrintable(items[0]);
        ItemsPrintable(items[1..]);
      }
    case Obj(fields) =>
      if fields != [] {
        FieldPrintable(fields[0]);
        FieldsPrintable(fields[1..]);
      }
    case _ =>
  }

  lemma {:induction false} ItemsPrintable(items: seq<Json>)
    requires forall i | 0 <= i < |items| :: Valid(items[i])
    ensures Printable(PrintItems(items))
    decreases items
  {
    if items != [] {
      PrintPrintable(items[0]);
      ItemsPrintable(items[1..]);
    }
  }

  lemma {:induction false} FieldPrintable(f: Field)
    requires Valid(f.value)
    ensures Printable(PrintField(f))
    decreases f
  {
    EscapePrintable(Utf16(f.key));
    PrintPrintable(f.value);
  }

  lemma {:induction false} FieldsPrintable(fields: seq<Field>)
    requires forall i | 0 <= i < |fields| :: Valid(fields[i].value)
    ensures Printable(PrintFields(fields))
    decreases fields
  {
    if fields != [] {
      FieldPrintable(fields[0]);
      FieldsPrintable(fields[1..]);
    }
  }

  /** White space around a value is skipped, and anything else behind it makes the text unreadable. */
  lemma {:induction false} WholeText(v: Json, rest: string)
    requires Valid(v) && Delimited(rest)
    ensures Read(Print(v) + rest) == if SkipSpace(rest) == "" then Some(Wire(v)) else None
    ensures Read(" " + Print(v)) == Some(Wire(v))
  {
    hide Print, Wire;
    ValueRoundTrip(v, rest);
    ValueRoundTrip(v, "");
    FirstChar(v);
    assert Print(v) + "" == Print(v);
    var s := " " + Print(v);
    assert s[1..] == Print(v);
    assert SkipSpace(s) == SkipSpace(Print(v));
  }
}

/** The signed context header of platform_sdk/auth.py. HMAC-SHA256 in hex is an arbitrary function `hmac` from
    secret and text to text; the environment variables are a record. */
module AgentContext {
  import opened Common
  import opened Unicode
  import opened Json
  import PyText
  import Base64

  /** CONTEXT_HMAC_SECRET, JWT_SECRET and CONTEXT_HMAC_SECRET_PREVIOUS, when set. */
  datatype Environment = Environment(contextSecret: Option<string>, jwtSecret: Option<string>, previous: Option<string>)

  function HmacSecret(env: Environment): string {
    if env.contextSecret.Some? then env.contextSecret.value
    else if env.jwtSecret.Some? then env.jwtSecret.value
    else "dev-secret-change-in-prod"
  }

  /** An empty previous secret counts as none. */
  function PreviousSecret(env: Environment): Option<string> {
    if env.previous.Some? && env.previous.value != "" then env.previous else None
  }

  datatype Context = Context(
    rmId: Str, rmName: Str, role: Str, teamId: Str,
    accounts: seq<Str>, clearance: seq<Str>,
    userEmail: Str, userRole: Str)

  const STANDARD := Lit("standard")
  const USER_ROLES: set<Str> := {Lit("admin"), Lit("analyst"), Lit("viewer"), []}

  /** `__post_init__`: no clearance means the lowest one, and an unknown user role means none. */
  function PostInit(c: Context): Context {
    c.(clearance := if c.clearance == [] then [STANDARD] else c.clearance,
       userRole := if c.userRole in USER_ROLES then c.userRole else [])
  }

  /** What construction can yield. */
  predicate Normal(c: Context) {
    c.clearance != [] && c.userRole in USER_ROLES
  }

  function Key(i: int): Str
    requires 0 <= i < 8
  {
    match i
    case 0 => Lit("rm_id")
    case 1 => Lit("rm_name")
    case 2 => Lit("role")
    case 3 => Lit("team_id")
    case 4 => Lit("assigned_account_ids")
    case 5 => Lit("compliance_clearance")
    case 6 => Lit("user_email")
    case _ => Lit("user_role")
  }

  function Texts(ss: seq<Str>): seq<Json> {
    seq(|ss|, i requires 0 <= i < |ss| => Text(ss[i]))
  }

  function ToDict(c: Context): seq<Field> {
    [Field(Key(0), Text(c.rmId)), Field(Key(1), Text(c.rmName)), Field(Key(2), Text(c.role)),
     Field(Key(3), Text(c.teamId)),
     Field(Key(4), Arr(Texts(c.accounts))), Field(Key(5), Arr(Texts(c.clearance))),
     Field(Key(6), Text(c.userEmail)), Field(Key(7), Text(c.userRole))]
  }

  predicate Ascii(s: string) {
    forall i | 0 <= i < |s| :: s[i] < 128 as char
  }

  function Bytes(s: string): seq<Base64.Byte>
    requires Ascii(s)
  {
    seq(|s|, i requires 0 <= i < |s| => s[i] as int)
  }

  function TextOf(b: seq<Base64.Byte>): string {
    seq(|b|, i requires 0 <= i < |b| => b[i] as char)
  }

  function Payload(c: Context): string {
    var json := Print(Obj(ToDict(c)));
    if Ascii(json) then Base64.Encode(Bytes(json)) else ""
  }

  function ToHeaderValue(c: Context, env: Environment, hmac: (string, string) -> string): string {
    Payload(c) + "." + hmac(HmacSecret(env), Payload(c))
  }

  // ----- Reading a header -----

  /** `BadShape` stands for a signed payload that is not what a context prints as. */
  datatype Error = WrongSegments | NonAsciiSignature | Mismatch | BadBase64 | BadJson | BadShape

  function VerifyAndSplit(raw: string, env: Environment, hmac: (string, string) -> string): Result<string, Error> {
    var parts := PyText.Split(raw);
    if |parts| != 2 then Err(WrongSegments)
    else if !Ascii(parts[1]) then Err(NonAsciiSignature)
    else if parts[1] == hmac(HmacSecret(env), parts[0]) then Ok(parts[0])
    else match PreviousSecret(env)
      case Some(secret) => if parts[1] == hmac(secret, parts[0]) then Ok(parts[0]) else Err(Mismatch)
      case None => Err(Mismatch)
  }

  /** The value under a key; a later entry wins. */
  function Lookup(fields: seq<Field>, key: Str): Option<Json> {
    if fields == [] then None
    else if fields[|fields| - 1].key == key then Some(fields[|fields| - 1].value)
    else Lookup(fields[..|fields| - 1], key)
  }

  function GetText(fields: seq<Field>, key: Str, missing: Str): Option<Str> {
    match Lookup(fields, key)
    case None => Some(missing)
    case Some(Text(s)) => Some(s)
    case _ => None
  }

  function GetTexts(fields: seq<Field>, key: Str, missing: seq<Str>): Option<seq<Str>> {
    match Lookup(fields, key)
    case None => Some(missing)
    case Some(Arr(items)) => if AllText(items) then Some(ItemTexts(items)) else None
    case _ => None
  }

  predicate AllText(items: seq<Json>) {
    forall i | 0 <= i < |items| :: items[i].Text?
  }

  function ItemTexts(items: seq<Json>): seq<Str>
    requires AllText(items)
  {
    seq(|items|, i requires 0 <= i < |items| => items[i].text)
  }

  function FromDict(fields: seq<Field>): Result<Context, Error> {
    match (GetText(fields, Key(0), Lit("unknown")), GetText(fields, Key(1), []),
           GetText(fields, Key(2), Lit("readonly")), GetText(fields, Key(3), []),
           GetTexts(fields, Key(4), []), GetTexts(fields, Key(5), [STANDARD]), GetText(fields, Key(6), []),
               GetText(fields, Key(7), []))
    case (Some(a), Some(b), Some(c), Some(d), Some(e), Some(f), Some(g),
          Some(h)) => Ok(PostInit(Context(a, b, c, d, e, f, g, h)))
    case _ => Err(BadShape)
  }

  function FromHeader(raw: string, env: Environment, hmac: (string, string) -> string): Result<Context, Error> {
    match VerifyAndSplit(raw, env, hmac)
    case Err(e) => Err(e)
    case Ok(payload) =>
      if !Ascii(payload) then Err(BadBase64)
      else match Base64.B64Decode(payload)
        case None => Err(BadBase64)
        case Some(bytes) =>
          match Loads(TextOf(bytes))
          case None => Err(BadJson)
          case Some(Obj(fields)) => FromDict(fields)
          case Some(_) => Err(BadShape)
  }

  // ----- Acceptance -----

  /** Hex digits only: in particular ASCII and no dot. */
  ghost predicate HexOutput(hmac: (string, string) -> string) {
    forall secret, text :: Ascii(hmac(secret, text)) && '.' !in hmac(secret, text)
  }

  /** A header is accepted exactly when it consists of two segments, one dot between them, and the second is
      the signature of the first under the current secret or under a previous secret that is not empty. */
  lemma {:induction false} AcceptedIff(raw: string, env: Environment, hmac: (string, string) -> string, payload: string)
    requires HexOutput(hmac)
    ensures VerifyAndSplit(raw, env, hmac) == Ok(payload) <==>
              && '.' !in payload
              && (|| raw == payload + "." + hmac(HmacSecret(env), payload)
                  || (PreviousSecret(env).Some? && raw == payload + "." + hmac(PreviousSecret(env).value, payload)))
  {
    var current := hmac(HmacSecret(env), payload);
    PyText.SplitInTwo(raw, payload, current);
    if PreviousSecret(env).Some? {
      PyText.SplitInTwo(raw, payload, hmac(PreviousSecret(env).value, payload));
    }
    var parts := PyText.Split(raw);
    if |parts| == 2 {
      assert parts == [parts[0], parts[1]];
      PyText.SplitInTwo(raw, parts[0], parts[1]);
    }
  }

  /** A refused signature is documented to raise a ValueError. Comparing digests raises a TypeError instead, if and only
      if there are two segments and the second is not ASCII. */
  lemma {:induction false} SignatureTypeErrorIff(raw: string, env: Environment, hmac: (string, string) -> string)
    ensures VerifyAndSplit(raw, env, hmac) == Err(NonAsciiSignature) <==>
              exists p, s :: raw == p + "." + s && '.' !in p && '.' !in s && !Ascii(s)
    ensures FromHeader(raw, env, hmac) == Err(NonAsciiSignature) <==>
              VerifyAndSplit(raw, env, hmac) == Err(NonAsciiSignature)
  {
    var parts := PyText.Split(raw);
    if |parts| == 2 {
      assert parts == [parts[0], parts[1]];
      PyText.SplitInTwo(raw, parts[0], parts[1]);
    }
    if p, s :| raw == p + "." + s && '.' !in p && '.' !in s && !Ascii(s) {
      PyText.SplitInTwo(raw, p, s);
    }
  }

  // ----- Normalisation -----

  /** With the role names written out: a known role is kept and any other becomes none, a clearance is kept and no
      clearance becomes `standard`, and nothing else changes. */
  lemma NormalisationMeaning(c: Context)
    ensures var n := PostInit(c);
            && n.userRole ==
                 (if c.userRole == Lit("admin") || c.userRole == Lit("analyst") || c.userRole == Lit("viewer")
                  then c.userRole else [])
            && n.clearance == (if |c.clearance| > 0 then c.clearance else [Lit("standard")])
            && n.rmId == c.rmId && n.rmName == c.rmName && n.role == c.role && n.teamId == c.teamId
            && n.accounts == c.accounts && n.userEmail == c.userEmail
  {
    hide Lit;
  }

  /** CONTEXT_HMAC_SECRET goes first, then JWT_SECRET, then the development default; the old secret counts if it is
      set and not empty. */
  lemma SecretMeaning(context: string, jwt: string, before: string)
    ensures forall j, p :: HmacSecret(Environment(Some(context), j, p)) == context
    ensures forall p :: HmacSecret(Environment(None, Some(jwt), p)) == jwt
    ensures forall p :: HmacSecret(Environment(None, None, p)) == "dev-secret-change-in-prod"
    ensures forall c, j ::
              PreviousSecret(Environment(c, j, Some(before))) == if |before| > 0 then Some(before) else None
    ensures forall c, j :: PreviousSecret(Environment(c, j, None)) == None
  {
  }

  lemma {:induction false} PostInitNormalises(c: Context)
    ensures Normal(PostInit(c)) && PostInit(PostInit(c)) == PostInit(c)
    ensures PostInit(c) == c <==> Normal(c)
  {
    hide Lit;
    assert [] in USER_ROLES;
  }

  // ----- The round trip -----

  function Again(s: Str): Str {
    Combine(Utf16(s))
  }

  function AgainAll(ss: seq<Str>): seq<Str> {
    seq(|ss|, i requires 0 <= i < |ss| => Again(ss[i]))
  }

  /** The context with every string as Python reads it back. */
  function ReadBack(c: Context): Context {
    Context(Again(c.rmId), Again(c.rmName), Again(c.role), Again(c.teamId),
            AgainAll(c.accounts), AgainAll(c.clearance), Again(c.userEmail), Again(c.userRole))
  }

  ghost predicate CleanContext(c: Context) {
    && Clean(c.rmId) && Clean(c.rmName) && Clean(c.role) && Clean(c.teamId)
    && (forall i | 0 <= i < |c.accounts| :: Clean(c.accounts[i]))
    && (forall i | 0 <= i < |c.clearance| :: Clean(c.clearance[i]))
    && Clean(c.userEmail) && Clean(c.userRole)
  }

  lemma {:induction false} AgainAllIff(ss: seq<Str>)
    ensures AgainAll(ss) == ss <==> forall i | 0 <= i < |ss| :: Clean(ss[i])
  {
    forall i | 0 <= i < |ss| ensures AgainAll(ss)[i] == ss[i] <==> Clean(ss[i]) {
      CombineUtf16(ss[i]);
    }
  }

  lemma {:induction false} ReadBackIff(c: Context)
    ensures ReadBack(c) == c <==> CleanContext(c)
  {
    CombineUtf16(c.rmId);
    CombineUtf16(c.rmName);
    CombineUtf16(c.role);
    CombineUtf16(c.teamId);
    AgainAllIff(c.accounts);
    AgainAllIff(c.clearance);
    CombineUtf16(c.userEmail);
    CombineUtf16(c.userRole);
  }

  lemma {:induction false} DecodedTexts(ss: seq<Str>)
    ensures DecodedItems(WireItems(Texts(ss))) == Texts(AgainAll(ss))
  {
    if ss != [] {
      DecodedTexts(ss[1..]);
      assert Texts(ss)[1..] == Texts(ss[1..]);
      assert WireItems(Texts(ss))[1..] == WireItems(Texts(ss[1..]));
      assert Texts(AgainAll(ss)) == [Text(Again(ss[0]))] + Texts(AgainAll(ss[1..]));
    }
  }

  lemma {:induction false} DecodedCons(f: Field, rest: seq<Field>)
    ensures DecodedFields(WireFields([f] + rest)) ==
              [Field(Again(f.key), Decoded(Wire(f.value)))] + DecodedFields(WireFields(rest))
  {
    assert ([f] + rest)[1..] == rest;
    assert WireFields([f] + rest)[1..] == WireFields(rest);
  }

  lemma {:induction false} DecodedAt(fields: seq<Field>, i: nat)
    requires i < |fields|
    ensures |DecodedFields(WireFields(fields))| == |fields|
    ensures DecodedFields(WireFields(fields))[i] == Field(Again(fields[i].key), Decoded(Wire(fields[i].value)))
  {
    assert fields == [fields[0]] + fields[1..];
    DecodedCons(fields[0], fields[1..]);
    if i > 0 {
      DecodedAt(fields[1..], i - 1);
    } else if |fields| > 1 {
      DecodedAt(fields[1..], 0);
    }
  }

  lemma KeysDistinct(i: nat, j: nat)
    requires i < j < 8
    ensures Key(i) != Key(j)
  {
    assert Key(1)[0] != Key(3)[0] && Key(4)[0] != Key(5)[0];
  }

  lemma KeyClean(i: nat)
    requires i < 8
    ensures Again(Key(i)) == Key(i)
  {
    hide Combine, Utf16;
    KeyAscii(i);
    CombineUtf16(Key(i));
  }

  lemma KeyAscii(i: nat)
    requires i < 8
    ensures forall j | 0 <= j < |Key(i)| :: Key(i)[j] < 128
  {
    hide Lit;
    match i
    case 0 => LitAscii("rm_id");
    case 1 => LitAscii("rm_name");
    case 2 => LitAscii("role");
    case 3 => LitAscii("team_id");
    case 4 => LitAscii("assigned_account_ids");
    case 5 => LitAscii("compliance_clearance");
    case 6 => LitAscii("user_email");
    case _ => LitAscii("user_role");
  }

  lemma LitAscii(s: string)
    requires Ascii(s)
    ensures forall j | 0 <= j < |Lit(s)| :: Lit(s)[j] < 128
  {
  }

  lemma {:induction false} LookupDistinct(fields: seq<Field>, i: nat)
    requires i < |fields| && forall j | i < j < |fields| :: fields[j].key != fields[i].key
    ensures Lookup(fields, fields[i].key) == Some(fields[i].value)
  {
    if i < |fields| - 1 {
      LookupDistinct(fields[..|fields| - 1], i);
    }
  }

  /** What is found under each key once the printed dictionary has been read back. */
  lemma {:induction false} LookupReadBack(c: Context, i: nat)
    requires i < 8
    ensures Lookup(DecodedFields(WireFields(ToDict(c))), Key(i)) == Some(Decoded(Wire(ToDict(c)[i].value)))
  {
    hide Lit, Key;
    var d := ToDict(c);
    assert forall j | 0 <= j < 8 :: d[j].key == Key(j);
    var fields := DecodedFields(WireFields(d));
    forall j | 0 <= j < 8 ensures |fields| == 8 && fields[j] == Field(Key(j), Decoded(Wire(d[j].value))) {
      DecodedAt(d, j);
      KeyClean(j);
    }
    forall j | i < j < 8 ensures fields[j].key != fields[i].key {
      KeysDistinct(i, j);
    }
    LookupDistinct(fields, i);
  }

  lemma {:induction false} GetTextsReadBack(fields: seq<Field>, key: Str, missing: seq<Str>, ss: seq<Str>)
    requires Lookup(fields, key) == Some(Arr(Texts(ss)))
    ensures GetTexts(fields, key, missing) == Some(ss)
  {
    assert ItemTexts(Texts(ss)) == ss;
  }

  lemma GetTextReadBack(fields: seq<Field>, key: Str, missing: Str, s: Str)
    requires Lookup(fields, key) == Some(Decoded(Wire(Text(s))))
    ensures GetText(fields, key, missing) == Some(Again(s))
  {
  }

  lemma {:induction false} DictReadBack(c: Context)
    ensures FromDict(DecodedFields(WireFields(ToDict(c)))) == Ok(PostInit(ReadBack(c)))
  {
    hide Lit, Key, DecodedFields, WireFields, Lookup, GetText, GetTexts, PostInit;
    var fields := DecodedFields(WireFields(ToDict(c)));
    forall i | 0 <= i < 8 ensures Lookup(fields, Key(i)) == Some(Decoded(Wire(ToDict(c)[i].value))) {
      LookupReadBack(c, i);
    }
    GetTextReadBack(fields, Key(0), Lit("unknown"), c.rmId);
    GetTextReadBack(fields, Key(1), [], c.rmName);
    GetTextReadBack(fields, Key(2), Lit("readonly"), c.role);
    GetTextReadBack(fields, Key(3), [], c.teamId);
    DecodedTexts(c.accounts);
    DecodedTexts(c.clearance);
    GetTextsReadBack(fields, Key(4), [], AgainAll(c.accounts));
    GetTextsReadBack(fields, Key(5), [STANDARD], AgainAll(c.clearance));
    GetTextReadBack(fields, Key(6), [], c.userEmail);
    GetTextReadBack(fields, Key(7), [], c.userRole);
  }

  lemma TextsValid(ss: seq<Str>)
    ensures Valid(Arr(Texts(ss)))
  {
    assert forall i | 0 <= i < |Texts(ss)| :: Texts(ss)[i] == Text(ss[i]);
  }

  lemma {:induction false} DictValid(c: Context)
    ensures Valid(Obj(ToDict(c)))
  {
    hide Lit;
    var d := ToDict(c);
    TextsValid(c.accounts);
    TextsValid(c.clearance);
    assert forall i | 0 <= i < 8 :: d[i].value.Text? || i == 4 || i == 5;
  }

  /** A known user role, or none, is plain ASCII and reads back as itself. */
  lemma UserRoleReadsBack(role: Str)
    requires role in USER_ROLES
    ensures Again(role) == role
  {
    CombineUtf16(role);
  }

  lemma {:induction false} PayloadReads(c: Context)
    ensures Ascii(Payload(c)) && '.' !in Payload(c)
    ensures Base64.B64Decode(Payload(c)).Some?
    ensures TextOf(Base64.B64Decode(Payload(c)).value) == Print(Obj(ToDict(c)))
  {
    var json := Print(Obj(ToDict(c)));
    DictValid(c);
    PrintPrintable(Obj(ToDict(c)));
    assert Ascii(json);
    Base64.RoundTrip(Bytes(json));
    Base64.NoDot(Bytes(json));
    var p := Payload(c);
    assert forall i | 0 <= i < |p| :: p[i] in p;
    assert TextOf(Bytes(json)) == json;
  }

  /** For every context, normal or not, what reading a header yields is its normal form, with the strings as they read
      back. */
  lemma {:induction false} HeaderReads(c: Context, writer: Environment, reader: Environment,
                                       hmac: (string, string) -> string)
    requires HexOutput(hmac)
    requires HmacSecret(writer) == HmacSecret(reader) || Some(HmacSecret(writer)) == PreviousSecret(reader)
    ensures FromHeader(ToHeaderValue(c, writer, hmac), reader, hmac) == Ok(PostInit(ReadBack(c)))
  {
    hide Lit, Key, ToDict, Print, Read, Payload, HmacSecret, FromDict;
    var payload, header := Payload(c), ToHeaderValue(c, writer, hmac);
    PayloadReads(c);
    AcceptedIff(header, reader, hmac, payload);
    DictValid(c);
    RoundTrip(Obj(ToDict(c)));
    assert Loads(Print(Obj(ToDict(c)))) == Some(Obj(DecodedFields(WireFields(ToDict(c)))));
    DictReadBack(c);
  }

  /** Reading a header never raises a privilege: whatever was signed, the user role is the one that was signed if it is
      known and none otherwise, and a clearance that was left empty is the lowest one. */
  lemma {:induction false} HeaderRaisesNothing(c: Context, writer: Environment, reader: Environment,
                                               hmac: (string, string) -> string)
    requires HexOutput(hmac) && CleanContext(c)
    requires HmacSecret(writer) == HmacSecret(reader) || Some(HmacSecret(writer)) == PreviousSecret(reader)
    ensures var read := FromHeader(ToHeaderValue(c, writer, hmac), reader, hmac);
            && read.Ok?
            && read.value.userRole ==
                 (if c.userRole == Lit("admin") || c.userRole == Lit("analyst") || c.userRole == Lit("viewer")
                  then c.userRole else [])
            && read.value.clearance == (if |c.clearance| > 0 then c.clearance else [Lit("standard")])
            && read.value.rmId == c.rmId && read.value.rmName == c.rmName && read.value.role == c.role
            && read.value.teamId == c.teamId && read.value.accounts == c.accounts && read.value.userEmail == c.userEmail
  {
    hide Lit, FromHeader, ToHeaderValue, PostInit, ReadBack, CleanContext;
    HeaderReads(c, writer, reader, hmac);
    ReadBackIff(c);
    NormalisationMeaning(c);
  }

  /** A signed dictionary without keys gives the least privileged context. */
  lemma AbsentKeys()
    ensures FromDict([]) ==
              Ok(Context(Lit("unknown"), [], Lit("readonly"), [], [], [Lit("standard")], [], []))
  {
    hide Lit;
  }

  /** The names under which a context is sent. */
  lemma KeyNames(c: Context)
    ensures ToDict(c) == [
              Field(Lit("rm_id"), Text(c.rmId)), Field(Lit("rm_name"), Text(c.rmName)),
              Field(Lit("role"), Text(c.role)), Field(Lit("team_id"), Text(c.teamId)),
              Field(Lit("assigned_account_ids"), Arr(Texts(c.accounts))),
              Field(Lit("compliance_clearance"), Arr(Texts(c.clearance))), Field(Lit("user_email"), Text(c.userEmail)),
              Field(Lit("user_role"), Text(c.userRole))]
  {
    hide Lit;
  }

  /** For every context that construction can yield, a header written under a secret that the reader has as its
      current secret, or as its previous one and not empty, reads back as the same context, if and only if no
      string in it holds two adjacent lone surrogates. */
  lemma {:induction false} HeaderRoundTripIff(c: Context, writer: Environment, reader: Environment,
                                              hmac: (string, string) -> string)
    requires Normal(c) && HexOutput(hmac)
    requires HmacSecret(writer) == HmacSecret(reader) || Some(HmacSecret(writer)) == PreviousSecret(reader)
    ensures FromHeader(ToHeaderValue(c, writer, hmac), reader, hmac) == Ok(c) <==> CleanContext(c)
  {
    hide Lit, FromHeader, ToHeaderValue, HmacSecret;
    HeaderReads(c, writer, reader, hmac);
    UserRoleReadsBack(c.userRole);
    PostInitNormalises(ReadBack(c));
    ReadBackIff(c);
  }
}

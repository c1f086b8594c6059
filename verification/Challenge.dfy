/** The canonical message a client signs, and a reader that recovers from it exactly what was printed. */
module Challenge {
  import opened Base
  import opened Hex

  /** The elevation window a client requests. */
  datatype RequestedMode = TimeBoxed(ttl: u64) | OpenEnded

  /** What a challenge authorises. */
  datatype Purpose = Elevate(server: string, mode: RequestedMode) | ConfirmAction(server: string, tool: string)

  /** The fields of the signed JSON object that vary, in printing order (`v` is always 1). */
  datatype Doc = Doc(purpose: string, client: string, nonce: string, server: string,
                     tool: Option<string>, mode: Option<string>, ttl: Option<nat>)

  function DocOf(nonce: Nonce, client: string, purpose: Purpose): Doc {
    match purpose
    case Elevate(server, TimeBoxed(ttl)) =>
      Doc("elevate", client, ToHex(nonce), server, None, Some("duration"), Some(ttl))
    case Elevate(server, OpenEnded) =>
      Doc("elevate", client, ToHex(nonce), server, None, Some("until_revoked"), None)
    case ConfirmAction(server, tool) =>
      Doc("confirm", client, ToHex(nonce), server, Some(tool), None, None)
  }

  // ----- Printing (each function prints one value in front of `rest`) -----

  /** One character of a JSON string, escaped as section 7 of RFC 8259 requires. */
  function Escape(c: char): string {
    if c == '\"' then "\\\""
    else if c == '\\' then "\\\\"
    else if c as int == 0x08 then "\\b"
    else if c as int == 0x0C then "\\f"
    else if c == '\n' then "\\n"
    else if c == '\r' then "\\r"
    else if c == '\t' then "\\t"
    else if (c as int) < 0x20 then "\\u00" + [HexDigit(c as int / 16), HexDigit(c as int % 16)]
    else [c]
  }

  function PutEscaped(s: string, rest: string): string {
    if s == [] then rest else Escape(s[0]) + PutEscaped(s[1..], rest)
  }

  function PutString(s: string, rest: string): string {
    "\"" + PutEscaped(s, "\"" + rest)
  }

  function Decimal(n: nat): string {
    if n < 10 then [HexDigit(n)] else Decimal(n / 10) + [HexDigit(n % 10)]
  }

  function PutOptString(s: Option<string>, rest: string): string {
    if s.None? then "null" + rest else PutString(s.value, rest)
  }

  function PutOptNat(n: Option<nat>, rest: string): string {
    if n.None? then "null" + rest else Decimal(n.value) + rest
  }

  function Print(doc: Doc): string {
    "{\"v\":1,\"purpose\":" + PutString(doc.purpose,
    ",\"client\":" + PutString(doc.client,
    ",\"nonce\":" + PutString(doc.nonce,
    ",\"server\":" + PutString(doc.server,
    ",\"tool\":" + PutOptString(doc.tool,
    ",\"mode\":" + PutOptString(doc.mode,
    ",\"ttl\":" + PutOptNat(doc.ttl,
    "}")))))))
  }

  function ChallengeMessage(nonce: Nonce, client: string, purpose: Purpose): string {
    Print(DocOf(nonce, client, purpose))
  }

  // ----- Reading -----

  function Expect(literal: string, s: string): Option<string> {
    if literal <= s then Some(s[|literal|..]) else None
  }

  function Unescape(c: char): Option<char> {
    match c
    case '\"' => Some('\"')
    case '\\' => Some('\\')
    case '/' => Some('/')
    case 'b' => Some(0x08 as char)
    case 'f' => Some(0x0C as char)
    case 'n' => Some('\n')
    case 'r' => Some('\r')
    case 't' => Some('\t')
    case _ => None
  }

  function ReadUnicode(s: string): Option<char>
    requires |s| == 4
  {
    var a :- DigitValue(s[0]);
    var b :- DigitValue(s[1]);
    var c :- DigitValue(s[2]);
    var d :- DigitValue(s[3]);
    var code := 4096 * a + 256 * b + 16 * c + d;
    if code < 0xD800 then Some(code as char) else None
  }

  /** The body of a string up to its closing quote, and what follows. */
  function ReadEscaped(s: string): Option<(string, string)> {
    if s == [] then None
    else if s[0] == '\"' then Some(("", s[1..]))
    else if s[0] != '\\' then
      var (body, rest) :- ReadEscaped(s[1..]);
      Some(([s[0]] + body, rest))
    else if |s| < 2 then None
    else if s[1] != 'u' then
      var c :- Unescape(s[1]);
      var (body, rest) :- ReadEscaped(s[2..]);
      Some(([c] + body, rest))
    else if |s| < 6 then None
    else
      var c :- ReadUnicode(s[2..6]);
      var (body, rest) :- ReadEscaped(s[6..]);
      Some(([c] + body, rest))
  }

  function ReadString(s: string): Option<(string, string)> {
    var body :- Expect("\"", s);
    ReadEscaped(body)
  }

  function ReadDigits(value: nat, s: string): (nat, string)
    decreases s
  {
    if s == [] || !('0' <= s[0] <= '9') then (value, s)
    else ReadDigits(10 * value + (s[0] as int - '0' as int), s[1..])
  }

  function ReadOptString(s: string): Option<(Option<string>, string)> {
    var absent := Expect("null", s);
    if absent.Some? then Some((None, absent.value))
    else
      var (body, rest) :- ReadString(s);
      Some((Some(body), rest))
  }

  function ReadOptNat(s: string): (Option<nat>, string) {
    var absent := Expect("null", s);
    if absent.Some? then (None, absent.value)
    else
      var (n, rest) := ReadDigits(0, s);
      (Some(n), rest)
  }

  function ReadDoc(s: string): Option<Doc> {
    var s :- Expect("{\"v\":1,\"purpose\":", s);
    var (purpose, s) :- ReadString(s);
    var s :- Expect(",\"client\":", s);
    var (client, s) :- ReadString(s);
    var s :- Expect(",\"nonce\":", s);
    var (nonce, s) :- ReadString(s);
    var s :- Expect(",\"server\":", s);
    var (server, s) :- ReadString(s);
    var s :- Expect(",\"tool\":", s);
    var (tool, s) :- ReadOptString(s);
    var s :- Expect(",\"mode\":", s);
    var (mode, s) :- ReadOptString(s);
    var s :- Expect(",\"ttl\":", s);
    var (ttl, s) := ReadOptNat(s);
    if s == "}" then Some(Doc(purpose, client, nonce, server, tool, mode, ttl)) else None
  }

  /** The nonce, client and purpose a signed message stands for. */
  function ReadChallenge(message: string): Option<(Nonce, string, Purpose)> {
    var doc :- ReadDoc(message);
    OfDoc(doc)
  }

  function OfDoc(doc: Doc): Option<(Nonce, string, Purpose)> {
    var nonce :- FromHex(doc.nonce);
    if doc.purpose == "elevate" && doc.tool.None? && doc.mode == Some("duration") && doc.ttl.Some?
       && doc.ttl.value <= U64_MAX then
      Some((nonce, doc.client, Elevate(doc.server, TimeBoxed(doc.ttl.value))))
    else if doc.purpose == "elevate" && doc.tool.None? && doc.mode == Some("until_revoked") && doc.ttl.None? then
      Some((nonce, doc.client, Elevate(doc.server, OpenEnded)))
    else if doc.purpose == "confirm" && doc.tool.Some? && doc.mode.None? && doc.ttl.None? then
      Some((nonce, doc.client, ConfirmAction(doc.server, doc.tool.value)))
    else None
  }

  // ----- Reading undoes printing -----

  lemma LiteralRoundTrip(literal: string, rest: string)
    ensures Expect(literal, literal + rest) == Some(rest)
  {
  }

  /** One escaped character is read back as that character, whatever follows it. */
  lemma EscapeRoundTrip(c: char, rest: string)
    ensures ReadEscaped(Escape(c) + rest) ==
            match ReadEscaped(rest) case None => None case Some((body, after)) => Some(([c] + body, after))
  {
    var s := Escape(c) + rest;
    if |Escape(c)| == 6 {
      assert s[6..] == rest;
      assert s[2..6] == ['0', '0', HexDigit(c as int / 16), HexDigit(c as int % 16)];
    } else if |Escape(c)| == 2 {
      assert s[2..] == rest;
    } else {
      assert s[1..] == rest;
    }
  }

  lemma {:induction false} EscapedRoundTrip(s: string, rest: string)
    ensures ReadEscaped(PutEscaped(s, "\"" + rest)) == Some((s, rest))
  {
    if s == [] {
      assert ("\"" + rest)[1..] == rest;
    } else {
      EscapeRoundTrip(s[0], PutEscaped(s[1..], "\"" + rest));
      EscapedRoundTrip(s[1..], rest);
      assert s == [s[0]] + s[1..];
    }
  }

  lemma StringRoundTrip(s: string, rest: string)
    ensures ReadString(PutString(s, rest)) == Some((s, rest))
  {
    LiteralRoundTrip("\"", PutEscaped(s, "\"" + rest));
    EscapedRoundTrip(s, rest);
  }

  lemma {:induction false} DecimalRoundTrip(n: nat, rest: string)
    ensures ReadDigits(0, Decimal(n) + rest) == ReadDigits(n, rest)
  {
    if n < 10 {
      assert ([HexDigit(n)] + rest)[1..] == rest;
    } else {
      var digit := [HexDigit(n % 10)];
      DecimalRoundTrip(n / 10, digit + rest);
      assert Decimal(n) + rest == Decimal(n / 10) + (digit + rest);
      assert (digit + rest)[1..] == rest;
    }
  }

  lemma {:induction false} DecimalStartsWithDigit(n: nat)
    ensures Decimal(n) != [] && '0' <= Decimal(n)[0] <= '9'
  {
    if n >= 10 { DecimalStartsWithDigit(n / 10); }
  }

  lemma OptStringRoundTrip(s: Option<string>, rest: string)
    ensures ReadOptString(PutOptString(s, rest)) == Some((s, rest))
  {
    if s.None? {
      LiteralRoundTrip("null", rest);
    } else {
      StringRoundTrip(s.value, rest);
      assert PutString(s.value, rest)[0] == '\"' && "null"[0] == 'n';
    }
  }

  lemma OptNatRoundTrip(n: Option<nat>)
    ensures ReadOptNat(PutOptNat(n, "}")) == (n, "}")
  {
    if n.None? {
      LiteralRoundTrip("null", "}");
    } else {
      DecimalRoundTrip(n.value, "}");
      DecimalStartsWithDigit(n.value);
      assert PutOptNat(n, "}")[0] == Decimal(n.value)[0] && "null"[0] == 'n';
    }
  }

  lemma DocRoundTrip(doc: Doc)
    ensures ReadDoc(Print(doc)) == Some(doc)
  {
    var t7 := PutOptNat(doc.ttl, "}");
    var t6 := PutOptString(doc.mode, ",\"ttl\":" + t7);
    var t5 := PutOptString(doc.tool, ",\"mode\":" + t6);
    var t4 := PutString(doc.server, ",\"tool\":" + t5);
    var t3 := PutString(doc.nonce, ",\"server\":" + t4);
    var t2 := PutString(doc.client, ",\"nonce\":" + t3);
    var t1 := PutString(doc.purpose, ",\"client\":" + t2);
    LiteralRoundTrip("{\"v\":1,\"purpose\":", t1);
    StringRoundTrip(doc.purpose, ",\"client\":" + t2);
    LiteralRoundTrip(",\"client\":", t2);
    StringRoundTrip(doc.client, ",\"nonce\":" + t3);
    LiteralRoundTrip(",\"nonce\":", t3);
    StringRoundTrip(doc.nonce, ",\"server\":" + t4);
    LiteralRoundTrip(",\"server\":", t4);
    StringRoundTrip(doc.server, ",\"tool\":" + t5);
    LiteralRoundTrip(",\"tool\":", t5);
    OptStringRoundTrip(doc.tool, ",\"mode\":" + t6);
    LiteralRoundTrip(",\"mode\":", t6);
    OptStringRoundTrip(doc.mode, ",\"ttl\":" + t7);
    LiteralRoundTrip(",\"ttl\":", t7);
    OptNatRoundTrip(doc.ttl);
  }

  lemma FieldsDetermineChallenge(nonce: Nonce, client: string, purpose: Purpose)
    ensures OfDoc(DocOf(nonce, client, purpose)) == Some((nonce, client, purpose))
  {
    NonceRoundTrip(nonce);
  }

  /** The signed bytes determine the nonce, the client and the purpose. */
  lemma ChallengeRoundTrip(nonce: Nonce, client: string, purpose: Purpose)
    ensures ReadChallenge(ChallengeMessage(nonce, client, purpose)) == Some((nonce, client, purpose))
  {
    DocRoundTrip(DocOf(nonce, client, purpose));
    FieldsDetermineChallenge(nonce, client, purpose);
  }

  /** No two challenges print the same: a signature covers one nonce, one client and one purpose. */
  lemma ChallengeInjective(nonce1: Nonce, client1: string, purpose1: Purpose,
                           nonce2: Nonce, client2: string, purpose2: Purpose)
    requires ChallengeMessage(nonce1, client1, purpose1) == ChallengeMessage(nonce2, client2, purpose2)
    ensures nonce1 == nonce2 && client1 == client2 && purpose1 == purpose2
  {
    ChallengeRoundTrip(nonce1, client1, purpose1);
    ChallengeRoundTrip(nonce2, client2, purpose2);
  }

  // ----- The text itself -----

  /** The seven short escapes, the long form for the other control characters, and every other character as it is. */
  lemma EscapeTable(c: char)
    ensures Escape('\"') == "\\\"" && Escape('\\') == "\\\\"
    ensures Escape(0x08 as char) == "\\b" && Escape(0x09 as char) == "\\t" && Escape(0x0A as char) == "\\n"
    ensures Escape(0x0C as char) == "\\f" && Escape(0x0D as char) == "\\r"
    ensures |Escape(c)| == 6 <==> (c as int) < 0x20 && c as int !in {0x08, 0x09, 0x0A, 0x0C, 0x0D}
    ensures |Escape(c)| == 6 ==>
              Escape(c)[..4] == "\\u00"
              && Escape(c)[4] == "01"[c as int / 16] && Escape(c)[5] == "0123456789abcdef"[c as int % 16]
    ensures Escape(c) == [c] <==> c as int >= 0x20 && c != '\"' && c != '\\'
  {
  }

  /** The characters of `s`, each escaped. */
  function Escaped(s: string): string {
    PutEscaped(s, "")
  }

  lemma {:induction false} EscapedThenRest(s: string, rest: string)
    ensures PutEscaped(s, rest) == Escaped(s) + rest
  {
    if s == [] {
      assert "" + rest == rest;
    } else {
      EscapedThenRest(s[1..], rest);
      assert Escape(s[0]) + (Escaped(s[1..]) + rest) == (Escape(s[0]) + Escaped(s[1..])) + rest;
    }
  }

  /** Escaping goes character by character. */
  lemma EscapedSplits(s: string, t: string)
    ensures Escaped("") == "" && Escaped(s + t) == Escaped(s) + Escaped(t)
    ensures |s| == 1 ==> Escaped(s) == Escape(s[0])
    decreases |s|
  {
    if s == [] {
      assert "" + t == t;
      assert "" + Escaped(t) == Escaped(t);
    } else {
      EscapedSplits(s[1..], t);
      assert (s + t)[1..] == s[1..] + t;
      EscapedThenRest(s[1..] + t, "");
      assert Escape(s[0]) + (Escaped(s[1..]) + Escaped(t)) == (Escape(s[0]) + Escaped(s[1..])) + Escaped(t);
      if |s| == 1 {
        assert s[1..] == "" && Escape(s[0]) + "" == Escape(s[0]);
      }
    }
  }

  /** No control character, quote or backslash. */
  predicate Plain(s: string) {
    forall i :: 0 <= i < |s| ==> s[i] as int >= 0x20 && s[i] != '\"' && s[i] != '\\'
  }

  lemma {:induction false} PlainStays(s: string)
    requires Plain(s)
    ensures Escaped(s) == s
  {
    if s != [] {
      PlainStays(s[1..]);
      EscapeTable(s[0]);
      assert s == [s[0]] + s[1..];
    }
  }

  /** A number in decimal: digits only, no leading zero, the last one the number's remainder by ten. */
  lemma {:induction false} DecimalSpells(n: nat)
    ensures forall i :: 0 <= i < |Decimal(n)| ==> '0' <= Decimal(n)[i] <= '9'
    ensures |Decimal(n)| > 0 && Decimal(n)[|Decimal(n)| - 1] == "0123456789"[n % 10]
    ensures n < 10 <==> |Decimal(n)| == 1
    ensures n >= 10 ==> Decimal(n)[0] != '0' && Decimal(n)[..|Decimal(n)| - 1] == Decimal(n / 10)
  {
    if n >= 10 {
      DecimalSpells(n / 10);
      assert Decimal(n)[..|Decimal(n)| - 1] == Decimal(n / 10);
      if n / 10 < 10 {
        assert Decimal(n)[0] == HexDigit(n / 10);
      }
    }
  }

  lemma ConcatCons(part: string, parts: seq<string>)
    ensures Concat([part] + parts) == part + Concat(parts)
  {
    if parts == [] {
      assert [part] + parts == [part];
      assert [part][..0] == [];
      assert "" + part == part && part + "" == part;
    } else {
      var all := [part] + parts;
      assert all[..|all| - 1] == [part] + parts[..|parts| - 1];
      ConcatCons(part, parts[..|parts| - 1]);
      assert part + (Concat(parts[..|parts| - 1]) + parts[|parts| - 1]) ==
             (part + Concat(parts[..|parts| - 1])) + parts[|parts| - 1];
    }
  }

  lemma StringField(key: string, opening: string, s: string, parts: seq<string>)
    requires opening == key + "\""
    ensures key + PutString(s, Concat(parts)) == Concat([opening + Escaped(s) + "\""] + parts)
  {
    var rest := Concat(parts);
    EscapedThenRest(s, "\"" + rest);
    ConcatCons(opening + Escaped(s) + "\"", parts);
    Regroup(key, "\"", Escaped(s), "\"", rest);
  }

  lemma Regroup(a: string, b: string, c: string, d: string, rest: string)
    ensures a + (b + (c + (d + rest))) == (((a + b) + c) + d) + rest
  {
  }

  lemma PlainField(key: string, value: string, parts: seq<string>)
    ensures key + (value + Concat(parts)) == Concat([key + value] + parts)
  {
    ConcatCons(key + value, parts);
    assert key + (value + Concat(parts)) == (key + value) + Concat(parts);
  }

  /** A field that may be absent. */
  function OptField(key: string, opening: string, value: Option<string>): string {
    if value.None? then key + "null" else opening + Escaped(value.value) + "\""
  }

  lemma OptFieldJoins(key: string, opening: string, value: Option<string>, parts: seq<string>)
    requires opening == key + "\""
    ensures key + PutOptString(value, Concat(parts)) == Concat([OptField(key, opening, value)] + parts)
  {
    if value.None? {
      PlainField(key, "null", parts);
    } else {
      StringField(key, opening, value.value, parts);
    }
  }

  function TtlText(ttl: Option<nat>): string {
    if ttl.None? then "null" else Decimal(ttl.value)
  }

  lemma LastFields(doc: Doc)
    ensures ",\"tool\":" + PutOptString(doc.tool,
                                        ",\"mode\":" + PutOptString(doc.mode, ",\"ttl\":" + PutOptNat(doc.ttl, "}"))) ==
            Concat([OptField(",\"tool\":", ",\"tool\":\"", doc.tool), OptField(",\"mode\":", ",\"mode\":\"", doc.mode),
                    ",\"ttl\":" + TtlText(doc.ttl), "}"])
  {
    hide Escaped;
    hide Decimal;
    hide PutOptString;
    hide OptField;
    hide Concat;
    var tool, mode := OptField(",\"tool\":", ",\"tool\":\"", doc.tool),
      OptField(",\"mode\":", ",\"mode\":\"", doc.mode);
    var ttl := ",\"ttl\":" + TtlText(doc.ttl);
    LastPart("}");
    PlainField(",\"ttl\":", TtlText(doc.ttl), ["}"]);
    assert [ttl] + ["}"] == [ttl, "}"];
    OptFieldJoins(",\"mode\":", ",\"mode\":\"", doc.mode, [ttl, "}"]);
    assert [mode] + [ttl, "}"] == [mode, ttl, "}"];
    OptFieldJoins(",\"tool\":", ",\"tool\":\"", doc.tool, [mode, ttl, "}"]);
    assert [tool] + [mode, ttl, "}"] == [tool, mode, ttl, "}"];
  }

  /** The printed object: its fields in order, each with its key. */
  lemma PrintedFields(doc: Doc)
    ensures Print(doc) ==
            Concat(["{\"v\":1,\"purpose\":\"" + Escaped(doc.purpose) + "\"",
                    ",\"client\":\"" + Escaped(doc.client) + "\"",
                    ",\"nonce\":\"" + Escaped(doc.nonce) + "\"", ",\"server\":\"" + Escaped(doc.server) + "\"",
                    OptField(",\"tool\":", ",\"tool\":\"", doc.tool), OptField(",\"mode\":", ",\"mode\":\"", doc.mode),
                    ",\"ttl\":" + TtlText(doc.ttl), "}"])
  {
    hide Escaped;
    hide PutString;
    hide PutOptString;
    hide PutOptNat;
    hide OptField;
    hide TtlText;
    hide Concat;
    LastFields(doc);
    var purpose, client := "{\"v\":1,\"purpose\":\"" + Escaped(doc.purpose) + "\"",
      ",\"client\":\"" + Escaped(doc.client) + "\"";
    var nonce, server := ",\"nonce\":\"" + Escaped(doc.nonce) + "\"", ",\"server\":\"" + Escaped(doc.server) + "\"";
    var last := [OptField(",\"tool\":", ",\"tool\":\"", doc.tool), OptField(",\"mode\":", ",\"mode\":\"", doc.mode),
                 ",\"ttl\":" + TtlText(doc.ttl), "}"];
    StringField(",\"server\":", ",\"server\":\"", doc.server, last);
    StringField(",\"nonce\":", ",\"nonce\":\"", doc.nonce, [server] + last);
    StringField(",\"client\":", ",\"client\":\"", doc.client, [nonce] + ([server] + last));
    StringField("{\"v\":1,\"purpose\":", "{\"v\":1,\"purpose\":\"", doc.purpose,
                [client] + ([nonce] + ([server] + last)));
    assert [purpose] + ([client] + ([nonce] + ([server] + last))) ==
           [purpose, client, nonce, server, last[0], last[1], last[2], last[3]];
  }

  lemma LastPart(part: string)
    ensures Concat([part]) == part
  {
    assert [part][..0] == [];
    assert "" + part == part;
  }

  lemma HexIsPlain(bytes: seq<u8>)
    ensures Plain(ToHex(bytes))
  {
    var s := ToHex(bytes);
    assert IsLowerHex(s);
  }

  lemma WordsStay()
    ensures Escaped("elevate") == "elevate" && Escaped("confirm") == "confirm"
    ensures Escaped("duration") == "duration" && Escaped("until_revoked") == "until_revoked"
  {
    hide Escaped;
    hide PutEscaped;
    PlainStays("elevate");
    PlainStays("confirm");
    PlainStays("duration");
    PlainStays("until_revoked");
  }

  lemma FixedFields()
    ensures "{\"v\":1,\"purpose\":\"" + "elevate" + "\"" == "{\"v\":1,\"purpose\":\"elevate\""
    ensures "{\"v\":1,\"purpose\":\"" + "confirm" + "\"" == "{\"v\":1,\"purpose\":\"confirm\""
    ensures ",\"tool\":" + "null" == ",\"tool\":null" && ",\"mode\":" + "null" == ",\"mode\":null"
    ensures ",\"mode\":\"" + "duration" + "\"" == ",\"mode\":\"duration\""
    ensures ",\"mode\":\"" + "until_revoked" + "\"" == ",\"mode\":\"until_revoked\""
    ensures ",\"ttl\":" + "null" == ",\"ttl\":null"
  {
  }

  /** The very bytes a client signs, for each of the three purposes: these fields in this order, the nonce as its
      digits, the window in decimal. Names without control characters, quotes and backslashes stand as they are; with
      them, the names are escaped and nothing else changes. */
  lemma ChallengeText(nonce: Nonce, client: string, purpose: Purpose)
    ensures ChallengeMessage(nonce, client, purpose) ==
            match purpose
            case Elevate(server, TimeBoxed(ttl)) =>
              Concat(["{\"v\":1,\"purpose\":\"elevate\"", ",\"client\":\"" + Escaped(client) + "\"",
                      ",\"nonce\":\"" + ToHex(nonce) + "\"", ",\"server\":\"" + Escaped(server) + "\"",
                      ",\"tool\":null", ",\"mode\":\"duration\"", ",\"ttl\":" + Decimal(ttl), "}"])
            case Elevate(server, OpenEnded) =>
              Concat(["{\"v\":1,\"purpose\":\"elevate\"", ",\"client\":\"" + Escaped(client) + "\"",
                      ",\"nonce\":\"" + ToHex(nonce) + "\"", ",\"server\":\"" + Escaped(server) + "\"",
                      ",\"tool\":null", ",\"mode\":\"until_revoked\"", ",\"ttl\":null", "}"])
            case ConfirmAction(server, tool) =>
              Concat(["{\"v\":1,\"purpose\":\"confirm\"", ",\"client\":\"" + Escaped(client) + "\"",
                      ",\"nonce\":\"" + ToHex(nonce) + "\"", ",\"server\":\"" + Escaped(server) + "\"",
                      ",\"tool\":\"" + Escaped(tool) + "\"", ",\"mode\":null", ",\"ttl\":null", "}"])
    ensures forall s :: Plain(s) ==> Escaped(s) == s
  {
    hide Escaped;
    hide Decimal;
    hide Print;
    hide Concat;
    hide Plain;
    forall s | Plain(s) ensures Escaped(s) == s {
      PlainStays(s);
    }
    WordsStay();
    FixedFields();
    HexIsPlain(nonce);
    PrintedFields(DocOf(nonce, client, purpose));
  }
}
